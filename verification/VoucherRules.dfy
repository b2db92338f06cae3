/**
 The two voucher evaluators: the one inside the cart service and the rule engine behind
 voucher previews. Null identifiers in a voucher's scope lists are `None`.
 */
module VoucherRules {
  import opened Common

  datatype Reason =
    | CartEmpty | NotActive | Expired | UsageExceeded | MinimumSpend | NotApplicable | InvalidPercent | LookupFailed

  datatype Result<T> = Ok(value: T) | Err(reason: Reason)

  datatype Kind = Percent | FixedAmount

  datatype Voucher = Voucher(
    kind: Kind, value: int, percentBps: Option<int>, minSpend: int,
    usageLimit: Option<int>, usedCount: int, perUserLimit: Option<int>,
    validFrom: Option<int>, validTo: Option<int>,
    productIds: seq<Option<nat>>, categoryIds: seq<Option<nat>>, brandIds: seq<Option<nat>>)

  /** The caller's clock, default per-user limit and, for a signed-in user, their past uses of the voucher. */
  datatype Context = Context(now: int, defaultLimit: int, usedByUser: Option<int>)

  /** Division rounding towards zero. */
  function Quotient(a: int, b: int): int
    requires b > 0
  {
    if a >= 0 then a / b else -((-a) / b)
  }

  predicate Scoped(v: Voucher) {
    v.productIds != [] || v.categoryIds != [] || v.brandIds != []
  }

  // ---------- the cart's evaluator ----------

  datatype Line = Line(product: nat, subtotal: int)

  datatype Info = Info(category: Option<nat>, brand: Option<nat>)

  function Total(lines: seq<Line>): int {
    if lines == [] then 0 else lines[0].subtotal + Total(lines[1..])
  }

  predicate Member(ids: seq<Option<nat>>, id: Option<nat>) {
    id.Some? && id in ids
  }

  predicate CartMatches(v: Voucher, product: nat, info: Info) {
    Member(v.productIds, Some(product)) || Member(v.categoryIds, info.category) || Member(v.brandIds, info.brand)
  }

  /** The sum of the lines the voucher covers; fails on a product that cannot be loaded. */
  function CartEligible(v: Voucher, lines: seq<Line>, catalog: map<nat, Info>): Result<int> {
    if lines == [] then Ok(0)
    else if lines[0].product !in catalog then Err(LookupFailed)
    else
      match CartEligible(v, lines[1..], catalog)
      case Err(e) => Err(e)
      case Ok(rest) =>
        Ok(rest + if CartMatches(v, lines[0].product, catalog[lines[0].product]) then lines[0].subtotal else 0)
  }

  function Clamp(discount: int, eligible: int): int {
    var d := if discount > eligible then eligible else discount;
    if d < 0 then 0 else d
  }

  function CartUserLimit(v: Voucher, ctx: Context): int {
    if v.perUserLimit.Some? then v.perUserLimit.value else ctx.defaultLimit
  }

  function CartGate(v: Voucher, ctx: Context, total: int): Option<Reason> {
    if v.validFrom.Some? && v.validFrom.value > ctx.now then Some(NotActive)
    else if v.validTo.Some? && v.validTo.value < ctx.now then Some(Expired)
    else if v.usageLimit.Some? && v.usedCount >= v.usageLimit.value then Some(UsageExceeded)
    else if CartUserLimit(v, ctx) > 0 && ctx.usedByUser.Some? && ctx.usedByUser.value >= CartUserLimit(v, ctx)
    then Some(UsageExceeded)
    else if total < v.minSpend then Some(MinimumSpend)
    else None
  }

  function CartDiscount(v: Voucher, eligible: int): Result<int> {
    match v.kind
    case Percent =>
      if v.percentBps.None? || v.percentBps.value <= 0 then Err(InvalidPercent)
      else Ok(Clamp(Quotient(eligible * v.percentBps.value, 10000), eligible))
    case FixedAmount => Ok(Clamp(v.value, eligible))
  }

  function CartEvaluate(v: Voucher, lines: seq<Line>, catalog: map<nat, Info>, ctx: Context): Result<int> {
    if lines == [] then Err(CartEmpty)
    else if CartGate(v, ctx, Total(lines)).Some? then Err(CartGate(v, ctx, Total(lines)).value)
    else if !Scoped(v) then CartDiscount(v, Total(lines))
    else
      match CartEligible(v, lines, catalog)
      case Err(e) => Err(e)
      case Ok(eligible) => if eligible == 0 then Err(NotApplicable) else CartDiscount(v, eligible)
  }

  // ---------- the rule engine ----------

  datatype Item = Item(product: Option<nat>, category: Option<nat>, brand: Option<nat>, subtotal: int)

  datatype Rule = Rule(
    kind: Kind, value: int, percentBps: Option<int>, minSpend: int, usageLimit: Option<int>, usedCount: int,
    perUserUsed: int, effectiveLimit: int, validFrom: Option<int>, validTo: Option<int>,
    productIds: seq<nat>, categoryIds: seq<nat>, brandIds: seq<nat>)

  /** The scope list without its nulls. */
  function Present(ids: seq<Option<nat>>): seq<nat> {
    if ids == [] then []
    else if ids[0].Some? then [ids[0].value] + Present(ids[1..])
    else Present(ids[1..])
  }

  function EngineUserLimit(v: Voucher, ctx: Context): int {
    if v.perUserLimit.Some? && v.perUserLimit.value > 0 then v.perUserLimit.value
    else if ctx.defaultLimit > 0 then ctx.defaultLimit
    else 0
  }

  function RuleFor(v: Voucher, ctx: Context): Rule {
    var limit := EngineUserLimit(v, ctx);
    Rule(v.kind, v.value, v.percentBps, v.minSpend, v.usageLimit, v.usedCount,
         if ctx.usedByUser.Some? && limit > 0 then ctx.usedByUser.value else 0,
         if limit > 0 then limit else 0,
         v.validFrom, v.validTo, Present(v.productIds), Present(v.categoryIds), Present(v.brandIds))
  }

  function Validate(r: Rule, now: int, total: int): Option<Reason> {
    if total < r.minSpend then Some(MinimumSpend)
    else if r.validFrom.Some? && now < r.validFrom.value then Some(NotActive)
    else if r.validTo.Some? && now > r.validTo.value then Some(Expired)
    else if r.usageLimit.Some? && r.usageLimit.value >= 0 && r.usedCount >= r.usageLimit.value then Some(UsageExceeded)
    else if r.effectiveLimit > 0 && r.perUserUsed >= r.effectiveLimit then Some(UsageExceeded)
    else None
  }

  predicate RuleScoped(r: Rule) {
    r.productIds != [] || r.categoryIds != [] || r.brandIds != []
  }

  /** Scopes are tried in order; an item without the attribute a scope needs is refused on the spot. */
  predicate EngineMatches(r: Rule, it: Item) {
    if r.productIds != [] && it.product.None? then false
    else if r.productIds != [] && it.product.value in r.productIds then true
    else if r.categoryIds != [] && it.category.None? then false
    else if r.categoryIds != [] && it.category.value in r.categoryIds then true
    else if r.brandIds != [] && it.brand.None? then false
    else if r.brandIds != [] && it.brand.value in r.brandIds then true
    else !RuleScoped(r)
  }

  predicate Counts(r: Rule, it: Item) {
    it.subtotal > 0 && (!RuleScoped(r) || EngineMatches(r, it))
  }

  function EngineEligible(items: seq<Item>, r: Rule): int {
    if items == [] then 0
    else (if Counts(r, items[0]) then items[0].subtotal else 0) + EngineEligible(items[1..], r)
  }

  function Compute(eligible: int, r: Rule): int {
    if eligible <= 0 then 0
    else if r.kind.Percent? && (r.percentBps.None? || r.percentBps.value <= 0) then 0
    else Clamp(if r.kind.Percent? then Quotient(eligible * r.percentBps.value, 10000) else r.value, eligible)
  }

  function Preview(v: Voucher, items: seq<Item>, total: int, ctx: Context): Result<int> {
    var r := RuleFor(v, ctx);
    if Validate(r, ctx.now, total).Some? then Err(Validate(r, ctx.now, total).value)
    else if EngineEligible(items, r) <= 0 then Err(NotApplicable)
    else if Compute(EngineEligible(items, r), r) <= 0 then Err(NotApplicable)
    else Ok(Compute(EngineEligible(items, r), r))
  }

  // ---------- bounds on the discount ----------

  lemma {:induction false} EligibleWithin(v: Voucher, lines: seq<Line>, catalog: map<nat, Info>)
    requires forall l :: l in lines ==> l.subtotal >= 0
    ensures Total(lines) >= 0
    ensures CartEligible(v, lines, catalog).Ok? ==> 0 <= CartEligible(v, lines, catalog).value <= Total(lines)
  {
    if lines != [] {
      EligibleWithin(v, lines[1..], catalog);
      assert lines[0] in lines;
    }
  }

  /** A granted discount is between zero and the covered part of the cart, hence at most its total. */
  lemma DiscountWithin(v: Voucher, lines: seq<Line>, catalog: map<nat, Info>, ctx: Context)
    requires forall l :: l in lines ==> l.subtotal >= 0
    ensures var r := CartEvaluate(v, lines, catalog, ctx);
            r.Ok? ==>
              && 0 <= r.value <= Total(lines)
              && (Scoped(v) ==> CartEligible(v, lines, catalog).Ok? && r.value <= CartEligible(v, lines, catalog).value)
  {
    EligibleWithin(v, lines, catalog);
  }

  // ---------- what a voucher grants ----------

  /** When the cart lets a voucher through: its dates, its quota, the user's own limit and the spend. */
  predicate CartOpen(v: Voucher, ctx: Context, total: int) {
    && (v.validFrom.Some? ==> v.validFrom.value <= ctx.now)
    && (v.validTo.Some? ==> ctx.now <= v.validTo.value)
    && (v.usageLimit.Some? ==> v.usedCount < v.usageLimit.value)
    && (ctx.usedByUser.Some? ==>
          var limit := if v.perUserLimit.Some? then v.perUserLimit.value else ctx.defaultLimit;
          limit <= 0 || ctx.usedByUser.value < limit)
    && total >= v.minSpend
  }

  /** A line is covered by a voucher without scopes, or by its product, its category or its brand. */
  predicate Covers(v: Voucher, l: Line, catalog: map<nat, Info>) {
    || (v.productIds == [] && v.categoryIds == [] && v.brandIds == [])
    || (l.product in catalog &&
        (|| Some(l.product) in v.productIds
         || (catalog[l.product].category.Some? && catalog[l.product].category in v.categoryIds)
         || (catalog[l.product].brand.Some? && catalog[l.product].brand in v.brandIds)))
  }

  function Covered(v: Voucher, lines: seq<Line>, catalog: map<nat, Info>): int {
    if lines == [] then 0 else (if Covers(v, lines[0], catalog) then lines[0].subtotal else 0) + Covered(v, lines[1..], catalog)
  }

  predicate Loaded(lines: seq<Line>, catalog: map<nat, Info>) {
    forall i :: 0 <= i < |lines| ==> lines[i].product in catalog
  }

  lemma {:induction false} UnscopedCovers(v: Voucher, lines: seq<Line>, catalog: map<nat, Info>)
    requires !Scoped(v)
    ensures Covered(v, lines, catalog) == Total(lines)
  {
    if lines != [] {
      UnscopedCovers(v, lines[1..], catalog);
    }
  }

  lemma {:induction false} EligibleIsCovered(v: Voucher, lines: seq<Line>, catalog: map<nat, Info>)
    requires Scoped(v)
    ensures CartEligible(v, lines, catalog).Ok? <==> Loaded(lines, catalog)
    ensures Loaded(lines, catalog) ==> CartEligible(v, lines, catalog).value == Covered(v, lines, catalog)
  {
    if lines != [] {
      EligibleIsCovered(v, lines[1..], catalog);
      assert Loaded(lines, catalog) <==> lines[0].product in catalog && Loaded(lines[1..], catalog) by {
        assert forall i :: 0 <= i < |lines[1..]| ==> lines[1..][i] == lines[i + 1];
        assert forall i :: 0 < i < |lines| ==> lines[i] == lines[1..][i - 1];
      }
    }
  }

  /**
   The cart grants a voucher exactly when it has lines, the voucher is let through, its percentage, if it is one,
   is positive and, if it is scoped, every product is known and the covered sum is not zero. It grants the value or
   the percentage of the covered sum, rounded down, never more than that sum and never less than zero.
   */
  lemma CartGrantIs(v: Voucher, lines: seq<Line>, catalog: map<nat, Info>, ctx: Context)
    ensures CartEvaluate(v, lines, catalog, ctx).Ok?
       <==> && lines != [] && CartOpen(v, ctx, Total(lines))
            && (v.kind.Percent? ==> v.percentBps.Some? && v.percentBps.value > 0)
            && (Scoped(v) ==> Loaded(lines, catalog) && Covered(v, lines, catalog) != 0)
    ensures var r, covered := CartEvaluate(v, lines, catalog, ctx), Covered(v, lines, catalog);
            && (r.Ok? && v.kind.FixedAmount? ==> r.value == Max(0, Min(covered, v.value)))
            && (r.Ok? && v.kind.Percent? ==>
                  r.value == Max(0, Min(covered, Quotient(covered * v.percentBps.value, 10000))))
  {
    if Scoped(v) {
      EligibleIsCovered(v, lines, catalog);
    } else {
      UnscopedCovers(v, lines, catalog);
    }
  }

  /** When the engine lets a voucher through; a negative quota and a limit that is not positive are none. */
  predicate EngineOpen(v: Voucher, ctx: Context, total: int) {
    && (v.validFrom.Some? ==> v.validFrom.value <= ctx.now)
    && (v.validTo.Some? ==> ctx.now <= v.validTo.value)
    && (v.usageLimit.Some? && v.usageLimit.value >= 0 ==> v.usedCount < v.usageLimit.value)
    && (ctx.usedByUser.Some? ==>
          var limit := if v.perUserLimit.Some? && v.perUserLimit.value > 0 then v.perUserLimit.value else ctx.defaultLimit;
          limit <= 0 || ctx.usedByUser.value < limit)
    && total >= v.minSpend
  }

  /** The engine takes the first scope that names the item, but stops at one for which the item has no value. */
  lemma EngineMatchIs(r: Rule, it: Item)
    ensures EngineMatches(r, it)
       <==> || !RuleScoped(r)
            || (it.product.Some? && it.product.value in r.productIds)
            || ((r.productIds == [] || it.product.Some?) && it.category.Some? && it.category.value in r.categoryIds)
            || ((r.productIds == [] || it.product.Some?) && (r.categoryIds == [] || it.category.Some?)
                && it.brand.Some? && it.brand.value in r.brandIds)
  {
  }

  /** The engine's eligible sum takes each positive item it matches, wherever it stands. */
  lemma {:induction false} EngineItemCounts(before: seq<Item>, it: Item, after: seq<Item>, r: Rule)
    ensures EngineEligible(before + [it] + after, r)
         == EngineEligible(before + after, r) + if EngineMatches(r, it) then Max(0, it.subtotal) else 0
    decreases |before|
  {
    if before == [] {
      assert ([it] + after)[1..] == after && before + [it] + after == [it] + after && before + after == after;
    } else {
      assert (before + [it] + after)[1..] == before[1..] + [it] + after && (before + after)[1..] == before[1..] + after;
      EngineItemCounts(before[1..], it, after, r);
    }
  }

  /**
   The preview reports a discount exactly when the voucher is let through and the value, or the percentage of the
   eligible sum rounded down, capped at that sum, is positive; and then that.
   */
  lemma PreviewGrantIs(v: Voucher, items: seq<Item>, total: int, ctx: Context)
    ensures var r, e := Preview(v, items, total, ctx), EngineEligible(items, RuleFor(v, ctx));
            && (v.kind.FixedAmount? ==>
                  && (r.Ok? <==> EngineOpen(v, ctx, total) && e > 0 && v.value > 0)
                  && (r.Ok? ==> r.value == Min(e, v.value)))
            && (v.kind.Percent? ==>
                  && (r.Ok? ==> v.percentBps.Some? && v.percentBps.value > 0)
                  && (v.percentBps.Some? && v.percentBps.value > 0 ==>
                        && (r.Ok? <==> EngineOpen(v, ctx, total) && e > 0 && Quotient(e * v.percentBps.value, 10000) > 0)
                        && (r.Ok? ==> r.value == Min(e, Quotient(e * v.percentBps.value, 10000)))))
  {
  }

  // ---------- the loops ----------

  method Contains(ids: seq<nat>, id: nat) returns (found: bool)
    ensures found == (id in ids)
  {
    for i := 0 to |ids|
      invariant id !in ids[..i]
    {
      if ids[i] == id {
        return true;
      }
    }
    return false;
  }

  method RuleMatchesItem(r: Rule, it: Item) returns (ok: bool)
    ensures ok == EngineMatches(r, it)
  {
    if |r.productIds| > 0 {
      if it.product.None? {
        return false;
      }
      var hit := Contains(r.productIds, it.product.value);
      if hit {
        return true;
      }
    }
    if |r.categoryIds| > 0 {
      if it.category.None? {
        return false;
      }
      var hit := Contains(r.categoryIds, it.category.value);
      if hit {
        return true;
      }
    }
    if |r.brandIds| > 0 {
      if it.brand.None? {
        return false;
      }
      var hit := Contains(r.brandIds, it.brand.value);
      if hit {
        return true;
      }
    }
    return |r.productIds| == 0 && |r.categoryIds| == 0 && |r.brandIds| == 0;
  }

  method EligibleSubtotal(items: seq<Item>, r: Rule) returns (total: int)
    ensures total == EngineEligible(items, r)
  {
    total := 0;
    var i := 0;
    while i < |items|
      invariant i <= |items| && total + EngineEligible(items[i..], r) == EngineEligible(items, r)
    {
      var it := items[i];
      assert items[i..][1..] == items[i + 1..];
      i := i + 1;
      if it.subtotal <= 0 {
        continue;
      }
      var ok := RuleMatchesItem(r, it);
      if !RuleScoped(r) || ok {
        total := total + it.subtotal;
      }
    }
  }

  /** The cart's accumulator loop over its lines. */
  method EligibleLines(v: Voucher, lines: seq<Line>, catalog: map<nat, Info>) returns (r: Result<int>)
    ensures r == CartEligible(v, lines, catalog)
  {
    var eligible := 0;
    var i := 0;
    while i < |lines|
      invariant i <= |lines|
      invariant match CartEligible(v, lines[i..], catalog)
                case Err(e) => CartEligible(v, lines, catalog) == Err(e)
                case Ok(rest) => CartEligible(v, lines, catalog) == Ok(eligible + rest)
    {
      assert lines[i..][1..] == lines[i + 1..];
      if lines[i].product !in catalog {
        return Err(LookupFailed);
      }
      if CartMatches(v, lines[i].product, catalog[lines[i].product]) {
        eligible := eligible + lines[i].subtotal;
      }
      i := i + 1;
    }
    r := Ok(eligible);
  }
}
