/** Where the two voucher evaluators agree, and exactly where they part. */
module VoucherAgreement {
  import opened Common
  import opened VoucherRules

  // ---------- one item ----------

  predicate NoNulls(v: Voucher) {
    && (forall x :: x in v.productIds ==> x.Some?)
    && (forall x :: x in v.categoryIds ==> x.Some?)
    && (forall x :: x in v.brandIds ==> x.Some?)
  }

  function ItemFor(l: Line, info: Info): Item {
    Item(Some(l.product), info.category, info.brand, l.subtotal)
  }

  lemma {:induction false} PresentHolds(ids: seq<Option<nat>>, n: nat)
    ensures n in Present(ids) <==> Some(n) in ids
  {
    if ids != [] {
      PresentHolds(ids[1..], n);
      assert ids == [ids[0]] + ids[1..];
    }
  }

  lemma {:induction false} PresentKeepsAll(ids: seq<Option<nat>>)
    requires forall x :: x in ids ==> x.Some?
    ensures (Present(ids) == []) == (ids == [])
  {
    if ids != [] { assert ids[0] in ids; }
  }

  /**
   The one kind of item on which the evaluators differ: it lacks a category the voucher scopes by
   and its brand is covered, so the cart accepts it and the engine stops at the category.
   */
  predicate Stranded(v: Voucher, l: Line, info: Info) {
    && !Member(v.productIds, Some(l.product))
    && v.categoryIds != [] && info.category.None?
    && Member(v.brandIds, info.brand)
  }

  lemma ItemsAgreeIff(v: Voucher, l: Line, info: Info, ctx: Context)
    requires NoNulls(v) && Scoped(v)
    ensures EngineMatches(RuleFor(v, ctx), ItemFor(l, info)) ==> CartMatches(v, l.product, info)
    ensures EngineMatches(RuleFor(v, ctx), ItemFor(l, info)) == CartMatches(v, l.product, info) <==> !Stranded(v, l, info)
  {
    PresentKeepsAll(v.productIds);
    PresentKeepsAll(v.categoryIds);
    PresentKeepsAll(v.brandIds);
    PresentHolds(v.productIds, l.product);
    if info.category.Some? { PresentHolds(v.categoryIds, info.category.value); }
    if info.brand.Some? { PresentHolds(v.brandIds, info.brand.value); }
  }

  // ---------- eligible sums ----------

  predicate Known(lines: seq<Line>, catalog: map<nat, Info>) {
    forall l :: l in lines ==> l.product in catalog && l.subtotal > 0
  }

  function ItemsFor(lines: seq<Line>, catalog: map<nat, Info>): seq<Item>
    requires Known(lines, catalog)
  {
    if lines == [] then [] else
    assert lines[0] in lines;
    [ItemFor(lines[0], catalog[lines[0].product])] + ItemsFor(lines[1..], catalog)
  }

  predicate AnyStranded(v: Voucher, lines: seq<Line>, catalog: map<nat, Info>)
    requires Known(lines, catalog)
  {
    exists l :: l in lines && Stranded(v, l, catalog[l.product])
  }

  lemma {:induction false} UnscopedSum(v: Voucher, lines: seq<Line>, catalog: map<nat, Info>, ctx: Context)
    requires NoNulls(v) && !Scoped(v) && Known(lines, catalog)
    ensures EngineEligible(ItemsFor(lines, catalog), RuleFor(v, ctx)) == Total(lines)
  {
    if lines != [] {
      assert lines[0] in lines;
      UnscopedSum(v, lines[1..], catalog, ctx);
      var items := ItemsFor(lines, catalog);
      assert items[1..] == ItemsFor(lines[1..], catalog);
    }
  }

  /** For a scoped voucher the engine's eligible sum is at most the cart's, and equal exactly when no line is stranded. */
  lemma {:induction false} ScopedSumsAgreeIff(v: Voucher, lines: seq<Line>, catalog: map<nat, Info>, ctx: Context)
    requires NoNulls(v) && Scoped(v) && Known(lines, catalog)
    ensures CartEligible(v, lines, catalog).Ok?
    ensures EngineEligible(ItemsFor(lines, catalog), RuleFor(v, ctx)) <= CartEligible(v, lines, catalog).value
    ensures EngineEligible(ItemsFor(lines, catalog), RuleFor(v, ctx)) == CartEligible(v, lines, catalog).value
       <==> !AnyStranded(v, lines, catalog)
  {
    if lines != [] {
      var l := lines[0];
      assert l in lines && lines == [l] + lines[1..];
      ScopedSumsAgreeIff(v, lines[1..], catalog, ctx);
      ItemsAgreeIff(v, l, catalog[l.product], ctx);
      PresentKeepsAll(v.productIds);
      PresentKeepsAll(v.categoryIds);
      PresentKeepsAll(v.brandIds);
      var items := ItemsFor(lines, catalog);
      assert items[1..] == ItemsFor(lines[1..], catalog);
      assert AnyStranded(v, lines, catalog) <==>
             Stranded(v, l, catalog[l.product]) || AnyStranded(v, lines[1..], catalog);
    }
  }

  // ---------- gates ----------

  /** A refusal that both make for the same reason: date, spend, quota or the voucher's own personal limit. */
  predicate BothRefuse(v: Voucher, ctx: Context, total: int) {
    || (v.validFrom.Some? && ctx.now < v.validFrom.value)
    || (v.validTo.Some? && ctx.now > v.validTo.value)
    || total < v.minSpend
    || (v.usageLimit.Some? && 0 <= v.usageLimit.value <= v.usedCount)
    || (ctx.usedByUser.Some? && 0 < CartUserLimit(v, ctx) <= ctx.usedByUser.value)
  }

  /** A negative quota: the cart takes it as used up, the engine as absent. */
  predicate NegativeQuota(v: Voucher) {
    v.usageLimit.Some? && v.usageLimit.value < 0 && v.usedCount >= v.usageLimit.value
  }

  /** A personal limit that is not positive: the cart takes it as no limit, the engine falls back on the default. */
  predicate DefaultOverVoidLimit(v: Voucher, ctx: Context) {
    && v.perUserLimit.Some? && v.perUserLimit.value <= 0
    && ctx.usedByUser.Some? && 0 < ctx.defaultLimit <= ctx.usedByUser.value
  }

  predicate SameGate(v: Voucher, ctx: Context, total: int) {
    BothRefuse(v, ctx, total) || (NegativeQuota(v) <==> DefaultOverVoidLimit(v, ctx))
  }

  /** The two gates give the same answer exactly under `SameGate`. */
  lemma GatesAgreeIff(v: Voucher, ctx: Context, total: int)
    ensures CartGate(v, ctx, total).None? == Validate(RuleFor(v, ctx), ctx.now, total).None? <==> SameGate(v, ctx, total)
  {
  }

  // ---------- the evaluators ----------

  lemma DiscountsAgree(v: Voucher, eligible: int, ctx: Context)
    requires eligible > 0
    ensures CartDiscount(v, eligible).Ok? ==> CartDiscount(v, eligible).value == Compute(eligible, RuleFor(v, ctx))
    ensures CartDiscount(v, eligible).Err? ==> Compute(eligible, RuleFor(v, ctx)) == 0
  {
  }

  lemma {:induction false} TotalPositive(lines: seq<Line>, catalog: map<nat, Info>)
    requires Known(lines, catalog)
    ensures if lines == [] then Total(lines) == 0 else Total(lines) > 0
  {
    if lines != [] {
      assert lines[0] in lines;
      TotalPositive(lines[1..], catalog);
    }
  }

  /** The discount that an evaluation hands out; refusals and zeros hand out none. */
  function Granted(r: Result<int>): int {
    if r.Ok? && r.value > 0 then r.value else 0
  }

  /** What the cart takes the voucher to cover. */
  function CartSum(v: Voucher, lines: seq<Line>, catalog: map<nat, Info>): int {
    if Scoped(v) && CartEligible(v, lines, catalog).Ok? then CartEligible(v, lines, catalog).value else Total(lines)
  }

  lemma SumsOrdered(v: Voucher, lines: seq<Line>, catalog: map<nat, Info>, ctx: Context)
    requires NoNulls(v) && Known(lines, catalog)
    ensures 0 <= EngineEligible(ItemsFor(lines, catalog), RuleFor(v, ctx)) <= CartSum(v, lines, catalog)
    ensures EngineEligible(ItemsFor(lines, catalog), RuleFor(v, ctx)) == CartSum(v, lines, catalog)
       <==> !(Scoped(v) && AnyStranded(v, lines, catalog))
  {
    TotalPositive(lines, catalog);
    EngineSumIsNatural(ItemsFor(lines, catalog), RuleFor(v, ctx));
    if Scoped(v) {
      ScopedSumsAgreeIff(v, lines, catalog, ctx);
    } else {
      UnscopedSum(v, lines, catalog, ctx);
    }
  }

  lemma {:induction false} EngineSumIsNatural(items: seq<Item>, r: Rule)
    ensures EngineEligible(items, r) >= 0
  {
    if items != [] {
      EngineSumIsNatural(items[1..], r);
    }
  }

  lemma CartGrants(v: Voucher, lines: seq<Line>, catalog: map<nat, Info>, ctx: Context)
    requires NoNulls(v) && Known(lines, catalog)
    ensures Granted(CartEvaluate(v, lines, catalog, ctx))
         == if CartGate(v, ctx, Total(lines)).None? then Compute(CartSum(v, lines, catalog), RuleFor(v, ctx)) else 0
  {
    TotalPositive(lines, catalog);
    SumsOrdered(v, lines, catalog, ctx);
    if Scoped(v) {
      ScopedSumsAgreeIff(v, lines, catalog, ctx);
      if lines == [] { assert CartEligible(v, lines, catalog) == Ok(0); }
    }
    if CartSum(v, lines, catalog) > 0 {
      DiscountsAgree(v, CartSum(v, lines, catalog), ctx);
    }
  }

  lemma PreviewGrants(v: Voucher, items: seq<Item>, total: int, ctx: Context)
    ensures Granted(Preview(v, items, total, ctx))
         == if Validate(RuleFor(v, ctx), ctx.now, total).None?
            then Compute(EngineEligible(items, RuleFor(v, ctx)), RuleFor(v, ctx)) else 0
  {
  }

  /** Two sums e <= c get the same discount: the value fits in the smaller, or the percentages round to the same. */
  predicate SameDiscount(v: Voucher, e: int, c: int) {
    match v.kind
    case FixedAmount => v.value <= e || e == c
    case Percent =>
      || v.percentBps.None? || v.percentBps.value <= 0
      || Min(e, e * v.percentBps.value / 10000) == Min(c, c * v.percentBps.value / 10000)
  }

  lemma SameDiscountIff(v: Voucher, e: int, c: int, ctx: Context)
    requires 0 <= e <= c
    ensures Compute(e, RuleFor(v, ctx)) == Compute(c, RuleFor(v, ctx)) <==> SameDiscount(v, e, c)
  {
    if v.kind.Percent? && v.percentBps.Some? && v.percentBps.value > 0 {
      assert e * v.percentBps.value >= 0 && c * v.percentBps.value >= 0;
    }
  }

  /**
   Both gates are shut, or both are open and the two eligible sums get the same discount, or one is open and
   its sum gets none.
   */
  predicate SamePayout(v: Voucher, lines: seq<Line>, catalog: map<nat, Info>, ctx: Context)
    requires Known(lines, catalog)
  {
    var e := EngineEligible(ItemsFor(lines, catalog), RuleFor(v, ctx));
    var c := CartSum(v, lines, catalog);
    match (CartGate(v, ctx, Total(lines)).None?, Validate(RuleFor(v, ctx), ctx.now, Total(lines)).None?)
    case (true, true) => SameDiscount(v, e, c)
    case (true, false) => SameDiscount(v, 0, c)
    case (false, true) => SameDiscount(v, 0, e)
    case (false, false) => true
  }

  /**
   On a cart of known, positively priced lines, with no null identifiers, the cart and the preview hand out the
   same discount exactly under that condition on the two gates and sums.
   */
  lemma EvaluatorsAgreeIff(v: Voucher, lines: seq<Line>, catalog: map<nat, Info>, ctx: Context)
    requires NoNulls(v) && Known(lines, catalog)
    ensures Granted(CartEvaluate(v, lines, catalog, ctx)) == Granted(Preview(v, ItemsFor(lines, catalog), Total(lines), ctx))
       <==> SamePayout(v, lines, catalog, ctx)
  {
    var e := EngineEligible(ItemsFor(lines, catalog), RuleFor(v, ctx));
    var c := CartSum(v, lines, catalog);
    SumsOrdered(v, lines, catalog, ctx);
    CartGrants(v, lines, catalog, ctx);
    PreviewGrants(v, ItemsFor(lines, catalog), Total(lines), ctx);
    SameDiscountIff(v, e, c, ctx);
    SameDiscountIff(v, 0, c, ctx);
    SameDiscountIff(v, 0, e, ctx);
  }

  /**
   In particular, with the same gate and no stranded line, the cart grants a discount d > 0 exactly when the
   preview reports d.
   */
  lemma EvaluatorsAgree(v: Voucher, lines: seq<Line>, catalog: map<nat, Info>, ctx: Context, d: int)
    requires NoNulls(v) && Known(lines, catalog) && SameGate(v, ctx, Total(lines))
    requires !Scoped(v) || !AnyStranded(v, lines, catalog)
    ensures d > 0 && CartEvaluate(v, lines, catalog, ctx) == Ok(d)
       <==> Preview(v, ItemsFor(lines, catalog), Total(lines), ctx) == Ok(d)
  {
    GatesAgreeIff(v, ctx, Total(lines));
    SumsOrdered(v, lines, catalog, ctx);
    CartGrants(v, lines, catalog, ctx);
    PreviewGrants(v, ItemsFor(lines, catalog), Total(lines), ctx);
  }

  /** What the cart can be short of: the engine never grants more than the cart on the same lines. */
  lemma PreviewNeverExceedsCart(v: Voucher, lines: seq<Line>, catalog: map<nat, Info>, ctx: Context)
    requires NoNulls(v) && Known(lines, catalog) && SameGate(v, ctx, Total(lines))
    requires Preview(v, ItemsFor(lines, catalog), Total(lines), ctx).Ok?
    ensures var c := CartEvaluate(v, lines, catalog, ctx);
            c.Ok? && c.value >= Preview(v, ItemsFor(lines, catalog), Total(lines), ctx).value
  {
    GatesAgreeIff(v, ctx, Total(lines));
    TotalPositive(lines, catalog);
    var e := EngineEligible(ItemsFor(lines, catalog), RuleFor(v, ctx));
    if Scoped(v) {
      ScopedSumsAgreeIff(v, lines, catalog, ctx);
      DiscountGrows(v, e, CartEligible(v, lines, catalog).value, ctx);
    } else {
      UnscopedSum(v, lines, catalog, ctx);
      DiscountGrows(v, e, e, ctx);
    }
  }

  lemma DiscountGrows(v: Voucher, small: int, large: int, ctx: Context)
    requires 0 < small <= large && Compute(small, RuleFor(v, ctx)) > 0
    ensures CartDiscount(v, large).Ok? && CartDiscount(v, large).value >= Compute(small, RuleFor(v, ctx))
  {
    if v.kind.Percent? {
      var bps := v.percentBps.value;
      assert (large - small) * bps >= 0;
      assert large * bps == small * bps + (large - small) * bps;
      QuotientGrows(small * bps, large * bps);
    }
  }

  lemma QuotientGrows(a: int, b: int)
    requires 0 <= a <= b
    ensures Quotient(a, 10000) <= Quotient(b, 10000)
  {
  }

  const BRAND_AND_CATEGORY := Voucher(
    FixedAmount, 10, None, 0, None, 0, None, None, None, [], [Some(1)], [Some(2)])

  /** A line without a category but with a covered brand is discounted by the cart and refused by the preview. */
  lemma StrandedLineDiffers()
    ensures var lines := [Line(7, 100)];
            var catalog := map[7 := Info(None, Some(2))];
            var ctx := Context(0, 0, None);
            && Known(lines, catalog)
            && CartEvaluate(BRAND_AND_CATEGORY, lines, catalog, ctx) == Ok(10)
            && Preview(BRAND_AND_CATEGORY, ItemsFor(lines, catalog), Total(lines), ctx) == Err(NotApplicable)
  {
    var lines := [Line(7, 100)];
    var catalog := map[7 := Info(None, Some(2))];
    var ctx := Context(0, 0, None);
    var v := BRAND_AND_CATEGORY;
    assert lines[1..] == [] && Total(lines) == 100;
    assert CartEligible(v, lines[1..], catalog) == Ok(0);
    ScopedSumsAgreeIff(v, lines, catalog, ctx);
    assert Stranded(v, lines[0], catalog[7]) && AnyStranded(v, lines, catalog);
    ItemsAgreeIff(v, lines[0], catalog[7], ctx);
    PresentKeepsAll(v.categoryIds);
    assert ItemsFor(lines, catalog) == [ItemFor(lines[0], catalog[7])];
    assert EngineEligible(ItemsFor(lines, catalog)[1..], RuleFor(v, ctx)) == 0;
  }
}
