/**
 Checkout: pricing the lines of a cart, applying the voucher, tax and shipping, and
 copying the lines into the order.
 */
module Checkout {
  import opened Common
  import opened VoucherRules
  import Cart

  datatype Priced = Priced(qty: int, unitPrice: int)

  datatype Summary = Summary(subtotal: int, discount: int, tax: int, shipping: int, total: int)

  function Subtotal(items: seq<Priced>): int {
    if items == [] then 0
    else (if items[0].qty <= 0 then 0 else items[0].qty * items[0].unitPrice) + Subtotal(items[1..])
  }

  function Price(items: seq<Priced>, voucher: int, taxBps: int, shipping: int): Summary {
    var subtotal := Subtotal(items);
    var discount := if voucher > subtotal then subtotal else voucher;
    var taxable := if subtotal - discount < 0 then 0 else subtotal - discount;
    var tax := Quotient(taxable * taxBps, 10000);
    Summary(subtotal, discount, tax, shipping, taxable + tax + shipping)
  }

  /** The pricing engine's loop and clamps. */
  method Compute(items: seq<Priced>, voucher: int, taxBps: int, shipping: int) returns (s: Summary)
    ensures s == Price(items, voucher, taxBps, shipping)
  {
    var subtotal := 0;
    var i := 0;
    while i < |items|
      invariant i <= |items| && subtotal + Subtotal(items[i..]) == Subtotal(items)
    {
      var it := items[i];
      assert items[i..][1..] == items[i + 1..];
      i := i + 1;
      if it.qty <= 0 {
        continue;
      }
      subtotal := subtotal + it.qty * it.unitPrice;
    }
    var discount := voucher;
    if discount > subtotal {
      discount := subtotal;
    }
    var taxable := subtotal - discount;
    if taxable < 0 {
      taxable := 0;
    }
    var tax := Quotient(taxable * taxBps, 10000);
    s := Summary(subtotal, discount, tax, shipping, taxable + tax + shipping);
  }

  /** The summary of any items: the discount is capped at the subtotal, tax is on what is left, and the total adds up. */
  lemma SummaryHolds(items: seq<Priced>, voucher: int, taxBps: int, shipping: int)
    ensures var s := Price(items, voucher, taxBps, shipping);
            && s.subtotal == Subtotal(items) && s.discount == Min(voucher, s.subtotal) && s.shipping == shipping
            && s.tax == Quotient((s.subtotal - s.discount) * taxBps, 10000)
            && s.total == s.subtotal - s.discount + s.tax + shipping
  {
  }

  /** Each item counts its quantity times its price wherever it stands, and nothing if its quantity is not positive. */
  lemma {:induction false} ItemCounts(before: seq<Priced>, it: Priced, after: seq<Priced>)
    ensures Subtotal(before + [it] + after) == Subtotal(before + after) + if it.qty > 0 then it.qty * it.unitPrice else 0
    decreases |before|
  {
    if before == [] {
      assert ([it] + after)[1..] == after && before + [it] + after == [it] + after && before + after == after;
    } else {
      assert (before + [it] + after)[1..] == before[1..] + [it] + after && (before + after)[1..] == before[1..] + after;
      ItemCounts(before[1..], it, after);
    }
  }

  // ---------- from cart rows to an order ----------

  datatype Order = Order(summary: Summary, items: seq<Cart.Row>)

  function PricedRows(rows: seq<Cart.Row>): seq<Priced> {
    if rows == [] then [] else [Priced(rows[0].qty, rows[0].unitPrice)] + PricedRows(rows[1..])
  }

  function Lines(rows: seq<Cart.Row>): seq<Line> {
    if rows == [] then [] else [Line(rows[0].sku.product, rows[0].subtotal)] + Lines(rows[1..])
  }

  function ItemTotal(rows: seq<Cart.Row>): int {
    if rows == [] then 0 else rows[0].subtotal + ItemTotal(rows[1..])
  }

  /** The discount taken at checkout: a voucher that no longer evaluates counts as none. */
  function CheckoutDiscount(rows: seq<Cart.Row>, voucher: Option<Voucher>, catalog: map<nat, Info>, ctx: Context): int {
    if voucher.None? then 0
    else
      match CartEvaluate(voucher.value, Lines(rows), catalog, ctx)
      case Ok(d) => d
      case Err(_) => 0
  }

  /** The order made from a cart's rows; none for an empty cart. */
  function Place(rows: seq<Cart.Row>, voucher: Option<Voucher>, catalog: map<nat, Info>, ctx: Context,
                 taxBps: int, shippingPrice: int): Option<Order>
  {
    if rows == [] then None
    else
      var shipping := if shippingPrice < 0 then 0 else shippingPrice;
      Some(Order(Price(PricedRows(rows), CheckoutDiscount(rows, voucher, catalog, ctx), taxBps, shipping), rows))
  }

  predicate Consistent(rows: seq<Cart.Row>) {
    forall r :: r in rows ==> Cart.LineOk(r)
  }

  lemma {:induction false} SubtotalIsItemTotal(rows: seq<Cart.Row>)
    requires Consistent(rows)
    ensures Subtotal(PricedRows(rows)) == ItemTotal(rows) == Total(Lines(rows))
    ensures ItemTotal(rows) >= 0 && forall l :: l in Lines(rows) ==> l.subtotal >= 0
  {
    if rows != [] {
      assert rows[0] in rows;
      assert rows[0].subtotal >= 0 by {
        assert rows[0].qty * rows[0].unitPrice >= 0;
      }
      SubtotalIsItemTotal(rows[1..]);
      assert PricedRows(rows)[1..] == PricedRows(rows[1..]) && Lines(rows)[1..] == Lines(rows[1..]);
    }
  }

  lemma TaxAtLeast(taxable: int, taxBps: int)
    requires taxable >= 0
    ensures taxBps >= 0 ==> Quotient(taxable * taxBps, 10000) == taxable * taxBps / 10000 >= 0
    ensures taxBps >= -10000 ==> taxable + Quotient(taxable * taxBps, 10000) >= 0
  {
    if taxBps >= 0 {
      assert taxable * taxBps >= 0;
    } else if taxBps >= -10000 {
      assert taxable * (taxBps + 10000) >= 0;
      assert -(taxable * taxBps) <= 10000 * taxable;
      if taxable * taxBps < 0 {
        var n := -(taxable * taxBps);
        assert n / 10000 <= taxable;
      }
    }
  }

  lemma {:induction false} LinesAt(rows: seq<Cart.Row>)
    ensures |Lines(rows)| == |rows|
    ensures forall i :: 0 <= i < |rows| ==> Lines(rows)[i] == Line(rows[i].sku.product, rows[i].subtotal)
  {
    if rows != [] {
      LinesAt(rows[1..]);
      assert forall i :: 0 < i < |rows| ==> rows[i] == rows[1..][i - 1] && Lines(rows)[i] == Lines(rows[1..])[i - 1];
    }
  }

  /** The discount is what the voucher's evaluation on the lines grants; without a voucher or on a refusal it is zero. */
  predicate DiscountHolds(d: int, lines: seq<Line>, voucher: Option<Voucher>, catalog: map<nat, Info>, ctx: Context) {
    match voucher
    case None => d == 0
    case Some(v) => if CartEvaluate(v, lines, catalog, ctx).Ok? then Ok(d) == CartEvaluate(v, lines, catalog, ctx) else d == 0
  }

  /**
   The order's subtotal is the sum of its item subtotals and its discount is within it, so nothing is clamped; the
   tax is on what is left, rounded down; the shipping is the quoted price unless negative; the total is
   subtotal less discount plus tax plus shipping.
   */
  predicate TotalsHold(o: Order, taxBps: int, shippingPrice: int) {
    && o.summary.subtotal == ItemTotal(o.items)
    && 0 <= o.summary.discount <= o.summary.subtotal
    && o.summary.shipping == Max(0, shippingPrice)
    && o.summary.total == o.summary.subtotal - o.summary.discount + o.summary.tax + Max(0, shippingPrice)
    && o.summary.tax == Quotient((o.summary.subtotal - o.summary.discount) * taxBps, 10000)
    && (taxBps >= 0 ==> o.summary.tax == (o.summary.subtotal - o.summary.discount) * taxBps / 10000 >= 0)
    && (taxBps >= -10000 ==> o.summary.total >= 0)
  }

  /** An order placed on consistent lines copies them and has those totals, whatever the voucher, tax and shipping. */
  lemma OrderTotals(rows: seq<Cart.Row>, voucher: Option<Voucher>, catalog: map<nat, Info>, ctx: Context,
                    taxBps: int, shippingPrice: int)
    requires rows != [] && Consistent(rows)
    ensures var o := Place(rows, voucher, catalog, ctx, taxBps, shippingPrice);
            && o.Some? && o.value.items == rows && TotalsHold(o.value, taxBps, shippingPrice)
            && DiscountHolds(o.value.summary.discount, Lines(rows), voucher, catalog, ctx)
    ensures |Lines(rows)| == |rows| && forall i :: 0 <= i < |rows| ==> Lines(rows)[i] == Line(rows[i].sku.product, rows[i].subtotal)
  {
    LinesAt(rows);
    SubtotalIsItemTotal(rows);
    if voucher.Some? {
      DiscountWithin(voucher.value, Lines(rows), catalog, ctx);
    }
    TaxAtLeast(ItemTotal(rows) - CheckoutDiscount(rows, voucher, catalog, ctx), taxBps);
  }

  // ---------- from the table to an order ----------

  ghost function SumOver(rows: map<nat, Cart.Row>, ids: set<nat>): int
    requires ids <= rows.Keys
    decreases |ids|
  {
    if ids == {} then 0 else var id :| id in ids; rows[id].subtotal + SumOver(rows, ids - {id})
  }

  function RowIds(t: Cart.Table, cart: nat): set<nat> {
    set id | id in t.rows && t.rows[id].cart == cart
  }

  /** The sum of the subtotals of a cart's rows in the table. */
  ghost function CartTotal(t: Cart.Table, cart: nat): int {
    SumOver(t.rows, RowIds(t, cart))
  }

  lemma {:induction false} SumWithout(rows: map<nat, Cart.Row>, ids: set<nat>, x: nat)
    requires ids <= rows.Keys && x in ids
    ensures SumOver(rows, ids) == rows[x].subtotal + SumOver(rows, ids - {x})
    decreases |ids|
  {
    var id :| id in ids && SumOver(rows, ids) == rows[id].subtotal + SumOver(rows, ids - {id});
    if id != x {
      SumWithout(rows, ids - {id}, x);
      SumWithout(rows, ids - {x}, id);
      assert ids - {id} - {x} == ids - {x} - {id};
    }
  }

  lemma {:induction false} ListedSum(rows: map<nat, Cart.Row>, gs: seq<Cart.Row>, ids: seq<nat>, all: set<nat>)
    requires |ids| == |gs| && Cart.Distinct(ids) && all <= rows.Keys && forall id :: id in all <==> id in ids
    requires forall i :: 0 <= i < |ids| ==> ids[i] in rows && gs[i] == rows[ids[i]]
    ensures ItemTotal(gs) == SumOver(rows, all)
    decreases |gs|
  {
    if gs == [] {
      assert all == {};
    } else {
      assert ids[0] in all && ids == [ids[0]] + ids[1..];
      ListedSum(rows, gs[1..], ids[1..], all - {ids[0]});
      SumWithout(rows, all, ids[0]);
    }
  }

  lemma ListingTotal(t: Cart.Table, cart: nat, rows: seq<Cart.Row>)
    requires Cart.Lists(t, cart, rows)
    ensures ItemTotal(rows) == CartTotal(t, cart)
  {
    var ids :| Cart.ListsAs(t, cart, rows, ids);
    forall i | 0 <= i < |ids| ensures ids[i] in t.rows && rows[i] == t.rows[ids[i]] {
      assert ids[i] in ids;
    }
    ListedSum(t.rows, rows, ids, RowIds(t, cart));
  }

  lemma ListingIsConsistent(t: Cart.Table, cart: nat, rows: seq<Cart.Row>)
    requires Cart.Valid(t) && Cart.Lists(t, cart, rows)
    ensures Consistent(rows) && (rows == [] <==> RowIds(t, cart) == {})
  {
    Cart.ListsMembers(t, cart, rows);
    if rows != [] {
      assert rows[0] in rows;
      var id :| id in t.rows && t.rows[id] == rows[0];
      assert id in RowIds(t, cart);
    }
  }

  /**
   After every run of cart operations, checking a non-empty cart out gives an order with those totals, whose
   subtotal is the sum over the cart's rows in the table.
   */
  lemma RunThenCheckout(es: seq<Cart.Event>, cart: nat, rows: seq<Cart.Row>, voucher: Option<Voucher>,
                        catalog: map<nat, Info>, ctx: Context, taxBps: int, shippingPrice: int)
    requires Cart.ValidRun(Cart.EmptyTable, es) && Cart.Lists(Cart.Run(Cart.EmptyTable, es), cart, rows)
    ensures var t := Cart.Run(Cart.EmptyTable, es);
            var o := Place(rows, voucher, catalog, ctx, taxBps, shippingPrice);
            && (o.None? <==> RowIds(t, cart) == {})
            && (o.Some? ==>
                  && o.value.items == rows && TotalsHold(o.value, taxBps, shippingPrice)
                  && DiscountHolds(o.value.summary.discount, Lines(rows), voucher, catalog, ctx)
                  && o.value.summary.subtotal == CartTotal(t, cart))
  {
    var t := Cart.Run(Cart.EmptyTable, es);
    Cart.RunKeepsValid(Cart.EmptyTable, es);
    ListingIsConsistent(t, cart, rows);
    ListingTotal(t, cart, rows);
    if rows != [] {
      OrderTotals(rows, voucher, catalog, ctx, taxBps, shippingPrice);
    }
  }

  method ToPricing(rows: seq<Cart.Row>) returns (pricing: seq<Priced>)
    ensures pricing == PricedRows(rows)
  {
    pricing := [];
    var i := 0;
    while i < |rows|
      invariant i <= |rows| && pricing + PricedRows(rows[i..]) == PricedRows(rows)
    {
      assert rows[i..][1..] == rows[i + 1..];
      pricing := pricing + [Priced(rows[i].qty, rows[i].unitPrice)];
      i := i + 1;
    }
  }

  method CopyRows(rows: seq<Cart.Row>) returns (items: seq<Cart.Row>)
    ensures items == rows
  {
    items := [];
    for i := 0 to |rows|
      invariant items == rows[..i]
    {
      items := items + [rows[i]];
    }
  }

  /** The checkout transaction: price the lines, write the order, copy the lines. */
  method Create(rows: seq<Cart.Row>, voucher: Option<Voucher>, catalog: map<nat, Info>, ctx: Context,
                taxBps: int, shippingPrice: int) returns (order: Option<Order>)
    ensures order == Place(rows, voucher, catalog, ctx, taxBps, shippingPrice)
  {
    if |rows| == 0 {
      return None;
    }
    var pricing := ToPricing(rows);
    var discount := 0;
    if voucher.Some? {
      var r := CartEvaluate(voucher.value, Lines(rows), catalog, ctx);
      if r.Ok? {
        discount := r.value;
      }
    }
    var shipping := shippingPrice;
    if shipping < 0 {
      shipping := 0;
    }
    var summary := Compute(pricing, discount, taxBps, shipping);
    var items := CopyRows(rows);
    order := Some(Order(summary, items));
  }
}
