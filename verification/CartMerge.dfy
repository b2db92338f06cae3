/** Merging a guest cart is a pointwise maximum of quantities. */
module CartMerge {
  import opened Common
  import opened Cart

  /** The quantity of an item in a cart; zero when it has no line. */
  ghost function Qty(t: Table, cart: nat, sku: Sku): int {
    if Has(t, cart, sku) then t.rows[Find(t, cart, sku)].qty else 0
  }

  ghost function Price(t: Table, cart: nat, sku: Sku): int
    requires Has(t, cart, sku)
  {
    t.rows[Find(t, cart, sku)].unitPrice
  }

  /** The largest quantity listed for an item; zero when it is not listed. */
  function Listed(gs: seq<Row>, sku: Sku): int {
    if gs == [] then 0
    else if gs[0].sku == sku then Max(gs[0].qty, Listed(gs[1..], sku))
    else Listed(gs[1..], sku)
  }

  // ---------- adding ----------

  /** Adding an item that can be priced raises its quantity by what is added and touches no other item. */
  lemma AddRaisesQty(t: Table, c: Catalog, cart: nat, sku: Sku, qty: int, cart': nat, sku': Sku)
    requires Valid(t) && qty > 0 && Qty(t, cart, sku) + qty < TWO_31
    requires Has(t, cart, sku) || UnitPrice(c, sku).Some?
    ensures var t' := Add(t, c, cart, sku, qty);
            && Valid(t')
            && Qty(t', cart', sku') == Qty(t, cart', sku') + (if cart' == cart && sku' == sku then qty else 0)
            && (Has(t, cart', sku') ==> Has(t', cart', sku') && Price(t', cart', sku') == Price(t, cart', sku'))
            && (!Has(t, cart, sku) ==> Has(t', cart, sku) && Price(t', cart, sku) == UnitPrice(c, sku).value)
  {
    var t' := Add(t, c, cart, sku, qty);
    QtyIsNatural(t, cart, sku);
    AddKeepsValid(t, c, cart, sku, qty);
    Int32Identity(qty);
    var id := if Has(t, cart, sku) then Find(t, cart, sku) else t.next;
    if Has(t, cart, sku) { Int32Identity(t.rows[id].qty + qty); }
    assert id in t'.rows && Matches(t'.rows[id], cart, sku);
    FindIs(t', id);
    if cart' != cart || sku' != sku {
      SameLine(t, t', cart', sku');
    }
  }

  // ---------- one row ----------

  /** A row that another one replaces or joins without touching it is found as before. */
  lemma SameLine(t: Table, t': Table, cart: nat, sku: Sku)
    requires Valid(t) && Valid(t')
    requires forall id :: id in t.rows && Matches(t.rows[id], cart, sku) ==> id in t'.rows && t'.rows[id] == t.rows[id]
    requires forall id :: id in t'.rows && Matches(t'.rows[id], cart, sku) ==> id in t.rows && t'.rows[id] == t.rows[id]
    ensures Has(t', cart, sku) == Has(t, cart, sku)
    ensures Has(t, cart, sku) ==> t'.rows[Find(t', cart, sku)] == t.rows[Find(t, cart, sku)]
  {
    if Has(t, cart, sku) {
      var id := Find(t, cart, sku);
      assert Matches(t'.rows[id], cart, sku);
      FindIs(t', id);
    }
  }

  /** An update gives its item the new quantity at the old price and touches no other item of any cart. */
  lemma UpdateSetsQty(t: Table, id: nat, qty: int, cart: nat, sku: Sku)
    requires Valid(t) && id in t.rows && 0 < qty < TWO_31
    ensures var t', r := Update(t, id, qty), t.rows[id];
            && Valid(t') && Has(t', r.cart, r.sku)
            && t'.rows[Find(t', r.cart, r.sku)] == Row(r.cart, r.sku, qty, r.unitPrice, qty * r.unitPrice)
            && (cart != r.cart || sku != r.sku ==> SameItem(t, t', cart, sku))
  {
    var t', r := Update(t, id, qty), t.rows[id];
    UpdateKeepsValid(t, id, qty);
    Int32Identity(qty);
    FindIs(t', id);
    if cart != r.cart || sku != r.sku {
      SameLine(t, t', cart, sku);
    }
  }

  /** An update to a quantity that is not positive, or of a missing row, changes nothing. */
  lemma BadUpdateIsIdle(t: Table, id: nat, qty: int)
    requires qty <= 0 || id !in t.rows
    ensures Update(t, id, qty) == t
  {
  }

  /** Removing a row from its own cart takes its item out; nothing else goes, and from another cart nothing at all. */
  lemma RemoveDropsItem(t: Table, owner: nat, id: nat, cart: nat, sku: Sku)
    requires Valid(t)
    ensures var t' := Remove(t, owner, id);
            if id !in t.rows || t.rows[id].cart != owner then t' == t
            else
              && Valid(t') && !Has(t', owner, t.rows[id].sku)
              && (cart != owner || sku != t.rows[id].sku ==> SameItem(t, t', cart, sku))
  {
    var t' := Remove(t, owner, id);
    if id in t.rows && t.rows[id].cart == owner {
      assert Valid(t');
      if cart != owner || sku != t.rows[id].sku {
        SameLine(t, t', cart, sku);
      }
    }
  }

  lemma MergeOneLine(t: Table, user: nat, g: Row)
    requires Valid(t) && LineOk(g)
    ensures var t' := MergeOne(t, user, g);
            && Valid(t') && Has(t', user, g.sku)
            && Qty(t', user, g.sku) == Max(Qty(t, user, g.sku), g.qty)
            && Price(t', user, g.sku) == if Has(t, user, g.sku) then Price(t, user, g.sku) else g.unitPrice
  {
    var t' := MergeOne(t, user, g);
    MergeOneKeepsValid(t, user, g);
    if Has(t, user, g.sku) {
      var id := Find(t, user, g.sku);
      assert id in t'.rows && Matches(t'.rows[id], user, g.sku);
      FindIs(t', id);
    } else {
      assert t'.rows[t.next] == g.(cart := user);
      FindIs(t', t.next);
    }
  }

  lemma MergeOneOther(t: Table, user: nat, g: Row, cart: nat, sku: Sku)
    requires Valid(t) && LineOk(g) && (cart != user || sku != g.sku)
    ensures var t' := MergeOne(t, user, g);
            && Has(t', cart, sku) == Has(t, cart, sku)
            && (Has(t, cart, sku) ==> t'.rows[Find(t', cart, sku)] == t.rows[Find(t, cart, sku)])
  {
    MergeOneKeepsValid(t, user, g);
    SameLine(t, MergeOne(t, user, g), cart, sku);
  }

  // ---------- the whole listing ----------

  lemma {:induction false} MergeAllLine(t: Table, user: nat, gs: seq<Row>, sku: Sku)
    requires Valid(t) && forall g :: g in gs ==> LineOk(g)
    ensures var t' := MergeAll(t, user, gs);
            && Valid(t')
            && Qty(t', user, sku) == Max(Qty(t, user, sku), Listed(gs, sku))
            && (Has(t, user, sku) ==> Has(t', user, sku) && Price(t', user, sku) == Price(t, user, sku))
    decreases |gs|
  {
    if gs == [] {
      QtyIsNatural(t, user, sku);
    } else {
      var t1 := MergeOne(t, user, gs[0]);
      MergeOneKeepsValid(t, user, gs[0]);
      if gs[0].sku == sku {
        MergeOneLine(t, user, gs[0]);
      } else {
        MergeOneOther(t, user, gs[0], user, sku);
      }
      MergeAllLine(t1, user, gs[1..], sku);
    }
  }

  lemma QtyIsNatural(t: Table, cart: nat, sku: Sku)
    requires Valid(t)
    ensures Qty(t, cart, sku) >= 0 && (Qty(t, cart, sku) > 0 <==> Has(t, cart, sku))
  {
  }

  /** An item new to the user's cart keeps the price of the first listed row for it. */
  lemma {:induction false} MergeAllNewPrice(t: Table, user: nat, gs: seq<Row>, sku: Sku, price: int)
    requires Valid(t) && (forall g :: g in gs ==> LineOk(g)) && !Has(t, user, sku)
    requires forall g :: g in gs && g.sku == sku ==> g.unitPrice == price
    ensures var t' := MergeAll(t, user, gs); Has(t', user, sku) ==> Price(t', user, sku) == price
    decreases |gs|
  {
    if gs != [] {
      var t1 := MergeOne(t, user, gs[0]);
      MergeOneKeepsValid(t, user, gs[0]);
      if gs[0].sku == sku {
        MergeOneLine(t, user, gs[0]);
        MergeAllLine(t1, user, gs[1..], sku);
      } else {
        MergeOneOther(t, user, gs[0], user, sku);
        MergeAllNewPrice(t1, user, gs[1..], sku, price);
      }
    }
  }

  ghost predicate SameItem(t: Table, t': Table, cart: nat, sku: Sku) {
    && Has(t', cart, sku) == Has(t, cart, sku)
    && (Has(t, cart, sku) ==> t'.rows[Find(t', cart, sku)] == t.rows[Find(t, cart, sku)])
  }

  lemma {:induction false} MergeAllOtherCart(t: Table, user: nat, gs: seq<Row>, cart: nat, sku: Sku)
    requires Valid(t) && (forall g :: g in gs ==> LineOk(g)) && cart != user
    ensures SameItem(t, MergeAll(t, user, gs), cart, sku)
    decreases |gs|
  {
    if gs != [] {
      MergeOneKeepsValid(t, user, gs[0]);
      MergeOneOther(t, user, gs[0], cart, sku);
      MergeAllOtherCart(MergeOne(t, user, gs[0]), user, gs[1..], cart, sku);
    }
  }

  lemma {:induction false} ListedIs(gs: seq<Row>, sku: Sku, q: int)
    requires forall g :: g in gs && g.sku == sku ==> g.qty == q
    requires q >= 0 && forall g :: g in gs ==> g.qty >= 0
    ensures Listed(gs, sku) == if exists g :: g in gs && g.sku == sku then q else 0
    decreases |gs|
  {
    if gs != [] {
      ListedIs(gs[1..], sku, q);
      assert gs == [gs[0]] + gs[1..];
      if gs[0].sku == sku { assert gs[0] in gs; }
    }
  }

  lemma ListedIsQty(t: Table, guest: nat, gs: seq<Row>, sku: Sku)
    requires Valid(t) && Lists(t, guest, gs)
    ensures Listed(gs, sku) == Qty(t, guest, sku)
    ensures forall g :: g in gs ==> LineOk(g)
    ensures forall g :: g in gs && g.sku == sku ==> Has(t, guest, sku) && g.unitPrice == Price(t, guest, sku)
  {
    ListsMembers(t, guest, gs);
    forall g | g in gs && g.sku == sku
      ensures Has(t, guest, sku) && g == t.rows[Find(t, guest, sku)]
    {
      var id :| id in t.rows && t.rows[id] == g;
      FindIs(t, id);
    }
    ListedIs(gs, sku, if Has(t, guest, sku) then Qty(t, guest, sku) else 0);
    if Has(t, guest, sku) {
      assert t.rows[Find(t, guest, sku)] in gs;
    }
  }

  /**
   After merging a guest cart into another cart, each item has the larger of the two quantities;
   the user's price stays on shared items, the guest's comes with new ones; other carts are untouched.
   */
  lemma MergeIsPointwiseMax(t: Table, guest: nat, user: nat, gs: seq<Row>, sku: Sku)
    requires Valid(t) && Lists(t, guest, gs)
    ensures var t' := MergeAll(t, user, gs);
            && Valid(t')
            && Qty(t', user, sku) == Max(Qty(t, user, sku), Qty(t, guest, sku))
            && (Has(t', user, sku) <==> Has(t, user, sku) || Has(t, guest, sku))
            && (Has(t, user, sku) ==> Price(t', user, sku) == Price(t, user, sku))
            && (!Has(t, user, sku) && Has(t, guest, sku) ==> Price(t', user, sku) == Price(t, guest, sku))
            && (forall other, item :: other != user ==> SameItem(t, t', other, item))
  {
    ListedIsQty(t, guest, gs, sku);
    forall other, item | other != user ensures SameItem(t, MergeAll(t, user, gs), other, item) {
      MergeAllOtherCart(t, user, gs, other, item);
    }
    MergeAllLine(t, user, gs, sku);
    var t' := MergeAll(t, user, gs);
    QtyIsNatural(t, user, sku);
    QtyIsNatural(t, guest, sku);
    QtyIsNatural(t', user, sku);
    if !Has(t, user, sku) && Has(t, guest, sku) {
      MergeAllNewPrice(t, user, gs, sku, Price(t, guest, sku));
    }
  }

  lemma MergeIsMaxEverywhere(t: Table, guest: nat, user: nat, gs: seq<Row>)
    requires Valid(t) && Lists(t, guest, gs)
    ensures forall sku :: Qty(MergeAll(t, user, gs), user, sku) == Max(Qty(t, user, sku), Qty(t, guest, sku))
  {
    forall sku ensures Qty(MergeAll(t, user, gs), user, sku) == Max(Qty(t, user, sku), Qty(t, guest, sku)) {
      MergeIsPointwiseMax(t, guest, user, gs, sku);
    }
  }

  // ---------- repeating and reordering ----------

  /** A listing that the cart already covers is merged without any change. */
  lemma {:induction false} CoveredMergeIsIdle(t: Table, user: nat, gs: seq<Row>)
    requires Valid(t) && forall g :: g in gs ==> Has(t, user, g.sku) && g.qty <= Qty(t, user, g.sku)
    ensures MergeAll(t, user, gs) == t
    decreases |gs|
  {
    if gs != [] {
      assert gs[0] in gs;
      assert MergeOne(t, user, gs[0]) == t;
      CoveredMergeIsIdle(t, user, gs[1..]);
    }
  }

  /** After a merge the user's cart covers every row that the guest's cart still has. */
  lemma GuestIsCovered(t: Table, guest: nat, user: nat, gs: seq<Row>, id: nat)
    requires Valid(t) && guest != user && Lists(t, guest, gs)
    requires var t' := MergeAll(t, user, gs); id in t'.rows && t'.rows[id].cart == guest
    ensures var t' := MergeAll(t, user, gs);
            Has(t', user, t'.rows[id].sku) && t'.rows[id].qty <= Qty(t', user, t'.rows[id].sku)
  {
    var t' := MergeAll(t, user, gs);
    var sku := t'.rows[id].sku;
    MergeIsPointwiseMax(t, guest, user, gs, sku);
    FindIs(t', id);
    assert SameItem(t, t', guest, sku);
  }

  /** Merging the same guest cart again changes nothing. */
  lemma RemergeIsIdle(t: Table, guest: nat, user: nat, gs: seq<Row>, again: seq<Row>)
    requires Valid(t) && guest != user && Lists(t, guest, gs) && Lists(MergeAll(t, user, gs), guest, again)
    ensures MergeAll(MergeAll(t, user, gs), user, again) == MergeAll(t, user, gs)
  {
    var t' := MergeAll(t, user, gs);
    MergeIsPointwiseMax(t, guest, user, gs, Sku(0, None));
    ListsMembers(t', guest, again);
    forall g | g in again ensures Has(t', user, g.sku) && g.qty <= Qty(t', user, g.sku) {
      var id :| id in t'.rows && t'.rows[id] == g;
      GuestIsCovered(t, guest, user, gs, id);
    }
    CoveredMergeIsIdle(t', user, again);
  }

  // ---------- the documented sum ----------

  /** A merge adds the two quantities up exactly when one of the carts does not have the item. */
  lemma MergeAddsUpIff(t: Table, guest: nat, user: nat, gs: seq<Row>, sku: Sku)
    requires Valid(t) && Lists(t, guest, gs)
    ensures Qty(MergeAll(t, user, gs), user, sku) == Qty(t, user, sku) + Qty(t, guest, sku)
       <==> !Has(t, user, sku) || !Has(t, guest, sku)
  {
    MergeIsPointwiseMax(t, guest, user, gs, sku);
    QtyIsNatural(t, user, sku);
    QtyIsNatural(t, guest, sku);
  }

  const SHARED_ITEM := Sku(7, None)
  const GUEST_LINE := Row(2, SHARED_ITEM, 3, 10, 30)
  const SHARED_CARTS := Table(map[0 := Row(1, SHARED_ITEM, 2, 10, 20), 1 := GUEST_LINE], 2)

  /** A user's 2 and a guest's 3 of one item merge to 3. */
  lemma TwoAndThreeMergeToThree()
    ensures Valid(SHARED_CARTS) && Lists(SHARED_CARTS, 2, [GUEST_LINE])
    ensures Qty(SHARED_CARTS, 1, SHARED_ITEM) == 2 && Qty(SHARED_CARTS, 2, SHARED_ITEM) == 3
    ensures Qty(MergeAll(SHARED_CARTS, 1, [GUEST_LINE]), 1, SHARED_ITEM) == 3
  {
    assert ListsAs(SHARED_CARTS, 2, [GUEST_LINE], [1]);
    FindIs(SHARED_CARTS, 0);
    FindIs(SHARED_CARTS, 1);
    MergeIsPointwiseMax(SHARED_CARTS, 2, 1, [GUEST_LINE], SHARED_ITEM);
  }

  // ---------- several guest carts ----------

  ghost function MergeTurns(t: Table, user: nat, listings: seq<seq<Row>>): Table
    decreases |listings|
  {
    if listings == [] then t else MergeTurns(MergeAll(t, user, listings[0]), user, listings[1..])
  }

  /** Each merge reads its guest's listing from the table that the merges before it left. */
  ghost predicate ListedInTurn(t: Table, user: nat, guests: seq<nat>, listings: seq<seq<Row>>)
    decreases |guests|
  {
    && |listings| == |guests|
    && (guests != [] ==>
          && Lists(t, guests[0], listings[0])
          && ListedInTurn(MergeAll(t, user, listings[0]), user, guests[1..], listings[1..]))
  }

  /** The largest quantity of an item in some of the carts; zero without carts. */
  ghost function Peak(t: Table, carts: seq<nat>, sku: Sku): int {
    if carts == [] then 0 else Max(Qty(t, carts[0], sku), Peak(t, carts[1..], sku))
  }

  /** Raising the user's own quantity does not change the peak beside it. */
  lemma {:induction false} PeakAfterMerge(t: Table, t': Table, user: nat, carts: seq<nat>, sku: Sku)
    requires Qty(t, user, sku) <= Qty(t', user, sku)
    requires forall cart :: cart != user ==> Qty(t', cart, sku) == Qty(t, cart, sku)
    ensures Max(Qty(t', user, sku), Peak(t', carts, sku)) == Max(Qty(t', user, sku), Peak(t, carts, sku))
  {
    if carts != [] {
      PeakAfterMerge(t, t', user, carts[1..], sku);
    }
  }

  /** Merging any guest carts one after the other leaves the largest of all their quantities and the user's. */
  lemma {:induction false} MergesArePeak(t: Table, user: nat, guests: seq<nat>, listings: seq<seq<Row>>, sku: Sku)
    requires Valid(t) && ListedInTurn(t, user, guests, listings)
    ensures Qty(MergeTurns(t, user, listings), user, sku) == Max(Qty(t, user, sku), Peak(t, guests, sku))
    decreases |guests|
  {
    if guests == [] {
      QtyIsNatural(t, user, sku);
    } else {
      var t' := MergeAll(t, user, listings[0]);
      MergeIsPointwiseMax(t, guests[0], user, listings[0], sku);
      forall cart | cart != user ensures Qty(t', cart, sku) == Qty(t, cart, sku) {
        assert SameItem(t, t', cart, sku);
      }
      PeakAfterMerge(t, t', user, guests[1..], sku);
      MergesArePeak(t', user, guests[1..], listings[1..], sku);
    }
  }

  lemma {:induction false} PeakBounds(t: Table, carts: seq<nat>, sku: Sku)
    requires Valid(t)
    ensures Peak(t, carts, sku) >= 0 && forall cart :: cart in carts ==> Qty(t, cart, sku) <= Peak(t, carts, sku)
    ensures Peak(t, carts, sku) == 0 || exists cart :: cart in carts && Qty(t, cart, sku) == Peak(t, carts, sku)
  {
    if carts != [] {
      PeakBounds(t, carts[1..], sku);
      assert carts[0] in carts && forall cart :: cart in carts ==> cart == carts[0] || cart in carts[1..];
    }
  }

  /** Which guest carts are merged decides every quantity; their order and repetitions do not. */
  lemma MergeOrderIrrelevant(t: Table, user: nat, first: seq<nat>, second: seq<nat>,
                             listingsA: seq<seq<Row>>, listingsB: seq<seq<Row>>, sku: Sku)
    requires Valid(t) && ListedInTurn(t, user, first, listingsA) && ListedInTurn(t, user, second, listingsB)
    requires forall cart :: cart in first <==> cart in second
    ensures Qty(MergeTurns(t, user, listingsA), user, sku) == Qty(MergeTurns(t, user, listingsB), user, sku)
  {
    MergesArePeak(t, user, first, listingsA, sku);
    MergesArePeak(t, user, second, listingsB, sku);
    PeakBounds(t, first, sku);
    PeakBounds(t, second, sku);
  }
}
