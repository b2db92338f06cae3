/** The cart service's operations on the cart-item table, updating it in place. */
module CartService {
  import opened Common
  import opened Cart
  import opened CartMerge

  datatype Outcome = Ok | Rejected

  class CartStore {
    var rows: map<nat, Row>
    var next: nat

    ghost function View(): Table
      reads this
    {
      Table(rows, next)
    }

    constructor ()
      ensures View() == EmptyTable
    {
      rows, next := map[], 0;
    }

    /** Lookup by cart, product and variant, returning one match if there is any. */
    method FindItem(cart: nat, sku: Sku) returns (hit: Option<nat>)
      ensures hit.Some? <==> Has(View(), cart, sku)
      ensures hit.Some? ==> hit.value in rows && Matches(rows[hit.value], cart, sku)
    {
      var rest := rows.Keys;
      while rest != {}
        invariant rest <= rows.Keys
        invariant forall id :: id in rows && id !in rest ==> !Matches(rows[id], cart, sku)
        decreases |rest|
      {
        var id :| id in rest;
        if rows[id].cart == cart && rows[id].sku == sku {
          return Some(id);
        }
        rest := rest - {id};
      }
      hit := None;
    }

    method AddItem(c: Catalog, cart: nat, sku: Sku, qty: int) returns (outcome: Outcome)
      requires Valid(View())
      modifies this
      ensures View() == Add(old(View()), c, cart, sku, qty)
      ensures outcome.Rejected? ==> View() == old(View())
      ensures outcome.Ok? && qty < TWO_31 && !Has(old(View()), cart, sku) ==> Qty(View(), cart, sku) == qty
    {
      if qty <= 0 {
        return Rejected;
      }
      var hit := FindItem(cart, sku);
      if hit.Some? {
        FindIs(View(), hit.value);
        var item := rows[hit.value];
        var newQty := ToInt32(item.qty + ToInt32(qty));
        if newQty <= 0 {
          return Rejected;
        }
        rows := rows[hit.value := item.(qty := newQty, subtotal := newQty * item.unitPrice)];
        return Ok;
      }
      if sku.product !in c.products {
        return Rejected;
      }
      var unitPrice := c.products[sku.product];
      if sku.variant.Some? {
        if sku.variant.value !in c.variants {
          return Rejected;
        }
        var variant := c.variants[sku.variant.value];
        if variant.product != sku.product {
          return Rejected;
        }
        unitPrice := variant.price;
        if variant.stock <= 0 {
          return Rejected;
        }
      }
      if unitPrice < 0 {
        unitPrice := 0;
      }
      var subtotal := qty * unitPrice;
      if subtotal < 0 {
        subtotal := 0;
      }
      if ToInt32(qty) <= 0 {
        return Rejected;
      }
      rows := rows[next := Row(cart, sku, ToInt32(qty), unitPrice, subtotal)];
      next := next + 1;
      outcome := Ok;
      if qty < TWO_31 {
        AddKeepsValid(old(View()), c, cart, sku, qty);
        FindIs(View(), next - 1);
        Int32Identity(qty);
      }
    }

    method UpdateQty(id: nat, qty: int) returns (outcome: Outcome)
      modifies this
      ensures View() == Update(old(View()), id, qty)
      ensures outcome.Rejected? ==> View() == old(View())
    {
      if qty <= 0 || id !in rows {
        return Rejected;
      }
      var item := rows[id];
      var newSubtotal := qty * item.unitPrice;
      if ToInt32(qty) <= 0 {
        return Rejected;
      }
      rows := rows[id := item.(qty := ToInt32(qty), subtotal := newSubtotal)];
      return Ok;
    }

    method RemoveItem(cart: nat, id: nat)
      modifies this
      ensures View() == Remove(old(View()), cart, id)
    {
      if id in rows && rows[id].cart == cart {
        rows := rows - {id};
      }
    }

    method ListItems(cart: nat) returns (items: seq<Row>)
      ensures Lists(View(), cart, items)
    {
      items := [];
      ghost var ids: seq<nat> := [];
      var rest := rows.Keys;
      while rest != {}
        invariant rest <= rows.Keys && |ids| == |items| && Distinct(ids)
        invariant forall id :: id in ids <==> id in rows && id !in rest && rows[id].cart == cart
        invariant forall i :: 0 <= i < |items| ==> ids[i] in rows && items[i] == rows[ids[i]]
        decreases |rest|
      {
        var id :| id in rest;
        if rows[id].cart == cart {
          items := items + [rows[id]];
          ids := ids + [id];
        }
        rest := rest - {id};
      }
      assert ListsAs(View(), cart, items, ids);
    }

    /** One guest row: find its item in the user's cart and raise or create the line. */
    method MergeItem(user: nat, item: Row)
      requires Valid(View()) && LineOk(item)
      modifies this
      ensures View() == MergeOne(old(View()), user, item)
    {
      var existing := FindItem(user, item.sku);
      if existing.Some? {
        FindIs(View(), existing.value);
        var line := rows[existing.value];
        if line.qty < item.qty {
          rows := rows[existing.value := line.(qty := item.qty, subtotal := item.qty * line.unitPrice)];
        }
      } else {
        rows := rows[next := item.(cart := user)];
        next := next + 1;
      }
    }

    /** Merge of a guest cart: the loop over its listing. */
    method Merge(guest: nat, user: nat) returns (ghost listing: seq<Row>)
      requires Valid(View())
      modifies this
      ensures Lists(old(View()), guest, listing) && View() == MergeAll(old(View()), user, listing)
      ensures Valid(View())
      ensures forall sku :: Qty(View(), user, sku) == Max(Qty(old(View()), user, sku), Qty(old(View()), guest, sku))
    {
      var items := ListItems(guest);
      listing := items;
      ListsMembers(View(), guest, items);
      var i := 0;
      while i < |items|
        invariant i <= |items| && Valid(View())
        invariant MergeAll(View(), user, items[i..]) == MergeAll(old(View()), user, items)
        invariant forall g :: g in items ==> LineOk(g)
      {
        assert items[i] in items && items[i..][1..] == items[i + 1..];
        MergeOneKeepsValid(View(), user, items[i]);
        MergeItem(user, items[i]);
        i := i + 1;
      }
      MergeIsMaxEverywhere(old(View()), guest, user, items);
    }
  }
}
