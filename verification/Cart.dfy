/**
 Cart lines: adding, changing, removing and merging rows of the cart-item table.
 Quantities are stored in 32 bits; prices and amounts are integers in minor units.
 */
module Cart {
  import opened Common

  datatype Sku = Sku(product: nat, variant: Option<nat>)

  datatype Row = Row(cart: nat, sku: Sku, qty: int, unitPrice: int, subtotal: int)

  /** The cart-item table with its next fresh row id. */
  datatype Table = Table(rows: map<nat, Row>, next: nat)

  datatype Variant = Variant(product: nat, price: int, stock: int)

  datatype Catalog = Catalog(products: map<nat, int>, variants: map<nat, Variant>)

  predicate Matches(r: Row, cart: nat, sku: Sku) {
    r.cart == cart && r.sku == sku
  }

  ghost predicate Has(t: Table, cart: nat, sku: Sku) {
    exists id :: id in t.rows && Matches(t.rows[id], cart, sku)
  }

  /** The row that a lookup by cart, product and variant returns. */
  ghost function Find(t: Table, cart: nat, sku: Sku): (id: nat)
    requires Has(t, cart, sku)
    ensures id in t.rows && Matches(t.rows[id], cart, sku)
  {
    var id :| id in t.rows && Matches(t.rows[id], cart, sku); id
  }

  /** Whether the catalogue sells an item: a variant must be in stock and belong to its product. */
  predicate Sold(c: Catalog, sku: Sku) {
    && sku.product in c.products
    && (sku.variant.Some? ==>
          && sku.variant.value in c.variants
          && c.variants[sku.variant.value].product == sku.product
          && c.variants[sku.variant.value].stock > 0)
  }

  /** The price a new line gets: the variant's, or the product's when there is no variant; none if refused. */
  function UnitPrice(c: Catalog, sku: Sku): (p: Option<int>)
    ensures p.Some? <==> Sold(c, sku)
    ensures p.Some? ==>
              p.value == Max(0, if sku.variant.Some? then c.variants[sku.variant.value].price else c.products[sku.product])
  {
    if sku.product !in c.products then None
    else if sku.variant.None? then Some(NonNegative(c.products[sku.product]))
    else if sku.variant.value !in c.variants then None
    else
      var v := c.variants[sku.variant.value];
      if v.product != sku.product || v.stock <= 0 then None else Some(NonNegative(v.price))
  }

  function NonNegative(n: int): int {
    if n < 0 then 0 else n
  }

  /** The table refuses a row whose quantity is not positive. */
  function Write(t: Table, id: nat, r: Row): Table {
    if r.qty > 0 then t.(rows := t.rows[id := r]) else t
  }

  function Insert(t: Table, r: Row): Table {
    if r.qty > 0 then Table(t.rows[t.next := r], t.next + 1) else t
  }

  ghost function Add(t: Table, c: Catalog, cart: nat, sku: Sku, qty: int): Table {
    if qty <= 0 then t
    else if Has(t, cart, sku) then
      var id := Find(t, cart, sku);
      var r := t.rows[id];
      var q := ToInt32(r.qty + ToInt32(qty));
      Write(t, id, r.(qty := q, subtotal := q * r.unitPrice))
    else
      match UnitPrice(c, sku)
      case None => t
      case Some(price) => Insert(t, Row(cart, sku, ToInt32(qty), price, NonNegative(qty * price)))
  }

  function Update(t: Table, id: nat, qty: int): Table {
    if qty <= 0 || id !in t.rows then t
    else Write(t, id, t.rows[id].(qty := ToInt32(qty), subtotal := qty * t.rows[id].unitPrice))
  }

  function Remove(t: Table, cart: nat, id: nat): Table {
    if id in t.rows && t.rows[id].cart == cart then t.(rows := t.rows - {id}) else t
  }

  ghost function MergeOne(t: Table, user: nat, g: Row): Table {
    if Has(t, user, g.sku) then
      var id := Find(t, user, g.sku);
      var r := t.rows[id];
      if r.qty < g.qty then Write(t, id, r.(qty := g.qty, subtotal := g.qty * r.unitPrice)) else t
    else Insert(t, g.(cart := user))
  }

  /** Merging guest rows into the user's cart one after the other. */
  ghost function MergeAll(t: Table, user: nat, gs: seq<Row>): Table
    decreases |gs|
  {
    if gs == [] then t else MergeAll(MergeOne(t, user, gs[0]), user, gs[1..])
  }

  ghost predicate Distinct(ids: seq<nat>) {
    forall i, j :: 0 <= i < j < |ids| ==> ids[i] != ids[j]
  }

  /** `gs` holds the rows numbered `ids`, which are those of the cart, each once. */
  ghost predicate ListsAs(t: Table, cart: nat, gs: seq<Row>, ids: seq<nat>) {
    && |ids| == |gs| && Distinct(ids)
    && (forall id :: id in ids <==> id in t.rows && t.rows[id].cart == cart)
    && (forall i :: 0 <= i < |gs| ==> gs[i] == t.rows[ids[i]])
  }

  /** `gs` holds each row of a cart once and nothing else. */
  ghost predicate Lists(t: Table, cart: nat, gs: seq<Row>) {
    exists ids :: ListsAs(t, cart, gs, ids)
  }

  lemma ListsMembers(t: Table, cart: nat, gs: seq<Row>)
    requires Lists(t, cart, gs)
    ensures forall id :: id in t.rows && t.rows[id].cart == cart ==> t.rows[id] in gs
    ensures forall g :: g in gs ==> g.cart == cart && exists id :: id in t.rows && t.rows[id] == g
  {
    var ids :| ListsAs(t, cart, gs, ids);
    forall id | id in t.rows && t.rows[id].cart == cart ensures t.rows[id] in gs {
      assert id in ids;
      var i :| 0 <= i < |ids| && ids[i] == id;
      assert gs[i] == t.rows[id];
    }
    forall g | g in gs ensures g.cart == cart && exists id :: id in t.rows && t.rows[id] == g {
      var i :| 0 <= i < |gs| && gs[i] == g;
      assert ids[i] in ids;
    }
  }

  // ---------- what every operation keeps ----------

  predicate LineOk(r: Row) {
    1 <= r.qty < TWO_31 && r.unitPrice >= 0 && r.subtotal == r.qty * r.unitPrice
  }

  ghost predicate OneLinePerSku(t: Table) {
    forall a, b :: a in t.rows && b in t.rows && t.rows[a].cart == t.rows[b].cart && t.rows[a].sku == t.rows[b].sku ==> a == b
  }

  ghost predicate Valid(t: Table) {
    && (forall id :: id in t.rows ==> LineOk(t.rows[id]) && id < t.next)
    && OneLinePerSku(t)
  }

  lemma FindIs(t: Table, id: nat)
    requires OneLinePerSku(t) && id in t.rows
    ensures Has(t, t.rows[id].cart, t.rows[id].sku) && Find(t, t.rows[id].cart, t.rows[id].sku) == id
  {
  }

  lemma WriteKeepsValid(t: Table, id: nat, qty: int)
    requires Valid(t) && id in t.rows && qty < TWO_31
    ensures Valid(Write(t, id, t.rows[id].(qty := qty, subtotal := qty * t.rows[id].unitPrice)))
  {
  }

  lemma InsertKeepsValid(t: Table, r: Row)
    requires Valid(t) && !Has(t, r.cart, r.sku) && (r.qty > 0 ==> LineOk(r))
    ensures Valid(Insert(t, r))
  {
    if r.qty > 0 {
      var t' := Insert(t, r);
      forall a | a in t.rows ensures !Matches(t.rows[a], r.cart, r.sku) {
      }
      assert forall a :: a in t.rows ==> a != t.next;
    }
  }

  /**
   Adding keeps every line consistent when the quantity fits in 32 bits; an existing line is
   recomputed from its stored quantity, so it stays consistent whatever is added.
   */
  lemma AddKeepsValid(t: Table, c: Catalog, cart: nat, sku: Sku, qty: int)
    requires Valid(t) && (qty < TWO_31 || Has(t, cart, sku))
    ensures Valid(Add(t, c, cart, sku, qty))
  {
    if qty > 0 {
      if Has(t, cart, sku) {
        var id := Find(t, cart, sku);
        var q := ToInt32(t.rows[id].qty + ToInt32(qty));
        Int32Range(t.rows[id].qty + ToInt32(qty));
        WriteKeepsValid(t, id, q);
      } else if UnitPrice(c, sku).Some? {
        var price := UnitPrice(c, sku).value;
        Int32Identity(qty);
        assert qty * price >= 0;
        InsertKeepsValid(t, Row(cart, sku, ToInt32(qty), price, NonNegative(qty * price)));
      }
    }
  }

  /** A new line of a priced item is consistent exactly when its quantity survives the conversion to 32 bits. */
  lemma NewLineConsistentIff(t: Table, c: Catalog, cart: nat, sku: Sku, qty: int)
    requires Valid(t) && !Has(t, cart, sku) && qty > 0 && UnitPrice(c, sku).Some?
    ensures Valid(Add(t, c, cart, sku, qty))
       <==> UnitPrice(c, sku).value == 0 || ToInt32(qty) <= 0 || qty < TWO_31
  {
    var price := UnitPrice(c, sku).value;
    var r := Row(cart, sku, ToInt32(qty), price, NonNegative(qty * price));
    Int32Range(qty);
    assert qty * price >= 0;
    if qty < TWO_31 {
      AddKeepsValid(t, c, cart, sku, qty);
    } else if ToInt32(qty) > 0 {
      assert Add(t, c, cart, sku, qty).rows[t.next] == r;
      assert qty != ToInt32(qty);
      if price == 0 {
        InsertKeepsValid(t, r);
      } else {
        assert qty * price != ToInt32(qty) * price;
      }
    }
  }

  lemma UpdateKeepsValid(t: Table, id: nat, qty: int)
    requires Valid(t) && qty < TWO_31
    ensures Valid(Update(t, id, qty))
  {
    if qty > 0 && id in t.rows {
      Int32Identity(qty);
      WriteKeepsValid(t, id, qty);
    }
  }

  /** Likewise for a changed quantity, whose subtotal is computed before the conversion. */
  lemma UpdateConsistentIff(t: Table, id: nat, qty: int)
    requires Valid(t) && id in t.rows && qty > 0
    ensures Valid(Update(t, id, qty)) <==> t.rows[id].unitPrice == 0 || ToInt32(qty) <= 0 || qty < TWO_31
  {
    var price := t.rows[id].unitPrice;
    Int32Range(qty);
    if qty < TWO_31 {
      UpdateKeepsValid(t, id, qty);
    } else if ToInt32(qty) > 0 {
      assert Update(t, id, qty).rows[id] == t.rows[id].(qty := ToInt32(qty), subtotal := qty * price);
      if price == 0 {
        WriteKeepsValid(t, id, ToInt32(qty));
      } else {
        assert qty * price != ToInt32(qty) * price;
      }
    }
  }

  lemma MergeOneKeepsValid(t: Table, user: nat, g: Row)
    requires Valid(t) && LineOk(g)
    ensures Valid(MergeOne(t, user, g))
  {
    if Has(t, user, g.sku) {
      WriteKeepsValid(t, Find(t, user, g.sku), g.qty);
    } else {
      InsertKeepsValid(t, g.(cart := user));
    }
  }

  lemma {:induction false} MergeAllKeepsValid(t: Table, user: nat, gs: seq<Row>)
    requires Valid(t) && forall g :: g in gs ==> LineOk(g)
    ensures Valid(MergeAll(t, user, gs))
    decreases |gs|
  {
    if gs != [] {
      MergeOneKeepsValid(t, user, gs[0]);
      MergeAllKeepsValid(MergeOne(t, user, gs[0]), user, gs[1..]);
    }
  }

  // ---------- runs ----------

  datatype Event =
    | AddItem(cart: nat, sku: Sku, qty: int, catalog: Catalog)
    | UpdateQty(id: nat, qty: int)
    | RemoveItem(cart: nat, id: nat)
    | Merge(guest: nat, user: nat, listing: seq<Row>)

  /** Requested quantities fit in 32 bits, and a merge works on the guest cart's listing. */
  ghost predicate Enabled(t: Table, e: Event) {
    match e
    case AddItem(_, _, qty, _) => qty < TWO_31
    case UpdateQty(_, qty) => qty < TWO_31
    case RemoveItem(_, _) => true
    case Merge(guest, _, listing) => Lists(t, guest, listing)
  }

  ghost function Step(t: Table, e: Event): Table {
    match e
    case AddItem(cart, sku, qty, catalog) => Add(t, catalog, cart, sku, qty)
    case UpdateQty(id, qty) => Update(t, id, qty)
    case RemoveItem(cart, id) => Remove(t, cart, id)
    case Merge(_, user, listing) => MergeAll(t, user, listing)
  }

  ghost predicate ValidRun(t: Table, es: seq<Event>)
    decreases |es|
  {
    es == [] || (Enabled(t, es[0]) && ValidRun(Step(t, es[0]), es[1..]))
  }

  ghost function Run(t: Table, es: seq<Event>): Table
    decreases |es|
  {
    if es == [] then t else Run(Step(t, es[0]), es[1..])
  }

  const EmptyTable := Table(map[], 0)

  /**
   Every run of adds, updates, removals and merges keeps each line's subtotal equal to quantity
   times unit price and at most one line per cart, product and variant.
   */
  lemma {:induction false} RunKeepsValid(t: Table, es: seq<Event>)
    requires Valid(t) && ValidRun(t, es)
    ensures Valid(Run(t, es))
    decreases |es|
  {
    if es != [] {
      match es[0] {
        case AddItem(cart, sku, qty, catalog) => AddKeepsValid(t, catalog, cart, sku, qty);
        case UpdateQty(id, qty) => UpdateKeepsValid(t, id, qty);
        case RemoveItem(_, _) =>
        case Merge(guest, user, listing) =>
          ListsMembers(t, guest, listing);
          MergeAllKeepsValid(t, user, listing);
      }
      RunKeepsValid(Step(t, es[0]), es[1..]);
    }
  }
}
