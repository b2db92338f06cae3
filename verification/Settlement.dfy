/**
 Settlement of paid orders: taking the ordered quantities out of stock and recording the
 voucher's use, over any sequence of settlements of any orders. A voucher is named by its code.
 */
module Settlement {
  import opened Common

  datatype OrderLine = OrderLine(variant: Option<nat>, qty: nat)

  datatype VoucherRow = VoucherRow(usedCount: int, usageLimit: Option<int>)

  datatype Usage = Usage(user: Option<nat>, amount: int)

  /** Usage rows are unique per voucher and order. */
  datatype Books = Books(stock: map<nat, int>, vouchers: map<string, VoucherRow>, usages: map<(string, nat), Usage>)

  /** What a settlement works on; `code` is empty when the order has no voucher. */
  datatype Bill = Bill(order: nat, user: Option<nat>, lines: seq<OrderLine>, code: string, discount: int)

  function TakeOne(stock: map<nat, int>, l: OrderLine): map<nat, int> {
    if l.variant.Some? && l.variant.value in stock
    then stock[l.variant.value := Max(0, stock[l.variant.value] - l.qty)]
    else stock
  }

  function Take(stock: map<nat, int>, lines: seq<OrderLine>): map<nat, int>
    decreases |lines|
  {
    if lines == [] then stock else Take(TakeOne(stock, lines[0]), lines[1..])
  }

  function Counted(r: VoucherRow): VoucherRow {
    if r.usageLimit.None? || r.usedCount < r.usageLimit.value then r.(usedCount := r.usedCount + 1) else r
  }

  function UseVoucher(b: Books, code: string, order: nat, user: Option<nat>, amount: int): Books {
    if code == "" || amount < 0 || code !in b.vouchers || (code, order) in b.usages then b
    else b.(usages := b.usages[(code, order) := Usage(user, amount)],
            vouchers := b.vouchers[code := Counted(b.vouchers[code])])
  }

  function Settle(b: Books, bill: Bill): Books {
    UseVoucher(b.(stock := Take(b.stock, bill.lines)), bill.code, bill.order, bill.user, Max(0, bill.discount))
  }

  function SettleAll(b: Books, bills: seq<Bill>): Books
    decreases |bills|
  {
    if bills == [] then b else SettleAll(Settle(b, bills[0]), bills[1..])
  }

  // ---------- stock ----------

  function Ordered(lines: seq<OrderLine>, v: nat): nat {
    if lines == [] then 0
    else (if lines[0].variant == Some(v) then lines[0].qty else 0) + Ordered(lines[1..], v)
  }

  predicate Mentions(lines: seq<OrderLine>, v: nat) {
    exists l :: l in lines && l.variant == Some(v)
  }

  /** A settlement leaves each ordered variant at its stock less everything ordered of it, but not below zero. */
  lemma {:induction false} StockAfter(stock: map<nat, int>, lines: seq<OrderLine>, v: nat)
    requires v in stock
    ensures Take(stock, lines).Keys == stock.Keys
    ensures Take(stock, lines)[v] == if Mentions(lines, v) then Max(0, stock[v] - Ordered(lines, v)) else stock[v]
    decreases |lines|
  {
    if lines != [] {
      var next := TakeOne(stock, lines[0]);
      assert next.Keys == stock.Keys;
      StockAfter(next, lines[1..], v);
      assert lines == [lines[0]] + lines[1..];
      if lines[0].variant == Some(v) {
        assert lines[0] in lines;
        NotMentioned(lines[1..], v);
      } else {
        assert Mentions(lines, v) <==> Mentions(lines[1..], v);
      }
    }
  }

  lemma {:induction false} NotMentioned(lines: seq<OrderLine>, v: nat)
    ensures !Mentions(lines, v) ==> Ordered(lines, v) == 0
    decreases |lines|
  {
    if lines != [] && !Mentions(lines, v) {
      assert lines[0] in lines;
      assert forall l :: l in lines[1..] ==> l in lines;
      NotMentioned(lines[1..], v);
    }
  }

  lemma {:induction false} OrderedSplit(a: seq<OrderLine>, b: seq<OrderLine>, v: nat)
    ensures Ordered(a + b, v) == Ordered(a, v) + Ordered(b, v)
    decreases |a|
  {
    if a == [] {
      assert a + b == b;
    } else {
      assert (a + b)[1..] == a[1..] + b;
      OrderedSplit(a[1..], b, v);
    }
  }

  function Without(b: seq<OrderLine>, i: nat): seq<OrderLine>
    requires i < |b|
  {
    b[..i] + b[i + 1..]
  }

  lemma WithoutBag(b: seq<OrderLine>, i: nat)
    requires i < |b|
    ensures multiset(Without(b, i)) == multiset(b) - multiset{b[i]}
  {
    assert b == b[..i] + [b[i]] + b[i + 1..];
  }

  lemma WithoutOrdered(b: seq<OrderLine>, i: nat, v: nat)
    requires i < |b|
    ensures Ordered(b, v) == Ordered(Without(b, i), v) + if b[i].variant == Some(v) then b[i].qty else 0
  {
    OrderedSplit(b[..i], b[i + 1..], v);
    OrderedSplit(b[..i], b[i..], v);
    assert b == b[..i] + b[i..] && b[i..][1..] == b[i + 1..];
  }

  lemma {:induction false} OrderedOfPermutation(a: seq<OrderLine>, b: seq<OrderLine>, v: nat)
    requires multiset(a) == multiset(b)
    ensures Ordered(a, v) == Ordered(b, v)
    decreases |a|
  {
    if a == [] {
      assert |multiset(b)| == 0;
    } else {
      assert a[0] in multiset(b);
      var i :| 0 <= i < |b| && b[i] == a[0];
      WithoutBag(a, 0);
      WithoutBag(b, i);
      WithoutOrdered(b, i, v);
      assert Without(a, 0) == a[1..];
      OrderedOfPermutation(a[1..], Without(b, i), v);
    }
  }

  /** The order of an order's lines does not matter to the stock. */
  lemma LineOrderIrrelevant(stock: map<nat, int>, a: seq<OrderLine>, b: seq<OrderLine>)
    requires multiset(a) == multiset(b)
    ensures Take(stock, a) == Take(stock, b)
  {
    forall v | v in stock ensures Take(stock, a).Keys == Take(stock, b).Keys == stock.Keys && Take(stock, a)[v] == Take(stock, b)[v] {
      StockAfter(stock, a, v);
      StockAfter(stock, b, v);
      OrderedOfPermutation(a, b, v);
      assert forall l :: l in a <==> l in multiset(a);
      assert forall l :: l in b <==> l in multiset(b);
    }
    TakeKeys(stock, a);
    TakeKeys(stock, b);
  }

  lemma {:induction false} TakeKeys(stock: map<nat, int>, lines: seq<OrderLine>)
    ensures Take(stock, lines).Keys == stock.Keys
    decreases |lines|
  {
    if lines != [] {
      assert TakeOne(stock, lines[0]).Keys == stock.Keys;
      TakeKeys(TakeOne(stock, lines[0]), lines[1..]);
    }
  }

  // ---------- vouchers ----------

  /** The orders that have a usage row for a voucher. */
  function Users(b: Books, code: string): set<nat> {
    set k | k in b.usages && k.0 == code :: k.1
  }

  /** The count that `n` further uses bring a voucher to: capped by its limit, never lowered. */
  function Capped(r: VoucherRow, n: nat): int {
    if r.usageLimit.None? then r.usedCount + n
    else Max(r.usedCount, Min(r.usageLimit.value, r.usedCount + n))
  }

  lemma UseVoucherStep(b: Books, code: string, order: nat, user: Option<nat>, amount: int, c: string)
    requires c in b.vouchers
    ensures var b' := UseVoucher(b, code, order, user, amount);
            && c in b'.vouchers && b'.vouchers[c].usageLimit == b.vouchers[c].usageLimit
            && Users(b, c) <= Users(b', c) && |Users(b', c)| - |Users(b, c)| in {0, 1}
            && b'.vouchers[c].usedCount == Capped(b.vouchers[c], |Users(b', c)| - |Users(b, c)|)
            && (forall k :: k in b.usages ==> k in b'.usages && b'.usages[k] == b.usages[k])
  {
    var b' := UseVoucher(b, code, order, user, amount);
    if b' != b && code == c {
      assert Users(b', c) == Users(b, c) + {order} && order !in Users(b, c);
    } else {
      assert Users(b', c) == Users(b, c);
    }
  }

  /**
   Over any sequence of settlements a voucher gains at most one usage row per order, keeps the rows it
   has, and its count goes up by one for each new row until the limit stops it.
   */
  lemma {:induction false} UsageAccounting(b: Books, bills: seq<Bill>, c: string)
    requires c in b.vouchers
    ensures var b' := SettleAll(b, bills);
            && c in b'.vouchers && b'.vouchers[c].usageLimit == b.vouchers[c].usageLimit
            && |Users(b, c)| <= |Users(b', c)|
            && b'.vouchers[c].usedCount == Capped(b.vouchers[c], |Users(b', c)| - |Users(b, c)|)
            && (forall k :: k in b.usages ==> k in b'.usages && b'.usages[k] == b.usages[k])
    decreases |bills|
  {
    if bills != [] {
      var bill := bills[0];
      var b1 := Settle(b, bill);
      var stocked := b.(stock := Take(b.stock, bill.lines));
      assert Users(stocked, c) == Users(b, c);
      UseVoucherStep(stocked, bill.code, bill.order, bill.user, Max(0, bill.discount), c);
      UsageAccounting(b1, bills[1..], c);
    }
  }

  /** A count within its limit stays within it. */
  lemma LimitHolds(b: Books, bills: seq<Bill>, c: string)
    requires c in b.vouchers && b.vouchers[c].usageLimit.Some?
    requires b.vouchers[c].usedCount <= b.vouchers[c].usageLimit.value
    ensures var b' := SettleAll(b, bills);
            c in b'.vouchers && b'.vouchers[c].usedCount <= b.vouchers[c].usageLimit.value
  {
    UsageAccounting(b, bills, c);
  }

  lemma {:induction false} UsersOnlyFromBills(b: Books, bills: seq<Bill>, c: string)
    ensures Users(SettleAll(b, bills), c) <= Users(b, c) + (set i | 0 <= i < |bills| :: bills[i].order)
    decreases |bills|
  {
    if bills != [] {
      var b1 := Settle(b, bills[0]);
      UsersOnlyFromBills(b1, bills[1..], c);
      assert Users(b1, c) <= Users(b, c) + {bills[0].order};
      forall o | o in Users(SettleAll(b, bills), c)
        ensures o in Users(b, c) + (set i | 0 <= i < |bills| :: bills[i].order)
      {
        if o in Users(b1, c) {
          assert bills[0].order in (set i | 0 <= i < |bills| :: bills[i].order);
        } else {
          var i :| 0 <= i < |bills[1..]| && bills[1..][i].order == o;
          assert bills[i + 1].order == o;
        }
      }
    }
  }

  /** Settling one order any number of times gives it at most one usage row and raises the count at most once. */
  lemma RepeatedSettlementCountsOnce(b: Books, bills: seq<Bill>, c: string, order: nat)
    requires c in b.vouchers && forall i :: 0 <= i < |bills| ==> bills[i].order == order
    ensures var b' := SettleAll(b, bills);
            && c in b'.vouchers && Users(b', c) <= Users(b, c) + {order}
            && b.vouchers[c].usedCount <= b'.vouchers[c].usedCount <= b.vouchers[c].usedCount + 1
            && (order in Users(b, c) ==> b'.vouchers[c].usedCount == b.vouchers[c].usedCount)
  {
    UsersOnlyFromBills(b, bills, c);
    UsageAccounting(b, bills, c);
    var u, u' := Users(b, c), Users(SettleAll(b, bills), c);
    assert u' <= u + {order};
    assert u <= u' by {
      forall o | o in u ensures o in u' {
        assert (c, o) in b.usages;
      }
    }
    assert u' == u || u' == u + {order};
  }

  // ---------- what is recorded ----------

  predicate Names(bill: Bill, c: string, order: nat) {
    bill.code == c && bill.order == order
  }

  /**
   A settlement with a known voucher that the order has not used yet records who used it and how much it took
   off, and raises its count by one unless the limit is reached; any other leaves vouchers and usages alone.
   */
  lemma SettlementRecords(b: Books, bill: Bill)
    ensures var b' := Settle(b, bill);
            if bill.code != "" && bill.code in b.vouchers && (bill.code, bill.order) !in b.usages then
              var row := b.vouchers[bill.code];
              && b'.usages == b.usages[(bill.code, bill.order) := Usage(bill.user, Max(0, bill.discount))]
              && b'.vouchers.Keys == b.vouchers.Keys
              && (forall c :: c in b.vouchers && c != bill.code ==> b'.vouchers[c] == b.vouchers[c])
              && b'.vouchers[bill.code].usageLimit == row.usageLimit
              && b'.vouchers[bill.code].usedCount - row.usedCount
                 == (if row.usageLimit.Some? && row.usedCount >= row.usageLimit.value then 0 else 1)
            else b'.usages == b.usages && b'.vouchers == b.vouchers
  {
  }

  lemma {:induction false} RowsStay(b: Books, bills: seq<Bill>, k: (string, nat))
    requires k in b.usages
    ensures k in SettleAll(b, bills).usages && SettleAll(b, bills).usages[k] == b.usages[k]
    decreases |bills|
  {
    if bills != [] {
      SettlementRecords(b, bills[0]);
      RowsStay(Settle(b, bills[0]), bills[1..], k);
    }
  }

  /** Over any settlements, an order's usage row is the one of the first bill that names the voucher and the order. */
  lemma {:induction false} FirstBillIsRecorded(b: Books, bills: seq<Bill>, c: string, order: nat, i: nat)
    requires c != "" && c in b.vouchers && (c, order) !in b.usages
    requires i < |bills| && Names(bills[i], c, order) && forall j :: 0 <= j < i ==> !Names(bills[j], c, order)
    ensures (c, order) in SettleAll(b, bills).usages
    ensures SettleAll(b, bills).usages[(c, order)] == Usage(bills[i].user, Max(0, bills[i].discount))
    decreases |bills|
  {
    var b1 := Settle(b, bills[0]);
    SettlementRecords(b, bills[0]);
    if i == 0 {
      RowsStay(b1, bills[1..], (c, order));
    } else {
      assert !Names(bills[0], c, order) && bills[1..][i - 1] == bills[i];
      assert forall j :: 0 <= j < i - 1 ==> bills[1..][j] == bills[j + 1];
      FirstBillIsRecorded(b1, bills[1..], c, order, i - 1);
    }
  }

  /** The orders that some bill settles with a voucher. */
  function OrdersWith(bills: seq<Bill>, c: string): set<nat> {
    set i | 0 <= i < |bills| && bills[i].code == c :: bills[i].order
  }

  lemma {:induction false} OrdersWithFirst(bills: seq<Bill>, c: string)
    requires bills != []
    ensures OrdersWith(bills, c) == OrdersWith(bills[1..], c) + if bills[0].code == c then {bills[0].order} else {}
  {
    var tail := bills[1..];
    forall o | o in OrdersWith(bills, c)
      ensures o in OrdersWith(tail, c) || (bills[0].code == c && o == bills[0].order)
    {
      var i :| 0 <= i < |bills| && bills[i].code == c && bills[i].order == o;
      if i > 0 { assert tail[i - 1] == bills[i]; }
    }
    forall o | o in OrdersWith(tail, c) ensures o in OrdersWith(bills, c) {
      var i :| 0 <= i < |tail| && tail[i].code == c && tail[i].order == o;
      assert bills[i + 1] == tail[i];
    }
  }

  lemma UsersAfterOne(b: Books, bill: Bill, c: string)
    requires c != "" && c in b.vouchers
    ensures c in Settle(b, bill).vouchers
    ensures Users(Settle(b, bill), c) == Users(b, c) + if bill.code == c then {bill.order} else {}
  {
    SettlementRecords(b, bill);
    var b' := Settle(b, bill);
    forall o ensures o in Users(b', c) <==> o in Users(b, c) || (bill.code == c && o == bill.order) {
      assert o in Users(b', c) <==> (c, o) in b'.usages;
      assert o in Users(b, c) <==> (c, o) in b.usages;
    }
  }

  /** Over any settlements the orders with a usage row are exactly those that had one or were settled with the voucher. */
  lemma {:induction false} UsersAreSettledOrders(b: Books, bills: seq<Bill>, c: string)
    requires c != "" && c in b.vouchers
    ensures Users(SettleAll(b, bills), c) == Users(b, c) + OrdersWith(bills, c)
    decreases |bills|
  {
    if bills != [] {
      UsersAfterOne(b, bills[0], c);
      OrdersWithFirst(bills, c);
      UsersAreSettledOrders(Settle(b, bills[0]), bills[1..], c);
    }
  }

  // ---------- the operations ----------

  class Ledger {
    var stock: map<nat, int>
    var vouchers: map<string, VoucherRow>
    var usages: map<(string, nat), Usage>

    ghost function View(): Books
      reads this
    {
      Books(stock, vouchers, usages)
    }

    constructor (books: Books)
      ensures View() == books
    {
      stock, vouchers, usages := books.stock, books.vouchers, books.usages;
    }

    /** The voucher service's settlement. */
    method RecordUse(code: string, order: nat, user: Option<nat>, amount: int)
      modifies this
      ensures View() == UseVoucher(old(View()), code, order, user, amount)
    {
      if code == "" || amount < 0 {
        return;
      }
      if code !in vouchers {
        return;
      }
      if (code, order) in usages {
        return;
      }
      usages := usages[(code, order) := Usage(user, amount)];
      var row := vouchers[code];
      if row.usageLimit.None? || row.usedCount < row.usageLimit.value {
        vouchers := vouchers[code := row.(usedCount := row.usedCount + 1)];
      }
      assert vouchers == old(vouchers)[code := Counted(row)];
    }

    method SettleOrder(bill: Bill)
      modifies this
      ensures View() == Settle(old(View()), bill)
    {
      var i := 0;
      while i < |bill.lines|
        invariant i <= |bill.lines| && Take(stock, bill.lines[i..]) == Take(old(stock), bill.lines)
        invariant vouchers == old(vouchers) && usages == old(usages)
      {
        var it := bill.lines[i];
        assert bill.lines[i..][1..] == bill.lines[i + 1..];
        if it.variant.Some? {
          var v := it.variant.value;
          if v in stock {
            stock := stock[v := if stock[v] - it.qty > 0 then stock[v] - it.qty else 0];
          }
        }
        i := i + 1;
      }
      var amount := bill.discount;
      if amount < 0 {
        amount := 0;
      }
      RecordUse(bill.code, bill.order, bill.user, amount);
    }
  }
}
