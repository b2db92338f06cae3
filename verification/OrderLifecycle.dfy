/** Payments and settlement together: what the whole history of an order's payments does to stock and vouchers. */
module OrderLifecycle {
  import opened Common
  import opened Payments
  import opened Settlement

  /** The books after a run of an order's payment events, settling `bill` whenever the order is settled. */
  function BooksAfter(s: State, es: seq<Event>, b: Books, bill: Bill): Books
    decreases |es|
  {
    if es == [] then b
    else
      var s' := Next(s, es[0]);
      BooksAfter(s', es[1..], if s'.settled > s.settled then Settle(b, bill) else b, bill)
  }

  function Copies(bill: Bill, n: nat): seq<Bill> {
    if n == 0 then [] else [bill] + Copies(bill, n - 1)
  }

  lemma {:induction false} BooksAreRepeatedSettlements(s: State, es: seq<Event>, b: Books, bill: Bill)
    ensures BooksAfter(s, es, b, bill) == SettleAll(b, Copies(bill, Rises(s, es)))
    decreases |es|
  {
    if es != [] {
      var s' := Next(s, es[0]);
      SettleStep(s, es[0]);
      if s'.settled > s.settled {
        var n := Rises(s, es);
        assert Copies(bill, n)[1..] == Copies(bill, n - 1);
        BooksAreRepeatedSettlements(s', es[1..], Settle(b, bill), bill);
      } else {
        BooksAreRepeatedSettlements(s', es[1..], b, bill);
      }
    }
  }

  lemma {:induction false} RepeatedStock(b: Books, bill: Bill, n: nat, v: nat)
    requires v in b.stock
    ensures var b' := SettleAll(b, Copies(bill, n));
            && v in b'.stock
            && b'.stock[v] == (if n == 0 || !Mentions(bill.lines, v) then b.stock[v]
                               else Max(0, b.stock[v] - n * Ordered(bill.lines, v)))
    decreases n
  {
    if n > 0 {
      assert Copies(bill, n)[1..] == Copies(bill, n - 1);
      StockAfter(b.stock, bill.lines, v);
      RepeatedStock(Settle(b, bill), bill, n - 1, v);
      var q := Ordered(bill.lines, v);
      assert n * q == (n - 1) * q + q && (n - 1) * q >= 0;
    }
  }

  lemma {:induction false} CopiesAreOfOrder(bill: Bill, n: nat)
    ensures |Copies(bill, n)| == n && forall i :: 0 <= i < n ==> Copies(bill, n)[i] == bill
  {
    if n > 0 { CopiesAreOfOrder(bill, n - 1); }
  }

  /**
   Over any run of an order's payments, each ordered variant loses its ordered quantity once per change of
   the payment to PAID, down to zero at least, other variants lose nothing, and the count of the order's
   voucher, if it has one, rises at most once.
   */
  lemma PaymentHistoryEffects(total: int, clock: int, es: seq<Event>, b: Books, bill: Bill, v: nat)
    requires v in b.stock
    ensures var s := Placed(total, clock);
            var b' := BooksAfter(s, es, b, bill);
            var n := Run(s, es).settled;
            && n == Rises(s, es)
            && v in b'.stock
            && b'.stock[v] == (if n == 0 || !Mentions(bill.lines, v) then b.stock[v]
                               else Max(0, b.stock[v] - n * Ordered(bill.lines, v)))
            && (bill.code in b.vouchers ==>
                  && bill.code in b'.vouchers
                  && b.vouchers[bill.code].usedCount <= b'.vouchers[bill.code].usedCount
                                                     <= b.vouchers[bill.code].usedCount + 1)
  {
    var s := Placed(total, clock);
    SettlementBalance(s, es);
    BooksAreRepeatedSettlements(s, es, b, bill);
    RepeatedStock(b, bill, Rises(s, es), v);
    CopiesAreOfOrder(bill, Rises(s, es));
    if bill.code in b.vouchers {
      RepeatedSettlementCountsOnce(b, Copies(bill, Rises(s, es)), bill.code, bill.order);
    }
  }
}
