/**
 Payments of one order: intents, provider webhooks, the customer's cancellation and the
 guarded status moves of administration and tracking, in any sequence.
 */
module Payments {
  import opened Orders

  datatype PaymentStatus = Pending | PaidUp | Failed | Lapsed

  /** A payment row; rows are kept oldest first, so the latest is the last. */
  datatype Payment = Payment(status: PaymentStatus, amount: int, expires: int)

  /** `settled` counts the settlements carried out for the order. */
  datatype State = State(order: OrderStatus, total: int, payments: seq<Payment>, settled: nat, clock: int)

  datatype Event =
    | Intent(amount: int, providerExpiry: int, ttl: int, at: int)
    | Webhook(status: string, amount: int, at: int)
    | CancelOrder(at: int)
    | Move(target: OrderStatus, at: int)

  const DEFAULT_TTL := 900

  function Normalise(status: string): PaymentStatus {
    if status in ["PAID", "SUCCESS", "SETTLED"] then PaidUp
    else if status in ["FAILED", "CANCELED", "DENY"] then Failed
    else if status == "EXPIRED" then Lapsed
    else Pending
  }

  predicate HasLatest(s: State) {
    s.payments != []
  }

  function Latest(s: State): Payment
    requires HasLatest(s)
  {
    s.payments[|s.payments| - 1]
  }

  /** A pending payment that can still be paid is reused instead of opening another. */
  predicate Open(p: Payment, at: int) {
    p.status.Pending? && p.expires > at
  }

  predicate NeedsNewPayment(s: State, amount: int, at: int) {
    && s.order.PendingPayment?
    && !(amount > 0 && amount != s.total)
    && (HasLatest(s) ==> !Latest(s).status.PaidUp? && !Open(Latest(s), at))
  }

  function IntentEffect(s: State, amount: int, providerExpiry: int, ttl: int, at: int): State {
    if !NeedsNewPayment(s, amount, at) then s
    else
      var expires := if providerExpiry > 0 then providerExpiry else at + if ttl <= 0 then DEFAULT_TTL else ttl;
      s.(payments := s.payments + [Payment(Pending, s.total, expires)])
  }

  function SetLatest(s: State, status: PaymentStatus): State
    requires HasLatest(s)
  {
    s.(payments := s.payments[|s.payments| - 1 := Latest(s).(status := status)])
  }

  function WebhookEffect(s: State, status: string, amount: int): State {
    if !HasLatest(s) || (amount > 0 && Latest(s).amount != amount) then s
    else
      var incoming := Normalise(status);
      var s' := SetLatest(s, incoming);
      if incoming.PaidUp? && !Latest(s).status.PaidUp? then s'.(order := Paid, settled := s.settled + 1)
      else if (incoming.Failed? || incoming.Lapsed?) && s.order.PendingPayment? then s'.(order := Canceled)
      else s'
  }

  function Next(s: State, e: Event): State {
    var s' := match e
      case Intent(amount, providerExpiry, ttl, at) => IntentEffect(s, amount, providerExpiry, ttl, at)
      case Webhook(status, amount, _) => WebhookEffect(s, status, amount)
      case CancelOrder(_) => if s.order.PendingPayment? then s.(order := Canceled) else s
      case Move(target, _) => s.(order := UpdateIfAllowed(s.order, target));
    s'.(clock := e.at)
  }

  /** Time does not go back. */
  predicate Enabled(s: State, e: Event) {
    s.clock <= e.at
  }

  predicate ValidRun(s: State, es: seq<Event>)
    decreases |es|
  {
    es == [] || (Enabled(s, es[0]) && ValidRun(Next(s, es[0]), es[1..]))
  }

  function Run(s: State, es: seq<Event>): State
    decreases |es|
  {
    if es == [] then s else Run(Next(s, es[0]), es[1..])
  }

  function Placed(total: int, clock: int): State {
    State(PendingPayment, total, [], 0, clock)
  }

  // ---------- uniqueness ----------

  /** The positions whose payment has been PAID at some time. */
  function Track(s: State, paid: set<nat>): set<nat> {
    if HasLatest(s) && Latest(s).status.PaidUp? then paid + {|s.payments| - 1} else paid
  }

  function EverPaid(s: State, es: seq<Event>, paid: set<nat>): set<nat>
    decreases |es|
  {
    if es == [] then paid else EverPaid(Next(s, es[0]), es[1..], Track(Next(s, es[0]), paid))
  }

  /**
   Superseded payments can no longer be paid, every amount is the order's total, and only the
   latest payment can have been PAID, in which case the order takes no more intents.
   */
  ghost predicate Sound(s: State, paid: set<nat>) {
    && (forall i :: 0 <= i < |s.payments| ==> s.payments[i].amount == s.total)
    && (forall i :: 0 <= i < |s.payments| - 1 ==> !s.payments[i].status.PaidUp? && !Open(s.payments[i], s.clock))
    && (forall i :: i in paid ==> i == |s.payments| - 1)
    && (paid != {} ==> !s.order.PendingPayment?)
    && (HasLatest(s) && Latest(s).status.PaidUp? ==> |s.payments| - 1 in paid)
  }

  lemma SoundStep(s: State, e: Event, paid: set<nat>)
    requires Enabled(s, e) && Sound(s, paid)
    ensures Sound(Next(s, e), Track(Next(s, e), paid)) && Next(s, e).total == s.total
  {
  }

  lemma {:induction false} AlwaysSound(s: State, es: seq<Event>, paid: set<nat>)
    requires ValidRun(s, es) && Sound(s, paid)
    ensures Sound(Run(s, es), EverPaid(s, es, paid)) && Run(s, es).total == s.total
    decreases |es|
  {
    if es != [] {
      SoundStep(s, es[0], paid);
      AlwaysSound(Next(s, es[0]), es[1..], Track(Next(s, es[0]), paid));
    }
  }

  /**
   Over every run of an order: at most one payment is open at any time from now on, every payment is
   for the order's total, and at most one payment has ever been PAID.
   */
  lemma PaymentUniqueness(total: int, clock: int, es: seq<Event>)
    requires ValidRun(Placed(total, clock), es)
    ensures var s := Run(Placed(total, clock), es);
            && (forall at, i, j | s.clock <= at && 0 <= i < |s.payments| && 0 <= j < |s.payments| ::
                  Open(s.payments[i], at) && Open(s.payments[j], at) ==> i == j)
            && (forall i :: 0 <= i < |s.payments| ==> s.payments[i].amount == total)
            && (forall i, j :: i in EverPaid(Placed(total, clock), es, {}) && j in EverPaid(Placed(total, clock), es, {}) ==> i == j)
  {
    AlwaysSound(Placed(total, clock), es, {});
    var s := Run(Placed(total, clock), es);
    forall at, i | s.clock <= at && 0 <= i < |s.payments| && Open(s.payments[i], at) ensures i == |s.payments| - 1 {
      assert Open(s.payments[i], s.clock);
    }
  }

  // ---------- settlements ----------

  predicate IsPaid(s: State) {
    HasLatest(s) && Latest(s).status.PaidUp?
  }

  /** How often the latest payment changes from not PAID to PAID. */
  function Rises(s: State, es: seq<Event>): nat
    decreases |es|
  {
    if es == [] then 0
    else (if !IsPaid(s) && IsPaid(Next(s, es[0])) then 1 else 0) + Rises(Next(s, es[0]), es[1..])
  }

  /** How often it changes back. */
  function Falls(s: State, es: seq<Event>): nat
    decreases |es|
  {
    if es == [] then 0
    else (if IsPaid(s) && !IsPaid(Next(s, es[0])) then 1 else 0) + Falls(Next(s, es[0]), es[1..])
  }

  lemma SettleStep(s: State, e: Event)
    ensures Next(s, e).settled == s.settled + if !IsPaid(s) && IsPaid(Next(s, e)) then 1 else 0
  {
  }

  /** Each settlement is one change to PAID; they outnumber the changes back by one exactly while the order's latest payment is PAID. */
  lemma {:induction false} SettlementBalance(s: State, es: seq<Event>)
    ensures Run(s, es).settled == s.settled + Rises(s, es)
    ensures Rises(s, es) + (if IsPaid(s) then 1 else 0) == Falls(s, es) + if IsPaid(Run(s, es)) then 1 else 0
    decreases |es|
  {
    if es != [] {
      SettleStep(s, es[0]);
      SettlementBalance(Next(s, es[0]), es[1..]);
    }
  }

  // ---------- settled at most once ----------

  /** Whether a notice or an intent for `amount` passes the amount check of an order of `total`. */
  predicate Fits(amount: int, total: int) {
    amount <= 0 || amount == total
  }

  /** An event that ends the time for a first intent. */
  predicate Closes(e: Event) {
    e.CancelOrder? || (e.Move? && (e.target.Paid? || e.target.Canceled?))
  }

  /**
   The statuses of the provider's notices that reach a payment, read off the events alone: those that fit
   the total and come after the first fitting intent, if that came while the order was still `waiting`.
   */
  function Notices(total: int, es: seq<Event>, waiting: bool, begun: bool): seq<PaymentStatus> {
    if es == [] then []
    else
      var e := es[0];
      var later := Notices(total, es[1..], waiting && !Closes(e), begun || (waiting && e.Intent? && Fits(e.amount, total)));
      if begun && e.Webhook? && Fits(e.amount, total) then [Normalise(e.status)] + later else later
  }

  /** PAID, then something else, then PAID again. */
  predicate PaidAgain(ns: seq<PaymentStatus>) {
    exists i, j, k :: 0 <= i < j < k < |ns| && ns[i].PaidUp? && !ns[j].PaidUp? && ns[k].PaidUp?
  }

  function RisesIn(paid: bool, ns: seq<PaymentStatus>): nat
    decreases |ns|
  {
    if ns == [] then 0 else (if !paid && ns[0].PaidUp? then 1 else 0) + RisesIn(ns[0].PaidUp?, ns[1..])
  }

  predicate LaterPaid(ns: seq<PaymentStatus>) {
    exists k :: 0 <= k < |ns| && ns[k].PaidUp?
  }

  predicate PaidBack(ns: seq<PaymentStatus>) {
    exists j, k :: 0 <= j < k < |ns| && !ns[j].PaidUp? && ns[k].PaidUp?
  }

  lemma {:induction false} NoRiseIff(ns: seq<PaymentStatus>)
    ensures RisesIn(false, ns) == 0 <==> !LaterPaid(ns)
    decreases |ns|
  {
    if ns != [] {
      NoRiseIff(ns[1..]);
      assert forall k :: 0 <= k < |ns[1..]| ==> ns[1..][k] == ns[k + 1];
      if LaterPaid(ns[1..]) {
        var k :| 0 <= k < |ns[1..]| && ns[1..][k].PaidUp?;
        assert ns[k + 1].PaidUp?;
      } else if !ns[0].PaidUp? {
        forall k | 0 <= k < |ns| ensures !ns[k].PaidUp? {
          if k > 0 { assert !ns[1..][k - 1].PaidUp?; }
        }
      }
    }
  }

  lemma {:induction false} NoSecondRiseIff(ns: seq<PaymentStatus>)
    ensures RisesIn(true, ns) == 0 <==> !PaidBack(ns)
    decreases |ns|
  {
    if ns != [] {
      var tail := ns[1..];
      NoSecondRiseIff(tail);
      NoRiseIff(tail);
      assert forall k :: 0 <= k < |tail| ==> tail[k] == ns[k + 1];
      if j, k :| 0 <= j < k < |tail| && !tail[j].PaidUp? && tail[k].PaidUp? {
        assert !ns[j + 1].PaidUp? && ns[k + 1].PaidUp?;
        assert LaterPaid(tail);
      } else if !ns[0].PaidUp? && LaterPaid(tail) {
        var k :| 0 <= k < |tail| && tail[k].PaidUp?;
        assert ns[k + 1].PaidUp?;
      } else {
        forall j, k | 0 <= j < k < |ns| && !ns[j].PaidUp? ensures !ns[k].PaidUp? {
          assert tail[k - 1] == ns[k] && (j > 0 ==> tail[j - 1] == ns[j]);
        }
      }
    }
  }

  /** One rise at most, exactly when PAID does not come back. */
  lemma {:induction false} OneRiseIff(ns: seq<PaymentStatus>)
    ensures RisesIn(false, ns) <= 1 <==> !PaidAgain(ns)
    decreases |ns|
  {
    if ns != [] {
      var tail := ns[1..];
      assert forall k :: 0 <= k < |tail| ==> tail[k] == ns[k + 1];
      if ns[0].PaidUp? {
        NoSecondRiseIff(tail);
        if PaidBack(tail) {
          var j, k :| 0 <= j < k < |tail| && !tail[j].PaidUp? && tail[k].PaidUp?;
          assert ns[0].PaidUp? && !ns[j + 1].PaidUp? && ns[k + 1].PaidUp?;
        } else {
          forall i, j, k | 0 <= i < j < k < |ns| && ns[i].PaidUp? && !ns[j].PaidUp? ensures !ns[k].PaidUp? {
            assert tail[j - 1] == ns[j] && tail[k - 1] == ns[k];
          }
        }
      } else {
        OneRiseIff(tail);
        if i, j, k :| 0 <= i < j < k < |tail| && tail[i].PaidUp? && !tail[j].PaidUp? && tail[k].PaidUp? {
          assert ns[i + 1].PaidUp? && !ns[j + 1].PaidUp? && ns[k + 1].PaidUp?;
        } else {
          forall i, j, k | 0 <= i < j < k < |ns| && ns[i].PaidUp? && !ns[j].PaidUp? ensures !ns[k].PaidUp? {
            assert tail[i - 1] == ns[i] && tail[j - 1] == ns[j] && tail[k - 1] == ns[k];
          }
        }
      }
    }
  }

  /** What the events alone determine: whether payments are for the total, and `waiting` says whether one may begin. */
  predicate Follows(s: State, waiting: bool) {
    && (forall i :: 0 <= i < |s.payments| ==> s.payments[i].amount == s.total)
    && (!HasLatest(s) ==> waiting == s.order.PendingPayment?)
  }

  predicate Hears(s: State, e: Event) {
    HasLatest(s) && e.Webhook? && Fits(e.amount, s.total)
  }

  lemma FollowsStep(s: State, e: Event, waiting: bool)
    requires Follows(s, waiting)
    ensures var s' := Next(s, e);
            && s'.total == s.total && Follows(s', waiting && !Closes(e))
            && (HasLatest(s') <==> HasLatest(s) || (waiting && e.Intent? && Fits(e.amount, s.total)))
            && (IsPaid(s') <==> if Hears(s, e) then Normalise(e.status).PaidUp? else IsPaid(s))
  {
  }

  /** The settlements of a run are the rises in the notices that the events alone determine. */
  lemma {:induction false} SettlementsAreHeard(s: State, es: seq<Event>, waiting: bool)
    requires Follows(s, waiting)
    ensures Run(s, es).settled == s.settled + RisesIn(IsPaid(s), Notices(s.total, es, waiting, HasLatest(s)))
    decreases |es|
  {
    if es != [] {
      var e := es[0];
      var waiting' := waiting && !Closes(e);
      SettleStep(s, e);
      FollowsStep(s, e, waiting);
      SettlementsAreHeard(Next(s, e), es[1..], waiting');
      if Hears(s, e) {
        RisesUnfold(IsPaid(s), Normalise(e.status), Notices(s.total, es[1..], waiting', true));
      }
    }
  }

  lemma RisesUnfold(paid: bool, n: PaymentStatus, ns: seq<PaymentStatus>)
    ensures RisesIn(paid, [n] + ns) == (if !paid && n.PaidUp? then 1 else 0) + RisesIn(n.PaidUp?, ns)
  {
    assert ([n] + ns)[1..] == ns;
  }

  /** An order is settled at most once exactly when its notices do not go from PAID to something else and back. */
  lemma SettledOnceIff(total: int, clock: int, es: seq<Event>)
    ensures Run(Placed(total, clock), es).settled <= 1 <==> !PaidAgain(Notices(total, es, true, false))
  {
    SettlementsAreHeard(Placed(total, clock), es, true);
    OneRiseIff(Notices(total, es, true, false));
  }

  const PAID_TWICE: seq<Event> := [
    Intent(0, 0, 0, 0), Webhook("PAID", 0, 1), Webhook("REFUNDED", 0, 2), Webhook("PAID", 0, 3)]

  /** A refund notice is read as PENDING, so a later PAID notice settles the same order again. */
  lemma RefundThenPaidSettlesTwice()
    ensures ValidRun(Placed(100, 0), PAID_TWICE) && Run(Placed(100, 0), PAID_TWICE).settled == 2
  {
    var s0 := Placed(100, 0);
    var s1 := Next(s0, PAID_TWICE[0]);
    assert s1.payments == [Payment(Pending, 100, 900)];
    assert Normalise("PAID") == PaidUp && Normalise("REFUNDED") == Pending;
    var s2 := Next(s1, PAID_TWICE[1]);
    assert s2 == State(Paid, 100, [Payment(PaidUp, 100, 900)], 1, 1);
    var s3 := Next(s2, PAID_TWICE[2]);
    assert s3 == State(Paid, 100, [Payment(Pending, 100, 900)], 1, 2);
    var s4 := Next(s3, PAID_TWICE[3]);
    assert PAID_TWICE[1..][1..] == PAID_TWICE[2..] && PAID_TWICE[2..][1..] == PAID_TWICE[3..] && PAID_TWICE[3..][1..] == [];
    RunUnfold(s3, PAID_TWICE[3..]);
    RunUnfold(s2, PAID_TWICE[2..]);
    RunUnfold(s1, PAID_TWICE[1..]);
    RunUnfold(s0, PAID_TWICE);
    assert Run(s4, []) == s4 && ValidRun(s4, []);
    assert ValidRun(s3, PAID_TWICE[3..]) && ValidRun(s2, PAID_TWICE[2..]) && ValidRun(s1, PAID_TWICE[1..]);
  }

  lemma RunUnfold(s: State, es: seq<Event>)
    requires es != []
    ensures Run(s, es) == Run(Next(s, es[0]), es[1..])
  {
  }

  // ---------- what one event does ----------

  /** The provider's words, and anything else. */
  lemma NormaliseTable(status: string)
    ensures Normalise(status).PaidUp? <==> status == "PAID" || status == "SUCCESS" || status == "SETTLED"
    ensures Normalise(status).Failed? <==> status == "FAILED" || status == "CANCELED" || status == "DENY"
    ensures Normalise(status).Lapsed? <==> status == "EXPIRED"
  {
  }

  predicate Failing(n: PaymentStatus) {
    n.Failed? || n.Lapsed?
  }

  /**
   A notice for another amount, or without a payment, does nothing. Any other sets the latest payment's status;
   a change to PAID settles the order and leaves it Paid, a failing notice leaves a pending order Canceled, and
   every other notice leaves the order as it was.
   */
  lemma NoticeDecides(s: State, status: string, amount: int, at: int)
    ensures var s' := Next(s, Webhook(status, amount, at));
            var n := Normalise(status);
            if !HasLatest(s) || !Fits(amount, Latest(s).amount) then s' == s.(clock := at)
            else
              && |s'.payments| == |s.payments| && s'.payments[..|s.payments| - 1] == s.payments[..|s.payments| - 1]
              && Latest(s') == Latest(s).(status := n)
              && (n.PaidUp? && !IsPaid(s) ==> s'.order.Paid? && s'.settled == s.settled + 1)
              && (Failing(n) && s.order.PendingPayment? ==> s'.order.Canceled? && s'.settled == s.settled)
              && (!(n.PaidUp? && !IsPaid(s)) && !(Failing(n) && s.order.PendingPayment?) ==>
                    s'.order == s.order && s'.settled == s.settled)
  {
  }

  /** A payment is wanted for a pending order and a fitting amount, unless the latest one is paid or can still be paid. */
  predicate Wanted(s: State, amount: int, at: int) {
    && s.order.PendingPayment? && Fits(amount, s.total)
    && (s.payments == [] ||
        var p := s.payments[|s.payments| - 1];
        p.status.Failed? || p.status.Lapsed? || (p.status.Pending? && p.expires <= at))
  }

  /**
   An intent adds a pending payment of the total exactly when one is wanted; it lapses when the provider says,
   else after the given time or fifteen minutes.
   */
  lemma IntentOpensPayment(s: State, amount: int, providerExpiry: int, ttl: int, at: int)
    ensures var s' := Next(s, Intent(amount, providerExpiry, ttl, at));
            && s'.order == s.order && s'.settled == s.settled
            && (!Wanted(s, amount, at) ==> s'.payments == s.payments)
            && (Wanted(s, amount, at) ==>
                  && |s'.payments| == |s.payments| + 1 && s'.payments[..|s.payments|] == s.payments
                  && Latest(s').status.Pending? && Latest(s').amount == s.total
                  && (providerExpiry > 0 ==> Latest(s').expires == providerExpiry)
                  && (providerExpiry <= 0 && ttl > 0 ==> Latest(s').expires == at + ttl)
                  && (providerExpiry <= 0 && ttl <= 0 ==> Latest(s').expires == at + 900))
  {
  }

  /** In every run, the order is Paid right after each settlement. */
  lemma SettlementLeavesPaid(s: State, e: Event)
    requires Next(s, e).settled != s.settled
    ensures Next(s, e).settled == s.settled + 1 && Next(s, e).order.Paid? && IsPaid(Next(s, e))
  {
  }

  predicate Reached(s: State, e: Event) {
    HasLatest(s) && e.Webhook? && Fits(e.amount, Latest(s).amount)
  }

  /** In every run, an order becomes Canceled exactly by a cancellation or a failing notice while it is pending, or by a guarded move. */
  lemma BecomesCanceledIff(s: State, e: Event)
    requires !s.order.Canceled?
    ensures Next(s, e).order.Canceled?
       <==> || (e.CancelOrder? && s.order.PendingPayment?)
            || (e.Move? && e.target.Canceled? && (s.order.PendingPayment? || s.order.Paid?))
            || (Reached(s, e) && Failing(Normalise(e.status)) && s.order.PendingPayment?)
  {
  }

  // ---------- the order from its notices ----------

  /** Only intents and notices: nobody cancels or moves the order by hand. */
  predicate Unattended(es: seq<Event>) {
    forall e :: e in es ==> e.Intent? || e.Webhook?
  }

  predicate LaterFails(ns: seq<PaymentStatus>) {
    exists k :: 0 <= k < |ns| && Failing(ns[k])
  }

  /** Where notices leave an order: PAID counts above all, then failure. */
  function Standing(ns: seq<PaymentStatus>): OrderStatus {
    if LaterPaid(ns) then Paid else if LaterFails(ns) then Canceled else PendingPayment
  }

  /** The same, notice by notice. */
  function Verdict(order: OrderStatus, paid: bool, ns: seq<PaymentStatus>): OrderStatus
    decreases |ns|
  {
    if ns == [] then order
    else
      Verdict(if ns[0].PaidUp? && !paid then Paid else if Failing(ns[0]) && order.PendingPayment? then Canceled else order,
              ns[0].PaidUp?, ns[1..])
  }

  lemma {:induction false} PaidStays(paid: bool, ns: seq<PaymentStatus>)
    ensures Verdict(Paid, paid, ns) == Paid
    decreases |ns|
  {
    if ns != [] {
      PaidStays(ns[0].PaidUp?, ns[1..]);
    }
  }

  lemma {:induction false} VerdictIs(order: OrderStatus, ns: seq<PaymentStatus>)
    requires order.PendingPayment? || order.Canceled?
    ensures Verdict(order, false, ns)
         == if LaterPaid(ns) then Paid else if LaterFails(ns) && order.PendingPayment? then Canceled else order
    decreases |ns|
  {
    if ns != [] {
      var tail := ns[1..];
      assert forall k :: 0 <= k < |tail| ==> tail[k] == ns[k + 1];
      assert forall k :: 0 < k < |ns| ==> ns[k] == tail[k - 1];
      if ns[0].PaidUp? {
        PaidStays(true, tail);
      } else {
        VerdictIs(if Failing(ns[0]) && order.PendingPayment? then Canceled else order, tail);
        assert LaterPaid(ns) <==> LaterPaid(tail) by {
          if LaterPaid(tail) { var k :| 0 <= k < |tail| && tail[k].PaidUp?; assert ns[k + 1].PaidUp?; }
        }
        assert LaterFails(ns) <==> Failing(ns[0]) || LaterFails(tail) by {
          if LaterFails(tail) { var k :| 0 <= k < |tail| && Failing(tail[k]); assert Failing(ns[k + 1]); }
        }
      }
    }
  }

  lemma OrderStep(s: State, e: Event, waiting: bool)
    requires Follows(s, waiting) && (e.Intent? || e.Webhook?) && (IsPaid(s) ==> s.order.Paid?)
    ensures var s' := Next(s, e);
            && (IsPaid(s') ==> s'.order.Paid?)
            && s'.order == if !Hears(s, e) then s.order
                           else if Normalise(e.status).PaidUp? && !IsPaid(s) then Paid
                           else if Failing(Normalise(e.status)) && s.order.PendingPayment? then Canceled else s.order
  {
  }

  lemma VerdictUnfold(order: OrderStatus, paid: bool, n: PaymentStatus, ns: seq<PaymentStatus>)
    ensures Verdict(order, paid, [n] + ns)
         == Verdict(if n.PaidUp? && !paid then Paid else if Failing(n) && order.PendingPayment? then Canceled else order, n.PaidUp?, ns)
  {
    assert ([n] + ns)[1..] == ns;
  }

  lemma {:induction false} OrderIsVerdict(s: State, es: seq<Event>, waiting: bool)
    requires Follows(s, waiting) && Unattended(es) && (IsPaid(s) ==> s.order.Paid?)
    ensures Run(s, es).order == Verdict(s.order, IsPaid(s), Notices(s.total, es, waiting, HasLatest(s)))
    decreases |es|
  {
    if es != [] {
      var e := es[0];
      assert e in es;
      FollowsStep(s, e, waiting);
      OrderStep(s, e, waiting);
      OrderIsVerdict(Next(s, e), es[1..], waiting && !Closes(e));
      if Hears(s, e) {
        VerdictUnfold(s.order, IsPaid(s), Normalise(e.status), Notices(s.total, es[1..], waiting && !Closes(e), true));
      }
    }
  }

  /**
   An order that only intents and notices touch is Paid exactly when a PAID notice reached its payment, whatever
   came before or after; else Canceled exactly when a failing one did; else still pending.
   */
  lemma OrderFollowsNotices(total: int, clock: int, es: seq<Event>)
    requires Unattended(es)
    ensures Run(Placed(total, clock), es).order == Standing(Notices(total, es, true, false))
  {
    OrderIsVerdict(Placed(total, clock), es, true);
    VerdictIs(PendingPayment, Notices(total, es, true, false));
  }

  // ---------- the operations ----------

  class OrderPayments {
    var order: OrderStatus
    const total: int
    var payments: seq<Payment>
    var settled: nat
    ghost var clock: int

    ghost function View(): State
      reads this
    {
      State(order, total, payments, settled, clock)
    }

    constructor (total: int, ghost now: int)
      ensures View() == Placed(total, now)
    {
      order, this.total, payments, settled, clock := PendingPayment, total, [], 0, now;
    }

    /** `ok` is false when the order or the amount does not allow a payment. */
    method CreateIntent(amount: int, providerExpiry: int, ttl: int, now: int) returns (ok: bool)
      modifies this
      ensures View() == Next(old(View()), Intent(amount, providerExpiry, ttl, now))
      ensures ok ==> HasLatest(View()) && Latest(View()).status.Pending?
      ensures ok <==> && old(order).PendingPayment? && !(amount > 0 && amount != total)
                      && (HasLatest(old(View())) ==> !Latest(old(View())).status.PaidUp?)
    {
      clock := now;
      if order != PendingPayment {
        return false;
      }
      if amount > 0 && amount != total {
        return false;
      }
      if |payments| > 0 {
        var existing := payments[|payments| - 1];
        if existing.status == PaidUp {
          return false;
        }
        if existing.status == Pending && existing.expires > now {
          return true;
        }
      }
      var expires := now + if ttl <= 0 then DEFAULT_TTL else ttl;
      if providerExpiry > 0 {
        expires := providerExpiry;
      }
      payments := payments + [Payment(Pending, total, expires)];
      return true;
    }

    method HandleWebhook(status: string, amount: int, now: int)
      modifies this
      ensures View() == Next(old(View()), Webhook(status, amount, now))
    {
      clock := now;
      if |payments| == 0 {
        return;
      }
      var payment := payments[|payments| - 1];
      if amount > 0 && payment.amount != amount {
        return;
      }
      var newStatus := Normalise(status);
      var shouldSettle := newStatus == PaidUp && payment.status != PaidUp;
      payments := payments[|payments| - 1 := payment.(status := newStatus)];
      match newStatus
      case PaidUp =>
        if shouldSettle {
          order := Paid;
          settled := settled + 1;
        }
      case Failed =>
        if order == PendingPayment {
          order := Canceled;
        }
      case Lapsed =>
        if order == PendingPayment {
          order := Canceled;
        }
      case Pending =>
    }
  }
}
