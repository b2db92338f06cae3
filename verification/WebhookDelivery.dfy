/**
 The life of one webhook delivery: attempts, exponential backoff, dead-lettering and replay,
 with attempts on it not overlapping and store writes succeeding. Time is in seconds.
 */
module WebhookDelivery {
  import opened Common

  datatype Status = Pending | Delivering | Delivered | Failed | Dlq

  /** The delivery row with the number of dead-letter rows that point to it. */
  datatype State = State(status: Status, attempt: int, max: int, nextAt: Option<int>, dlqRows: nat, clock: int)

  const DEFAULT_BASE := 5
  const DEFAULT_MAX := 6

  datatype Event =
      // The queue worker's delivery by id.
    | Deliver(ok: bool, at: int)
      // One row of the polling batch.
    | Poll(ok: bool, at: int)
      // The process dies between marking the row and recording an outcome.
    | Stall(at: int)
    | Replay(at: int)

  function Base(backoffBaseSec: int): int {
    if backoffBaseSec <= 0 then DEFAULT_BASE else backoffBaseSec
  }

  /** `1 << attempt` in 64 bits, with results below one replaced by one. */
  function Factor(attempt: nat): int {
    if attempt <= 62 then Pow2(attempt) else 1
  }

  /** The delay computed in 64 bits. */
  function NextDelay(backoffBaseSec: int, attempt: nat): int {
    Wrap64(Base(backoffBaseSec) * Factor(attempt))
  }

  /** The delay as it is stored. */
  function StoredDelay(backoffBaseSec: int, attempt: nat): int {
    ToInt32(NextDelay(backoffBaseSec, attempt))
  }

  function Created(maxAttempts: int, at: int): State {
    State(Pending, 0, if maxAttempts <= 0 then DEFAULT_MAX else maxAttempts, Some(at), 0, at)
  }

  predicate Settled(s: State) {
    s.status.Delivered? || s.status.Dlq?
  }

  predicate Due(s: State, at: int) {
    s.nextAt.Some? ==> s.nextAt.value <= at
  }

  function Process(base: int, s: State, ok: bool, at: int): State
    requires s.attempt >= 0
  {
    if ok then s.(status := Delivered, nextAt := None)
    else if s.attempt + 1 >= s.max then s.(status := Dlq, nextAt := None, dlqRows := s.dlqRows + 1)
    else s.(status := Failed, attempt := s.attempt + 1, nextAt := Some(at + StoredDelay(base, s.attempt)))
  }

  /** Whether an event gets as far as sending the request. */
  predicate Fires(s: State, e: Event) {
    match e
    case Deliver(_, at) => !Settled(s) && Due(s, at)
    case Poll(_, at) => (s.status.Pending? || s.status.Failed?) && Due(s, at)
    case Stall(at) => !Settled(s) && Due(s, at)
    case Replay(_) => false
  }

  function Next(base: int, s: State, e: Event): State
    requires s.attempt >= 0
  {
    var s' := match e
      case Deliver(ok, at) => if Fires(s, e) then Process(base, s, ok, at) else s
      case Poll(ok, at) => if Fires(s, e) then Process(base, s, ok, at) else s
      case Stall(_) => if Fires(s, e) then s.(status := Delivering) else s
      case Replay(at) => s.(status := Pending, attempt := 0, nextAt := Some(at), dlqRows := 0);
    s'.(clock := e.at)
  }

  predicate ValidRun(base: int, s: State, es: seq<Event>)
    requires s.attempt >= 0
    decreases |es|
  {
    es == [] || (s.clock <= es[0].at && ValidRun(base, Next(base, s, es[0]), es[1..]))
  }

  function Run(base: int, s: State, es: seq<Event>): State
    requires s.attempt >= 0
    decreases |es|
  {
    if es == [] then s else Run(base, Next(base, s, es[0]), es[1..])
  }

  // ---------- lifecycle ----------

  predicate Sound(s: State) {
    && 0 <= s.attempt < s.max
    && s.dlqRows == (if s.status.Dlq? then 1 else 0)
  }

  lemma {:induction false} AlwaysSound(base: int, s: State, es: seq<Event>)
    requires Sound(s)
    ensures Sound(Run(base, s, es)) && Run(base, s, es).max == s.max
    decreases |es|
  {
    if es != [] {
      AlwaysSound(base, Next(base, s, es[0]), es[1..]);
    }
  }

  predicate HasReplay(es: seq<Event>) {
    exists e :: e in es && e.Replay?
  }

  /** Without a replay, a delivered or dead-lettered row never changes again. */
  lemma {:induction false} SettledIsFinal(base: int, s: State, es: seq<Event>)
    requires s.attempt >= 0 && Settled(s) && !HasReplay(es)
    ensures Run(base, s, es).(clock := s.clock) == s
    decreases |es|
  {
    if es != [] {
      assert es[0] in es && forall e :: e in es[1..] ==> e in es;
      SettledIsFinal(base, Next(base, s, es[0]), es[1..]);
    }
  }

  // ---------- spacing ----------

  /** When the current life of the delivery first recorded a failure, and when it was dead-lettered. */
  datatype History = History(first: Option<int>, dead: Option<int>)

  function Note(s: State, e: Event, h: History): History {
    if e.Replay? then History(None, None)
    else if (e.Deliver? || e.Poll?) && Fires(s, e) && !e.ok then
      if s.attempt + 1 >= s.max then h.(dead := Some(e.at))
      else if h.first.None? then h.(first := Some(e.at)) else h
    else h
  }

  function NoteAll(base: int, s: State, es: seq<Event>, h: History): History
    requires s.attempt >= 0
    decreases |es|
  {
    if es == [] then h else NoteAll(base, Next(base, s, es[0]), es[1..], Note(s, es[0], h))
  }

  /** Every backoff that a delivery with `max` attempts can reach fits in 32 bits. */
  predicate DelaysFit(base: int, max: int) {
    max >= 2 ==> Base(base) * Pow2(max - 2) < TWO_31
  }

  /** The least time from the first failure to the moment attempt `n` becomes due. */
  function Span(base: int, n: nat): int {
    Base(base) * (Pow2(n) - 1)
  }

  ghost predicate Spaced(base: int, s: State, h: History) {
    && (s.status.Dlq? <==> h.dead.Some?)
    && (s.status.Dlq? ==> s.attempt == s.max - 1)
    && (h.first.Some? <==> s.attempt > 0)
    && (!Settled(s) && s.attempt > 0 ==> s.nextAt.Some? && s.nextAt.value >= h.first.value + Span(base, s.attempt))
    && (s.status.Dlq? && s.attempt > 0 ==> h.dead.value >= h.first.value + Span(base, s.max - 1))
  }

  lemma SpanStep(base: int, n: nat)
    ensures Span(base, n + 1) == Span(base, n) + Base(base) * Pow2(n)
  {
    assert Pow2(n + 1) == 2 * Pow2(n);
    assert Base(base) * (2 * Pow2(n) - 1) == Base(base) * (Pow2(n) - 1) + Base(base) * Pow2(n);
  }

  lemma Pow2Of31()
    ensures Pow2(31) == TWO_31
  {
    assert Pow2(8) == 256;
    assert Pow2(16) == 65536 by { assert Pow2(12) == 4096; }
    assert Pow2(24) == 16777216 by { assert Pow2(20) == 1048576; }
    assert Pow2(28) == 268435456;
  }

  lemma ProductAtLeast(b: int, p: int)
    requires b >= 1 && p >= 1
    ensures b * p >= p
  {
    assert (b - 1) * p >= 0;
  }

  /** A delay below 2^31 has an attempt at which no shift has wrapped. */
  lemma FittingAttempt(base: int, attempt: nat)
    requires Base(base) * Pow2(attempt) < TWO_31
    ensures attempt < 31
  {
    if attempt >= 31 {
      Pow2Of31();
      Pow2Grows(31, attempt);
      ProductAtLeast(Base(base), Pow2(attempt));
    }
  }

  lemma FittingDelay(delay: int)
    requires 1 <= delay < TWO_31
    ensures ToInt32(Wrap64(delay)) == delay
  {
    Int32OfWrap64(delay);
    Int32Identity(delay);
  }

  /** The stored delay is base * 2^attempt exactly when that is below 2^31, and never longer. */
  lemma DelayExactIff(base: int, attempt: nat)
    ensures StoredDelay(base, attempt) == Base(base) * Pow2(attempt) <==> Base(base) * Pow2(attempt) < TWO_31
    ensures StoredDelay(base, attempt) <= Base(base) * Pow2(attempt)
  {
    if Base(base) * Pow2(attempt) < TWO_31 {
      FittingAttempt(base, attempt);
      Pow2Grows(0, attempt);
      ProductAtLeast(Base(base), Pow2(attempt));
      FittingDelay(Base(base) * Pow2(attempt));
    } else {
      Int32Range(NextDelay(base, attempt));
    }
  }

  lemma DelayIsExact(base: int, attempt: nat, max: int)
    requires DelaysFit(base, max) && attempt + 1 < max
    ensures StoredDelay(base, attempt) == Base(base) * Pow2(attempt) > 0
  {
    Pow2Grows(attempt, max - 2);
    ProductGrows(Base(base), Pow2(attempt), Pow2(max - 2));
    DelayExactIff(base, attempt);
  }

  lemma FailureKeepsSpacing(base: int, s: State, e: Event, h: History)
    requires Sound(s) && Spaced(base, s, h) && DelaysFit(base, s.max)
    requires (e.Deliver? || e.Poll?) && Fires(s, e) && !e.ok
    ensures Spaced(base, Next(base, s, e), Note(s, e, h))
  {
    if s.attempt + 1 < s.max {
      DelayIsExact(base, s.attempt, s.max);
      SpanStep(base, s.attempt);
      if s.attempt == 0 {
        assert Span(base, 1) == Base(base) * Pow2(0) by { SpanStep(base, 0); assert Span(base, 0) == 0; }
      }
    }
  }

  lemma {:induction false} AlwaysSpaced(base: int, s: State, es: seq<Event>, h: History)
    requires Sound(s) && ValidRun(base, s, es) && Spaced(base, s, h) && DelaysFit(base, s.max)
    ensures Spaced(base, Run(base, s, es), NoteAll(base, s, es, h))
    decreases |es|
  {
    if es != [] {
      var e := es[0];
      if (e.Deliver? || e.Poll?) && Fires(s, e) && !e.ok {
        FailureKeepsSpacing(base, s, e, h);
      }
      AlwaysSpaced(base, Next(base, s, e), es[1..], Note(s, e, h));
    }
  }

  const NO_HISTORY := History(None, None)

  /** Dead-lettering comes at least base * (2^(max-1) - 1) seconds after the first recorded failure. */
  predicate KeepsDistance(base: int, s: State, h: History) {
    s.status.Dlq? && s.max >= 2 ==>
      h.first.Some? && h.dead.Some? && h.dead.value - h.first.value >= Base(base) * (Pow2(s.max - 1) - 1)
  }

  /**
   In every run: the attempt number stays below the maximum, a dead-lettered delivery has exactly one
   dead-letter row and any other has none, and, if its delays fit, its attempts keep their distance.
   */
  lemma DeliveryLifecycle(base: int, maxAttempts: int, start: int, es: seq<Event>)
    requires ValidRun(base, Created(maxAttempts, start), es)
    ensures var s := Run(base, Created(maxAttempts, start), es);
            && 0 <= s.attempt < s.max && s.dlqRows == (if s.status.Dlq? then 1 else 0)
            && (DelaysFit(base, s.max) ==>
                  KeepsDistance(base, s, NoteAll(base, Created(maxAttempts, start), es, NO_HISTORY)))
  {
    var s := Created(maxAttempts, start);
    AlwaysSound(base, s, es);
    if DelaysFit(base, s.max) {
      AlwaysSpaced(base, s, es, NO_HISTORY);
    }
  }

  // ---------- delays that do not fit ----------

  function WakeTime(s: State): int {
    if s.nextAt.Some? then Max(s.clock, s.nextAt.value) else s.clock
  }

  /** Failed deliveries by id, each as soon as the row is due, until the attempts are used up. */
  function Eager(base: int, s: State): seq<Event>
    requires 0 <= s.attempt < s.max && !Settled(s)
    decreases s.max - s.attempt
  {
    var e := Deliver(false, WakeTime(s));
    [e] + if s.attempt + 1 >= s.max then [] else Eager(base, Next(base, s, e))
  }

  /** When that run dead-letters a row which is at attempt `n` of `max` at time `at`. */
  function DeathTime(base: int, n: nat, max: int, at: int): int
    decreases max - n
  {
    if n + 1 >= max then at else DeathTime(base, n + 1, max, at + Max(0, StoredDelay(base, n)))
  }

  lemma {:induction false} EagerRun(base: int, s: State, h: History)
    requires Sound(s) && !Settled(s) && (s.attempt > 0 ==> h.first.Some?)
    ensures ValidRun(base, s, Eager(base, s)) && Run(base, s, Eager(base, s)).status.Dlq?
    ensures var h' := NoteAll(base, s, Eager(base, s), h);
            && h'.dead == Some(DeathTime(base, s.attempt, s.max, WakeTime(s)))
            && (h.first.Some? ==> h'.first == h.first)
            && (h.first.None? && s.max >= 2 ==> h'.first == Some(WakeTime(s)))
    decreases s.max - s.attempt
  {
    var e := Deliver(false, WakeTime(s));
    var es, s' := Eager(base, s), Next(base, s, e);
    assert Fires(s, e) && es[0] == e;
    if s.attempt + 1 >= s.max {
      assert es[1..] == [];
    } else {
      assert es[1..] == Eager(base, s') && WakeTime(s') == WakeTime(s) + Max(0, StoredDelay(base, s.attempt));
      EagerRun(base, s', Note(s, e, h));
    }
  }

  /** Delays are never longer than intended, and the last one is shorter unless it fits. */
  lemma {:induction false} DiesEarly(base: int, n: nat, max: int, at: int)
    requires max >= 2 && n + 1 < max && !DelaysFit(base, max)
    ensures DeathTime(base, n, max, at) < at + Base(base) * (Pow2(max - 1) - Pow2(n))
    decreases max - n
  {
    Pow2Grows(0, n);
    ProductGrows(Base(base), 1, Pow2(n));
    DelayExactIff(base, n);
    var later := at + Max(0, StoredDelay(base, n));
    assert Pow2(n + 1) == 2 * Pow2(n);
    Distribute(Base(base), Pow2(max - 1), Pow2(n));
    if n + 2 < max {
      DiesEarly(base, n + 1, max, later);
    } else {
      assert DeathTime(base, n + 1, max, later) == later;
    }
  }

  lemma Distribute(b: int, p: int, q: int)
    ensures b * (p - q) == b * (p - 2 * q) + b * q
  {
  }

  ghost predicate AlwaysKeepsDistance(base: int, s: State)
    requires s.attempt >= 0
  {
    forall es :: ValidRun(base, s, es) ==> KeepsDistance(base, Run(base, s, es), NoteAll(base, s, es, NO_HISTORY))
  }

  /** Every run of a delivery keeps its distance exactly when its longest delay is below 2^31 seconds. */
  lemma DistanceKeptIff(base: int, maxAttempts: int, start: int)
    ensures AlwaysKeepsDistance(base, Created(maxAttempts, start))
       <==> DelaysFit(base, Created(maxAttempts, start).max)
  {
    var s := Created(maxAttempts, start);
    if DelaysFit(base, s.max) {
      forall es | ValidRun(base, s, es) ensures KeepsDistance(base, Run(base, s, es), NoteAll(base, s, es, NO_HISTORY)) {
        DeliveryLifecycle(base, maxAttempts, start, es);
        AlwaysSound(base, s, es);
      }
    } else {
      var es := Eager(base, s);
      EagerRun(base, s, NO_HISTORY);
      AlwaysSound(base, s, es);
      DiesEarly(base, 0, s.max, start);
      assert !KeepsDistance(base, Run(base, s, es), NoteAll(base, s, es, NO_HISTORY));
    }
  }

  /** With the default base the thirtieth delay wraps to a negative number. */
  lemma ThirtiethDelayWraps()
    ensures StoredDelay(0, 29) < 0
  {
    Pow2Of31();
    assert Pow2(31) == 2 * Pow2(30) == 4 * Pow2(29);
  }

  const WRAPPED: seq<Event> := [Deliver(false, 0), Deliver(false, 0)]

  /** A base of 2^31 seconds wraps on the first failure: a new delivery is tried twice and dead-lettered at once. */
  lemma LongBackoffWraps()
    ensures var s := Created(2, 0); ValidRun(TWO_31, s, WRAPPED)
    ensures var s := Run(TWO_31, Created(2, 0), WRAPPED); s.status.Dlq? && s.dlqRows == 1 && s.clock == 0
  {
    var s0 := Created(2, 0);
    assert StoredDelay(TWO_31, 0) == -TWO_31 by { assert Pow2(0) == 1; }
    var s1 := Next(TWO_31, s0, WRAPPED[0]);
    assert s1 == State(Failed, 1, 2, Some(-TWO_31), 0, 0);
    var s2 := Next(TWO_31, s1, WRAPPED[1]);
    assert WRAPPED[1..][1..] == [] && WRAPPED[1..][0] == WRAPPED[1];
    assert Run(TWO_31, s1, WRAPPED[1..]) == s2 && ValidRun(TWO_31, s1, WRAPPED[1..]);
  }

  // ---------- how a delivery ends ----------

  predicate Attempts(s: State, e: Event) {
    (e.Deliver? || e.Poll?) && Fires(s, e)
  }

  /**
   A successful attempt leaves the row DELIVERED; a failed one leaves it FAILED with one more attempt and due
   after the stored delay, or, at the last attempt, dead-lettered with one more dead-letter row. A replay makes it
   PENDING at attempt zero, due at once. No other event changes attempts, rows or due time.
   */
  lemma EventDecides(base: int, s: State, e: Event)
    requires s.attempt >= 0
    ensures var s' := Next(base, s, e);
            && (Attempts(s, e) && e.ok ==>
                  s'.status.Delivered? && s'.nextAt.None? && s'.attempt == s.attempt && s'.dlqRows == s.dlqRows)
            && (Attempts(s, e) && !e.ok && s.attempt + 1 < s.max ==>
                  && s'.status.Failed? && s'.attempt == s.attempt + 1 && s'.dlqRows == s.dlqRows
                  && s'.nextAt == Some(e.at + StoredDelay(base, s.attempt)))
            && (Attempts(s, e) && !e.ok && s.attempt + 1 >= s.max ==>
                  s'.status.Dlq? && s'.nextAt.None? && s'.attempt == s.attempt && s'.dlqRows == s.dlqRows + 1)
            && (e.Replay? ==> s'.status.Pending? && s'.attempt == 0 && s'.nextAt == Some(e.at) && s'.dlqRows == 0)
            && (!Attempts(s, e) && !e.Replay? ==>
                  s'.attempt == s.attempt && s'.nextAt == s.nextAt && s'.dlqRows == s.dlqRows
                  && (s'.status == s.status || (e.Stall? && !Settled(s) && s'.status.Delivering?)))
  {
  }

  /** Delivery by id sends for every row that is due and not settled, the poll only for pending and failed ones. */
  lemma AttemptsIff(s: State, e: Event)
    ensures Attempts(s, e)
       <==> && (s.nextAt.None? || s.nextAt.value <= e.at)
            && ((e.Deliver? && !s.status.Delivered? && !s.status.Dlq?) || (e.Poll? && (s.status.Pending? || s.status.Failed?)))
  {
  }

  /** The first delay is the base, five seconds unless given. */
  lemma FirstDelay(base: int)
    requires base < TWO_31
    ensures StoredDelay(base, 0) == if base > 0 then base else 5
  {
    assert Pow2(0) == 1;
    DelayExactIff(base, 0);
  }

  /** How the attempts since the last replay have ended, if they have. */
  datatype End = Going | Won | Lost

  function EndAfter(s: State, e: Event, end: End): End {
    if e.Replay? then Going
    else if !Attempts(s, e) then end
    else if e.ok then Won
    else if s.attempt + 1 >= s.max then Lost
    else end
  }

  function EndAfterAll(base: int, s: State, es: seq<Event>, end: End): End
    requires s.attempt >= 0
    decreases |es|
  {
    if es == [] then end else EndAfterAll(base, Next(base, s, es[0]), es[1..], EndAfter(s, es[0], end))
  }

  predicate Tells(s: State, end: End) {
    (s.status.Delivered? <==> end.Won?) && (s.status.Dlq? <==> end.Lost?)
  }

  lemma {:induction false} StatusTellsEnd(base: int, s: State, es: seq<Event>, end: End)
    requires s.attempt >= 0 && Tells(s, end)
    ensures Tells(Run(base, s, es), EndAfterAll(base, s, es, end))
    decreases |es|
  {
    if es != [] {
      StatusTellsEnd(base, Next(base, s, es[0]), es[1..], EndAfter(s, es[0], end));
    }
  }

  /**
   After every run a delivery is DELIVERED exactly when an attempt since the last replay was made and succeeded,
   and dead-lettered exactly when one failed at the last attempt number.
   */
  lemma DeliveredIff(base: int, maxAttempts: int, start: int, es: seq<Event>)
    ensures Tells(Run(base, Created(maxAttempts, start), es), EndAfterAll(base, Created(maxAttempts, start), es, Going))
  {
    StatusTellsEnd(base, Created(maxAttempts, start), es, Going);
  }

  // ---------- scheduling ----------

  /** Deliveries by endpoint and event; the table allows one per pair. */
  type Deliveries = map<(nat, nat), State>

  function ScheduleAll(d: Deliveries, endpoints: seq<nat>, event: nat, maxAttempts: int, at: int): Deliveries
    decreases |endpoints|
  {
    if endpoints == [] then d
    else
      var key := (endpoints[0], event);
      ScheduleAll(if key in d then d else d[key := Created(maxAttempts, at)], endpoints[1..], event, maxAttempts, at)
  }

  /** Scheduling gives every endpoint a delivery of the event and leaves existing deliveries as they are. */
  lemma {:induction false} ScheduleAdds(d: Deliveries, endpoints: seq<nat>, event: nat, maxAttempts: int, at: int)
    ensures var d' := ScheduleAll(d, endpoints, event, maxAttempts, at);
            && (forall k :: k in d ==> k in d' && d'[k] == d[k])
            && (forall k :: k in d' && k !in d ==>
                  && k.0 in endpoints && k.1 == event
                  && d'[k] == State(Pending, 0, if maxAttempts > 0 then maxAttempts else 6, Some(at), 0, at))
            && (forall ep :: ep in endpoints ==> (ep, event) in d')
    decreases |endpoints|
  {
    if endpoints != [] {
      var key := (endpoints[0], event);
      var d1 := if key in d then d else d[key := Created(maxAttempts, at)];
      ScheduleAdds(d1, endpoints[1..], event, maxAttempts, at);
      assert endpoints == [endpoints[0]] + endpoints[1..];
      assert key in d1;
    }
  }

  /** Scheduling the same event again adds nothing, whatever has happened to its deliveries since. */
  lemma {:induction false} RescheduleIsIdle(d: Deliveries, endpoints: seq<nat>, event: nat, maxAttempts: int, at: int)
    requires forall ep :: ep in endpoints ==> (ep, event) in d
    ensures ScheduleAll(d, endpoints, event, maxAttempts, at) == d
    decreases |endpoints|
  {
    if endpoints != [] {
      assert endpoints[0] in endpoints;
      RescheduleIsIdle(d, endpoints[1..], event, maxAttempts, at);
    }
  }

  // ---------- the operations ----------

  class Dispatcher {
    const backoffBaseSec: int
    const defaultMaxAttempts: int
    var deliveries: Deliveries

    constructor (backoffBaseSec: int, defaultMaxAttempts: int)
      ensures this.backoffBaseSec == backoffBaseSec && this.defaultMaxAttempts == defaultMaxAttempts
      ensures deliveries == map[]
    {
      this.backoffBaseSec, this.defaultMaxAttempts := backoffBaseSec, defaultMaxAttempts;
      deliveries := map[];
    }

    method Schedule(endpoints: seq<nat>, event: nat, now: int)
      modifies this
      ensures deliveries == ScheduleAll(old(deliveries), endpoints, event, defaultMaxAttempts, now)
    {
      var i := 0;
      while i < |endpoints|
        invariant i <= |endpoints|
        invariant ScheduleAll(deliveries, endpoints[i..], event, defaultMaxAttempts, now)
               == ScheduleAll(old(deliveries), endpoints, event, defaultMaxAttempts, now)
      {
        assert endpoints[i..][1..] == endpoints[i + 1..];
        var maxAttempt := defaultMaxAttempts;
        if maxAttempt <= 0 {
          maxAttempt := DEFAULT_MAX;
        }
        var key := (endpoints[i], event);
        i := i + 1;
        if key in deliveries {
          continue;
        }
        deliveries := deliveries[key := State(Pending, 0, maxAttempt, Some(now), 0, now)];
      }
    }

    /** Delivery by id with the request's outcome `ok`. */
    method DeliverById(key: (nat, nat), ok: bool, now: int)
      requires key in deliveries && Sound(deliveries[key])
      modifies this
      ensures deliveries == old(deliveries)[key := Next(backoffBaseSec, old(deliveries)[key], Deliver(ok, now))]
      ensures Sound(deliveries[key])
    {
      var del := deliveries[key].(clock := now);
      if del.status == Delivered || del.status == Dlq {
        deliveries := deliveries[key := del];
        return;
      }
      if del.nextAt.Some? && del.nextAt.value > now {
        deliveries := deliveries[key := del];
        return;
      }
      if ok {
        del := del.(status := Delivered, nextAt := None);
      } else if del.attempt + 1 >= del.max {
        del := del.(status := Dlq, nextAt := None, dlqRows := del.dlqRows + 1);
      } else {
        var delay := StoredDelay(backoffBaseSec, del.attempt);
        del := del.(status := Failed, attempt := del.attempt + 1, nextAt := Some(now + delay));
      }
      deliveries := deliveries[key := del];
    }
  }
}
