/** When the queue may hand a task out: not before its delay, not before its backoff, and again after its claim lapses. */
module QueueTiming {
  import opened Common
  import opened Queue
  import opened QueueIdempotency
  import opened QueueConservation
  import opened QueueDelivery

  predicate AllBefore(es: seq<Event>, time: int) {
    forall e :: e in es ==> e.at < time
  }

  /** A waiting document stays in the ready set through every run that ends before it is due. */
  lemma {:induction false} WaitsUntilDue(c: Config, s: State, es: seq<Event>, m: Message)
    requires ValidRun(c, s, es) && m in s.ready && s.ready[m] == m.availableAt && AllBefore(es, m.availableAt)
    ensures m in Run(c, s, es).ready && Run(c, s, es).ready[m] == m.availableAt
    decreases |es|
  {
    if es != [] {
      assert es[0] in es;
      WaitsUntilDue(c, Next(c, s, es[0]), es[1..], m);
    }
  }

  lemma StillWaiting(c: Config, s: State, e: Event, m: Message)
    requires Enabled(s, e) && m in s.ready && e.at < m.availableAt
    ensures m in Next(c, s, e).ready
  {
  }

  lemma NotYetHandedOut(s: State, e: Event, m: Message)
    requires Enabled(s, e) && Unique(s) && m in s.ready && m.key != "" && e.at < m.availableAt
    ensures !HandsOut(e, m.key)
  {
  }

  lemma KeyWaitsStep(c: Config, s: State, e: Event, m: Message)
    requires Enabled(s, e) && InTime(s, e) && Good(s) && Bounded(s)
    requires m in s.ready && m.key != "" && e.at < m.availableAt
    ensures !HandsOut(e, m.key) && m in Next(c, s, e).ready
    ensures Good(Next(c, s, e)) && Bounded(Next(c, s, e))
  {
    StillWaiting(c, s, e, m);
    NotYetHandedOut(s, e, m);
    GoodStep(c, s, e);
  }

  /** In time, the key of a waiting document is not handed out at all before the document is due. */
  lemma {:induction false} KeyWaitsUntilDue(c: Config, s: State, es: seq<Event>, m: Message)
    requires ValidRun(c, s, es) && AllInTime(c, s, es) && Good(s) && Bounded(s)
    requires m in s.ready && m.key != "" && AllBefore(es, m.availableAt)
    ensures Handed(c, s, es, m.key) == 0
    decreases |es|
  {
    if es != [] {
      assert es[0] in es;
      KeyWaitsStep(c, s, es[0], m);
      KeyWaitsUntilDue(c, Next(c, s, es[0]), es[1..], m);
    }
  }

  // ---------- a new task ----------

  /** The entry that a task asks for: its own limit, else the configured one, else ten. */
  predicate Fulfils(c: Config, m: Message, t: Task, at: int) {
    && m.key == t.key && m.payload == t.payload && m.lastError == ""
    && m.availableAt == at + t.delay && m.attempt == Max(0, t.attempt)
    && (t.maxAttempts > 0 ==> m.maxAttempts == t.maxAttempts)
    && (t.maxAttempts <= 0 && c.maxAttempts > 0 ==> m.maxAttempts == c.maxAttempts)
    && (t.maxAttempts <= 0 && c.maxAttempts <= 0 ==> m.maxAttempts == 10)
  }

  /**
   Enqueueing a task whose key is free leaves one entry for it in the ready set, scored by its due time, and
   holds its key; with its key held, nothing changes.
   */
  lemma EnqueueLeavesEntry(c: Config, s: State, t: Task, at: int) returns (m: Message)
    requires s.clock <= at
    ensures var s' := Next(c, s, Enqueue(t, at));
            && Fulfils(c, m, t, at)
            && (if t.key != "" && t.key in s.dedup then s' == s.(clock := at)
                else s' == s.(ready := s.ready[m := at + t.delay],
                              dedup := if t.key == "" then s.dedup else s.dedup + {t.key}, clock := at))
  {
    m := Admitted(c, t, at);
  }

  /** An accepted task waits out its delay in every run, whatever else happens in it. */
  lemma NewTaskWaitsItsDelay(c: Config, s: State, t: Task, at: int, es: seq<Event>) returns (m: Message)
    requires s.clock <= at && (t.key == "" || t.key !in s.dedup)
    requires ValidRun(c, Next(c, s, Enqueue(t, at)), es) && AllBefore(es, at + t.delay)
    ensures var s' := Run(c, Next(c, s, Enqueue(t, at)), es);
            Fulfils(c, m, t, at) && m in s'.ready && s'.ready[m] == at + t.delay
  {
    m := EnqueueLeavesEntry(c, s, t, at);
    WaitsUntilDue(c, Next(c, s, Enqueue(t, at)), es, m);
  }

  /** In time, no handler is started for an accepted key before its delay is over. */
  lemma NewKeyNotHandedOutEarly(c: Config, s: State, t: Task, at: int, es: seq<Event>)
    requires Good(s) && Bounded(s) && s.clock <= at && t.key != "" && t.key !in s.dedup
    requires var s' := Next(c, s, Enqueue(t, at)); ValidRun(c, s', es) && AllInTime(c, s', es)
    requires AllBefore(es, at + t.delay)
    ensures Handed(c, Next(c, s, Enqueue(t, at)), es, t.key) == 0
  {
    var m := EnqueueLeavesEntry(c, s, t, at);
    GoodStep(c, s, Enqueue(t, at));
    KeyWaitsUntilDue(c, Next(c, s, Enqueue(t, at)), es, m);
  }

  // ---------- a failed attempt ----------

  /** The entry a failed attempt is written back as: the same task and attempt, due after the backoff. */
  predicate WrittenBack(m: Message, back: Message, delay: int, cause: string, at: int) {
    Id(back) == Id(m) && back.attempt == m.attempt && back.lastError == cause && back.availableAt == at + delay
  }

  /**
   A failed attempt is written back exactly while attempts are left; then it waits out its backoff in every
   run. Otherwise its row, if it is stored, has its document, its attempts and the error.
   */
  lemma FailureIsWrittenBackOrBuried(c: Config, s: State, e: Event, es: seq<Event>) returns (back: Message)
    requires e.Fail? && Enabled(s, e) && ValidRun(c, Next(c, s, e), es) && AllBefore(es, e.at + e.delay)
    ensures var m := s.handlers[e.h].msg;
            var s' := Next(c, s, e);
            if 0 < m.maxAttempts <= m.attempt then
              && s'.ready == s.ready
              && s'.dlq == if e.stored then s.dlq[s.nextRow := Entry(m, m.attempt, e.cause)] else s.dlq
            else
              && s'.dlq == s.dlq && WrittenBack(m, back, e.delay, e.cause, e.at)
              && back in Run(c, s', es).ready && Run(c, s', es).ready[back] == e.at + e.delay
  {
    back := Retry(s.handlers[e.h].msg, e.delay, e.cause, e.at);
    if !Exhausted(s.handlers[e.h].msg) {
      WaitsUntilDue(c, Next(c, s, e), es, back);
    }
  }

  /** In time, a key whose attempt failed is not handed out again before its backoff is over. */
  lemma FailedKeyNotHandedOutEarly(c: Config, s: State, e: Event, es: seq<Event>)
    requires e.Fail? && Enabled(s, e) && InTime(s, e) && Good(s) && Bounded(s)
    requires s.handlers[e.h].msg.key != "" && !Exhausted(s.handlers[e.h].msg)
    requires ValidRun(c, Next(c, s, e), es) && AllInTime(c, Next(c, s, e), es) && AllBefore(es, e.at + e.delay)
    ensures Handed(c, Next(c, s, e), es, s.handlers[e.h].msg.key) == 0
  {
    GoodStep(c, s, e);
    KeyWaitsUntilDue(c, Next(c, s, e), es, Retry(s.handlers[e.h].msg, e.delay, e.cause, e.at));
  }

  // ---------- a lapsed claim ----------

  /**
   A claim can be swept exactly from the end of its visibility timeout, thirty seconds unless configured; the
   sweep makes the task due at that moment with the attempt it had reached.
   */
  lemma ClaimLapses(c: Config, s: State, head: Message, at: int, swept: int)
    requires Enabled(s, Pop(head, at)) && head.availableAt <= at && at <= swept
    ensures var m := head.(attempt := head.attempt + 1);
            var s' := Next(c, s, Pop(head, at));
            && (Enabled(s', Requeue(m, swept)) <==>
                  swept - at >= if c.visibilityTimeout > 0 then c.visibilityTimeout else 30_000_000_000)
            && (Enabled(s', Requeue(m, swept)) ==>
                  var s2 := Next(c, s', Requeue(m, swept));
                  m !in s2.processing && m.(availableAt := swept) in s2.ready && s2.ready[m.(availableAt := swept)] == swept)
  {
  }

  // ---------- handlers that stop ----------

  /** A crash ends every handler and an abandoned one ends alone; what is stored stays, to be swept when its claim lapses. */
  lemma StoppedHandlersLeaveStores(c: Config, s: State, e: Event)
    requires Enabled(s, e) && (e.Crash? || e.Abandon?)
    ensures Next(c, s, e).(handlers := s.handlers, clock := s.clock) == s
    ensures forall h :: h in Next(c, s, e).handlers <==> h in s.handlers && e.Abandon? && h != e.h
  {
  }
}
