/**
 Idempotency of the queue: a non-empty key is deduplicated exactly while one task
 with that key is in the ready or processing set, and there are never two.
 */
module QueueIdempotency {
  import opened Queue

  ghost predicate InReady(s: State, k: string) {
    exists m :: m in s.ready && m.key == k
  }

  ghost predicate InProcessing(s: State, k: string) {
    exists m :: m in s.processing && m.key == k
  }

  ghost predicate Live(s: State, k: string) {
    InReady(s, k) || InProcessing(s, k)
  }

  /** No two stored copies carry the same non-empty key. */
  ghost predicate Unique(s: State) {
    && (forall a, b :: a in s.ready && b in s.ready && a.key == b.key && a.key != "" ==> a == b)
    && (forall a, b :: a in s.processing && b in s.processing && a.key == b.key && a.key != "" ==> a == b)
    && (forall a, b :: a in s.ready && b in s.processing && a.key == b.key ==> a.key == "")
  }

  ghost predicate Idempotent(s: State) {
    && Unique(s)
    && forall k :: k != "" ==> (k in s.dedup <==> Live(s, k))
  }

  /**
   What an event must satisfy for it not to break idempotency. Finishing a handler
   is harmless while its entry is still in the processing set; once the entry has
   been swept, forgetting the key is harmless only if no other copy holds it, and
   writing a retry only if that very entry is already there. Losing a deduplication key is harmless only if it is unused.
   */
  predicate Harmless(s: State, e: Event)
    requires Enabled(s, e)
  {
    match e
    case Ack(h, _) =>
      var m := s.handlers[h].msg;
      m.key == "" || m in s.processing || m.key !in s.dedup
    case Fail(h, delay, cause, _, at) =>
      var m := s.handlers[h].msg;
      || m.key == ""
      || m in s.processing
      || (if Exhausted(m) then m.key !in s.dedup else Retry(m, delay, cause, at) in s.ready)
    case Expire(k, _) => k == "" || k !in s.dedup
    case _ => true
  }

  lemma EnqueueKeeps(c: Config, s: State, t: Task, at: int)
    requires Idempotent(s)
    ensures Idempotent(EnqueueEffect(c, s, t, at))
  {
    var s' := EnqueueEffect(c, s, t, at);
    if Accepts(s, t.key) {
      var m := Admitted(c, t, at);
      assert m in s'.ready && m.key == t.key;
      forall k | k != "" ensures k in s'.dedup <==> Live(s', k) {
        assert InProcessing(s', k) == InProcessing(s, k);
        if InReady(s, k) { var x :| x in s.ready && x.key == k; assert x in s'.ready; }
      }
    }
  }

  lemma ClaimKeeps(c: Config, s: State, head: Message, at: int)
    requires Idempotent(s) && head in s.ready && head.availableAt <= at
    ensures Idempotent(PopEffect(c, s, head, at))
  {
    var s' := PopEffect(c, s, head, at);
    assert head.(attempt := head.attempt + 1) in s'.processing;
    forall k | k != "" && k != head.key ensures Live(s, k) <==> Live(s', k) {
      if InReady(s, k) { var x :| x in s.ready && x.key == k; assert x in s'.ready; }
      if InProcessing(s, k) { var x :| x in s.processing && x.key == k; assert x in s'.processing; }
    }
  }

  lemma RequeueKeeps(s: State, m: Message, at: int)
    requires Idempotent(s) && m in s.processing
    ensures Idempotent(RequeueEffect(s, m, at))
  {
    var s' := RequeueEffect(s, m, at);
    assert m.(availableAt := at) in s'.ready;
    forall k | k != "" ensures Live(s, k) <==> Live(s', k) {
      if k != m.key {
        if InReady(s, k) { var x :| x in s.ready && x.key == k; assert x in s'.ready; }
        if InProcessing(s, k) { var x :| x in s.processing && x.key == k; assert x in s'.processing; }
      }
    }
  }

  /** Removing `m` from processing and forgetting its key, as ack and dead-lettering do. */
  lemma DropKeepsIff(s: State, s': State, m: Message)
    requires Idempotent(s)
    requires s'.ready == s.ready && s'.processing == s.processing - {m} && s'.dedup == Forget(s.dedup, m.key)
    ensures Idempotent(s') <==> m.key == "" || m in s.processing || m.key !in s.dedup
  {
    forall k | k != m.key ensures Live(s, k) <==> Live(s', k) {
      if InProcessing(s, k) { var x :| x in s.processing && x.key == k; assert x in s'.processing; }
    }
    if m.key != "" && m !in s.processing {
      assert s'.processing == s.processing;
      assert Live(s', m.key) <==> Live(s, m.key);
      assert m.key !in s'.dedup;
    }
  }

  lemma RetryKeepsIff(s: State, h: nat, delay: int, cause: string, stored: bool, at: int)
    requires Idempotent(s) && h in s.handlers && !Exhausted(s.handlers[h].msg)
    ensures Idempotent(FailEffect(s, h, delay, cause, stored, at))
       <==> || s.handlers[h].msg.key == ""
            || s.handlers[h].msg in s.processing
            || Retry(s.handlers[h].msg, delay, cause, at) in s.ready
  {
    var m := s.handlers[h].msg;
    var s' := FailEffect(s, h, delay, cause, stored, at);
    var retry := Retry(m, delay, cause, at);
    assert retry in s'.ready && retry.key == m.key;
    forall k | k != m.key ensures Live(s, k) <==> Live(s', k) {
      if InReady(s, k) { var x :| x in s.ready && x.key == k; assert x in s'.ready; }
      if InProcessing(s, k) { var x :| x in s.processing && x.key == k; assert x in s'.processing; }
    }
    if m.key != "" && m !in s.processing {
      assert s'.processing == s.processing;
      if retry in s.ready {
        assert s'.ready.Keys == s.ready.Keys;
        assert Live(s, m.key) && Live(s', m.key);
      } else if InReady(s, m.key) {
        var x :| x in s.ready && x.key == m.key;
        assert x in s'.ready && x != retry;
      } else {
        assert m.key in s.dedup <==> InProcessing(s, m.key);
        assert InReady(s', m.key);
      }
    }
  }

  /** Every event keeps idempotency exactly when it is harmless. */
  lemma StepKeepsIff(c: Config, s: State, e: Event)
    requires Idempotent(s) && Enabled(s, e)
    ensures Idempotent(Next(c, s, e)) <==> Harmless(s, e)
  {
    var s' := Next(c, s, e);
    match e
    case Enqueue(t, at) =>
      EnqueueKeeps(c, s, t, at);
      SameStores(EnqueueEffect(c, s, t, at), s');
    case Pop(head, at) =>
      if head.availableAt <= at {
        ClaimKeeps(c, s, head, at);
        SameStores(PopEffect(c, s, head, at), s');
      } else {
        SameStores(s, s');
      }
    case Ack(h, _) =>
      DropKeepsIff(s, s', s.handlers[h].msg);
    case Fail(h, delay, cause, stored, at) =>
      if Exhausted(s.handlers[h].msg) {
        DropKeepsIff(s, s', s.handlers[h].msg);
      } else {
        RetryKeepsIff(s, h, delay, cause, stored, at);
        SameStores(FailEffect(s, h, delay, cause, stored, at), s');
      }
    case Abandon(h, _) => SameStores(s, s');
    case Requeue(m, at) =>
      RequeueKeeps(s, m, at);
      SameStores(RequeueEffect(s, m, at), s');
    case Crash(_) => SameStores(s, s');
    case Replay(row, at) =>
      if row in s.dlq {
        EnqueueKeeps(c, s, Revived(s.dlq[row]), at);
        SameStores(EnqueueEffect(c, s, Revived(s.dlq[row]), at), s');
      } else {
        SameStores(s, s');
      }
    case Expire(k, _) =>
      assert forall x :: Live(s, x) == Live(s', x);
  }

  /** Scores do not matter to idempotency. */
  lemma SameStores(a: State, b: State)
    requires a.ready.Keys == b.ready.Keys && a.processing.Keys == b.processing.Keys && a.dedup == b.dedup
    ensures Idempotent(a) == Idempotent(b)
  {
    assert forall m :: (m in a.ready <==> m in b.ready) && (m in a.processing <==> m in b.processing);
    assert forall k :: Live(a, k) == Live(b, k);
  }

  // ---------- whole runs ----------

  ghost predicate AlwaysIdempotent(c: Config, s: State, es: seq<Event>)
    requires ValidRun(c, s, es)
    decreases |es|
  {
    Idempotent(s) && (es != [] ==> AlwaysIdempotent(c, Next(c, s, es[0]), es[1..]))
  }

  predicate AllHarmless(c: Config, s: State, es: seq<Event>)
    requires ValidRun(c, s, es)
    decreases |es|
  {
    es == [] || (Harmless(s, es[0]) && AllHarmless(c, Next(c, s, es[0]), es[1..]))
  }

  /** A run is idempotent throughout exactly when none of its events is harmful where it happens. */
  lemma {:induction false} RunIdempotentIff(c: Config, s: State, es: seq<Event>)
    requires ValidRun(c, s, es) && Idempotent(s)
    ensures AlwaysIdempotent(c, s, es) <==> AllHarmless(c, s, es)
    decreases |es|
  {
    if es != [] {
      var s' := Next(c, s, es[0]);
      StepKeepsIff(c, s, es[0]);
      if Idempotent(s') {
        RunIdempotentIff(c, s', es[1..]);
      } else {
        assert !AlwaysIdempotent(c, s', es[1..]);
      }
    }
  }

  /** Handler effects land before the visibility deadline and deduplication keys outlive the run. */
  predicate InTime(s: State, e: Event)
    requires Enabled(s, e)
  {
    match e
    case Ack(h, at) => at < s.handlers[h].deadline
    case Fail(h, _, _, _, at) => at < s.handlers[h].deadline
    case Expire(_, _) => false
    case _ => true
  }

  predicate AllInTime(c: Config, s: State, es: seq<Event>)
    requires ValidRun(c, s, es)
    decreases |es|
  {
    es == [] || (InTime(s, es[0]) && AllInTime(c, Next(c, s, es[0]), es[1..]))
  }

  /**
   A keyed handler whose deadline has not passed still owns its processing entry,
   and no other such handler has its key.
   */
  ghost predicate HandlersHold(s: State) {
    && (forall h :: h in s.handlers ==> h < s.nextHandler)
    && (forall h :: h in s.handlers && s.handlers[h].msg.key != "" && s.clock < s.handlers[h].deadline ==>
          var m := s.handlers[h].msg; m in s.processing && s.processing[m] == s.handlers[h].deadline)
    && (forall g, h :: g in s.handlers && h in s.handlers && g != h && s.handlers[g].msg.key != ""
                       && s.handlers[g].msg.key == s.handlers[h].msg.key ==>
          s.handlers[g].deadline <= s.clock || s.handlers[h].deadline <= s.clock)
  }

  /** Handlers may go and unswept entries stay as time passes. */
  lemma HoldWhileUnswept(s: State, s': State)
    requires HandlersHold(s) && s.clock <= s'.clock && s'.nextHandler == s.nextHandler
    requires s'.handlers.Keys <= s.handlers.Keys && forall h :: h in s'.handlers ==> s'.handlers[h] == s.handlers[h]
    requires forall h :: h in s'.handlers && s'.handlers[h].msg in s.processing && s'.clock < s'.handlers[h].deadline
                         && s'.handlers[h].msg.key != "" ==>
               var m := s'.handlers[h].msg; m in s'.processing && s'.processing[m] == s.processing[m]
    ensures HandlersHold(s')
  {
  }

  /** While a key waits in the ready set, no handler of it has time left. */
  lemma RivalsLapsed(s: State, head: Message)
    requires HandlersHold(s) && Unique(s) && head in s.ready
    ensures forall h :: h in s.handlers && s.handlers[h].msg.key != "" && s.handlers[h].msg.key == head.key ==>
              s.handlers[h].deadline <= s.clock
  {
  }

  lemma HoldOnClaim(c: Config, s: State, head: Message, at: int)
    requires HandlersHold(s) && head in s.ready && head.availableAt <= at && s.clock <= at
    requires forall h :: h in s.handlers && s.handlers[h].msg.key != "" && s.handlers[h].msg.key == head.key ==>
               s.handlers[h].deadline <= s.clock
    ensures HandlersHold(PopEffect(c, s, head, at).(clock := at))
  {
    var s' := PopEffect(c, s, head, at).(clock := at);
    assert forall h :: h in s'.handlers ==> h == s.nextHandler || (h in s.handlers && s'.handlers[h] == s.handlers[h]);
  }

  lemma HoldOnFinish(s: State, s': State, h: nat)
    requires HandlersHold(s) && h in s.handlers && s.clock <= s'.clock < s.handlers[h].deadline
    requires s'.handlers == s.handlers - {h} && s'.nextHandler == s.nextHandler
    requires s'.processing == s.processing - {s.handlers[h].msg}
    ensures s.handlers[h].msg.key == "" || s.handlers[h].msg in s.processing
    ensures HandlersHold(s')
  {
    HoldWhileUnswept(s, s');
  }

  lemma HoldOnRequeue(s: State, m: Message, at: int)
    requires HandlersHold(s) && m in s.processing && s.processing[m] <= at && s.clock <= at
    ensures HandlersHold(RequeueEffect(s, m, at).(clock := at))
  {
    HoldWhileUnswept(s, RequeueEffect(s, m, at).(clock := at));
  }

  lemma HandlersHoldStep(c: Config, s: State, e: Event)
    requires Enabled(s, e) && InTime(s, e) && Unique(s) && HandlersHold(s)
    ensures Harmless(s, e) && HandlersHold(Next(c, s, e))
  {
    var s' := Next(c, s, e);
    match e
    case Pop(head, at) =>
      if head.availableAt <= at { RivalsLapsed(s, head); HoldOnClaim(c, s, head, at); } else { HoldWhileUnswept(s, s'); }
    case Ack(h, _) => HoldOnFinish(s, s', h);
    case Fail(h, _, _, _, _) => HoldOnFinish(s, s', h);
    case Requeue(m, at) => HoldOnRequeue(s, m, at);
    case _ => HoldWhileUnswept(s, s');
  }

  lemma InTimeOwns(s: State, h: nat, at: int)
    requires HandlersHold(s) && h in s.handlers && s.clock <= at < s.handlers[h].deadline
    ensures s.handlers[h].msg.key == "" || s.handlers[h].msg in s.processing
  {
  }

  lemma {:induction false} InTimeRunIsHarmless(c: Config, s: State, es: seq<Event>)
    requires ValidRun(c, s, es) && AllInTime(c, s, es) && Idempotent(s) && HandlersHold(s)
    ensures AllHarmless(c, s, es)
    ensures Idempotent(Run(c, s, es)) && HandlersHold(Run(c, s, es))
    decreases |es|
  {
    if es != [] {
      HandlersHoldStep(c, s, es[0]);
      StepKeepsIff(c, s, es[0]);
      InTimeRunIsHarmless(c, Next(c, s, es[0]), es[1..]);
    }
  }

  /** Every run from an empty queue that stays in time is idempotent at every point. */
  lemma InTimeRunIsIdempotent(c: Config, clock: int, es: seq<Event>)
    requires ValidRun(c, Empty(clock), es) && AllInTime(c, Empty(clock), es)
    ensures AlwaysIdempotent(c, Empty(clock), es)
  {
    InTimeRunIsHarmless(c, Empty(clock), es);
    RunIdempotentIff(c, Empty(clock), es);
  }

  /**
   Replaying a dead-letter row of an idempotent queue puts its task back in the ready set, due at once
   and one attempt short of the one it died on, or its key already has a task in one of the sets.
   */
  lemma ReplayRevivesOrIsLive(c: Config, s: State, row: nat, at: int)
    requires Idempotent(s) && row in s.dlq
    ensures row !in ReplayEffect(c, s, row, at).dlq
    ensures var m := s.dlq[row].payload;
            var s' := ReplayEffect(c, s, row, at);
            if m.key != "" && Live(s, m.key) then s'.ready == s.ready && Live(s', m.key)
            else exists back :: && back in s'.ready && back.key == m.key && back.payload == m.payload
                                && back.availableAt == at && (m.attempt >= 1 ==> back.attempt == m.attempt - 1)
                                && (m.maxAttempts >= 1 ==> back.maxAttempts == m.maxAttempts)
  {
    var m := s.dlq[row].payload;
    var s' := ReplayEffect(c, s, row, at);
    if m.key != "" && Live(s, m.key) {
      assert InReady(s, m.key) ==> InReady(s', m.key);
      assert InProcessing(s, m.key) ==> InProcessing(s', m.key);
    } else {
      assert Admitted(c, Revived(s.dlq[row]), at) in s'.ready;
    }
  }

  const SLOW_RUN: seq<Event> := [
    Enqueue(Task("k", "p", 3, 0, 0), 0),
    Pop(Message("k", "p", 0, 3, 0, ""), 0),
    Requeue(Message("k", "p", 1, 3, 0, ""), 10),
    Fail(0, 5, "boom", true, 11)]

  /** A handler that fails after its entry was swept leaves two ready copies of one key. */
  lemma OverrunDuplicates()
    ensures ValidRun(Config(10, 0), Empty(0), SLOW_RUN)
    ensures !AllHarmless(Config(10, 0), Empty(0), SLOW_RUN)
    ensures Run(Config(10, 0), Empty(0), SLOW_RUN).ready.Keys
         == {Message("k", "p", 1, 3, 10, ""), Message("k", "p", 1, 3, 16, "boom")}
  {
    var c := Config(10, 0);
    var m0 := Message("k", "p", 0, 3, 0, "");
    var m1 := Message("k", "p", 1, 3, 0, "");
    var s0 := Empty(0);
    var s1 := Next(c, s0, SLOW_RUN[0]);
    assert s1.ready == map[m0 := 0];
    var s2 := Next(c, s1, SLOW_RUN[1]);
    assert s2.ready == map[] && s2.processing == map[m1 := 10] && s2.handlers == map[0 := Handler(m1, 10)];
    var s3 := Next(c, s2, SLOW_RUN[2]);
    assert s3.processing == map[] && s3.ready == map[m1.(availableAt := 10) := 10];
    var s4 := Next(c, s3, SLOW_RUN[3]);
    assert SLOW_RUN[1..][1..] == SLOW_RUN[2..] && SLOW_RUN[2..][1..] == SLOW_RUN[3..] && SLOW_RUN[3..][1..] == [];
    assert ValidRun(c, s4, []) && ValidRun(c, s3, SLOW_RUN[3..]) && ValidRun(c, s2, SLOW_RUN[2..]);
    assert ValidRun(c, s1, SLOW_RUN[1..]);
    assert !AllHarmless(c, s3, SLOW_RUN[3..]) && !AllHarmless(c, s2, SLOW_RUN[2..]);
    assert Run(c, s3, SLOW_RUN[3..]) == s4 && Run(c, s2, SLOW_RUN[2..]) == s4 && Run(c, s1, SLOW_RUN[1..]) == s4;
  }
}
