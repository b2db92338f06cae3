/**
 The Redis lease lock: acquisition by SET-if-absent with a time to live, callbacks
 that may outlive their lease, and release by compare-and-delete on a fresh token.
 */
module LeaseLock {

  const DEFAULT_TTL := 30_000_000_000

  datatype Entry = Absent | Held(token: nat, expires: int)

  /** The key is gone once its time to live has run out. */
  predicate Free(e: Entry, at: int) {
    e.Held? ==> e.expires <= at
  }

  function Lease(ttl: int, at: int): int {
    at + if ttl <= 0 then DEFAULT_TTL else ttl
  }

  function SetNX(e: Entry, token: nat, ttl: int, at: int): Entry {
    if Free(e, at) then Held(token, Lease(ttl, at)) else e
  }

  function CompareAndDelete(e: Entry, token: nat, at: int): Entry {
    if !Free(e, at) && e.token != token then e else Absent
  }

  datatype Phase =
    | Trying
      // In the callback.
    | Inside(lease: int)
      // The callback has returned; the release has not reached Redis yet.
    | Leaving(lease: int)
      // The process died holding the lock: no release will come.
    | Crashed(lease: int)
    | Left

  /** A call of `WithLock` is named by the fresh token it draws. */
  datatype State = State(entry: Entry, calls: map<nat, Phase>, ttls: map<nat, int>, clock: int)

  datatype Event =
    | Begin(id: nat, ttl: int, at: int)
    | Try(id: nat, at: int)
    | GiveUp(id: nat, at: int)
    | Return(id: nat, at: int)
    | Release(id: nat, at: int)
    | Crash(id: nat, at: int)

  predicate Enabled(s: State, e: Event) {
    && s.clock <= e.at
    && match e
       case Begin(id, _, _) => id !in s.calls
       case Try(id, _) => id in s.calls && id in s.ttls && s.calls[id].Trying?
       case GiveUp(id, _) => id in s.calls && s.calls[id].Trying?
       case Return(id, _) => id in s.calls && s.calls[id].Inside?
       case Release(id, _) => id in s.calls && s.calls[id].Leaving?
       case Crash(id, _) => id in s.calls && (s.calls[id].Inside? || s.calls[id].Leaving?)
  }

  function Next(s: State, e: Event): State
    requires Enabled(s, e)
  {
    var s' := match e
      case Begin(id, ttl, _) => s.(calls := s.calls[id := Trying], ttls := s.ttls[id := ttl])
      case Try(id, at) =>
        if Free(s.entry, at)
        then s.(entry := SetNX(s.entry, id, s.ttls[id], at), calls := s.calls[id := Inside(Lease(s.ttls[id], at))])
        else s
      case GiveUp(id, _) => s.(calls := s.calls[id := Left])
      case Return(id, _) => s.(calls := s.calls[id := Leaving(s.calls[id].lease)])
      case Release(id, at) => s.(entry := CompareAndDelete(s.entry, id, at), calls := s.calls[id := Left])
      case Crash(id, _) => s.(calls := s.calls[id := Crashed(s.calls[id].lease)]);
    s'.(clock := e.at)
  }

  predicate ValidRun(s: State, es: seq<Event>)
    decreases |es|
  {
    es == [] || (Enabled(s, es[0]) && ValidRun(Next(s, es[0]), es[1..]))
  }

  function Run(s: State, es: seq<Event>): State
    requires ValidRun(s, es)
    decreases |es|
  {
    if es == [] then s else Run(Next(s, es[0]), es[1..])
  }

  function Initial(clock: int): State {
    State(Absent, map[], map[], clock)
  }

  predicate Owns(s: State, id: nat) {
    id in s.calls && (s.calls[id].Inside? || s.calls[id].Leaving? || s.calls[id].Crashed?)
  }

  /** `id` took the lock and its lease is still running at time `at`. */
  predicate LeaseRuns(s: State, id: nat, at: int) {
    Owns(s, id) && at < s.calls[id].lease
  }

  /** A running lease is the one in Redis, and what is in Redis is some call's lease. */
  ghost predicate Safe(s: State) {
    && (forall id :: LeaseRuns(s, id, s.clock) ==> s.entry == Held(id, s.calls[id].lease))
    && (s.entry.Held? && !Free(s.entry, s.clock) ==>
          Owns(s, s.entry.token) && s.calls[s.entry.token].lease == s.entry.expires)
  }

  lemma SafeStep(s: State, e: Event)
    requires Enabled(s, e) && Safe(s)
    ensures Safe(Next(s, e))
  {
  }

  lemma {:induction false} AlwaysSafe(s: State, es: seq<Event>)
    requires ValidRun(s, es) && Safe(s)
    ensures Safe(Run(s, es))
    decreases |es|
  {
    if es != [] {
      SafeStep(s, es[0]);
      AlwaysSafe(Next(s, es[0]), es[1..]);
    }
  }

  /** In every interleaving at most one call with a running lease is in its callback. */
  lemma MutualExclusion(clock: int, es: seq<Event>, a: nat, b: nat)
    requires ValidRun(Initial(clock), es)
    requires var s := Run(Initial(clock), es);
             && a in s.calls && s.calls[a].Inside? && s.clock < s.calls[a].lease
             && b in s.calls && s.calls[b].Inside? && s.clock < s.calls[b].lease
    ensures a == b
  {
    AlwaysSafe(Initial(clock), es);
    var s := Run(Initial(clock), es);
    assert LeaseRuns(s, a, s.clock) && LeaseRuns(s, b, s.clock);
  }

  /** A release, however late, never takes the lock from another call whose lease is running. */
  lemma LateReleaseIsHarmless(clock: int, es: seq<Event>, id: nat, other: nat, at: int)
    requires ValidRun(Initial(clock), es)
    requires var s := Run(Initial(clock), es);
             Enabled(s, Release(id, at)) && other != id && LeaseRuns(s, other, at)
    ensures Next(Run(Initial(clock), es), Release(id, at)).entry == Run(Initial(clock), es).entry
    ensures Run(Initial(clock), es).entry.Held? && Run(Initial(clock), es).entry.token == other
  {
    AlwaysSafe(Initial(clock), es);
    assert LeaseRuns(Run(Initial(clock), es), other, Run(Initial(clock), es).clock);
  }

  lemma FreeIff(s: State, at: int)
    requires Safe(s) && s.clock <= at
    ensures Free(s.entry, at) <==> !exists id :: LeaseRuns(s, id, at)
  {
    assert forall id :: LeaseRuns(s, id, at) ==> LeaseRuns(s, id, s.clock);
    if !Free(s.entry, at) {
      assert LeaseRuns(s, s.entry.token, at);
    }
  }

  /** A try succeeds exactly when no call that took the lock and has not released it has lease left. */
  lemma AcquiresIff(clock: int, es: seq<Event>, id: nat, at: int)
    requires ValidRun(Initial(clock), es) && Enabled(Run(Initial(clock), es), Try(id, at))
    ensures var s := Run(Initial(clock), es);
            Next(s, Try(id, at)).calls[id].Inside? <==> !exists other :: LeaseRuns(s, other, at)
  {
    AlwaysSafe(Initial(clock), es);
    FreeIff(Run(Initial(clock), es), at);
  }

  /** A second call enters while another is in its callback only after that one's lease has ended. */
  lemma OverlapOnlyAfterLease(clock: int, es: seq<Event>, id: nat, other: nat, at: int)
    requires ValidRun(Initial(clock), es) && Enabled(Run(Initial(clock), es), Try(id, at))
    requires var s := Run(Initial(clock), es);
             other in s.calls && s.calls[other].Inside? && Next(s, Try(id, at)).calls[id].Inside?
    ensures Run(Initial(clock), es).calls[other].lease <= at
  {
    AcquiresIff(clock, es, id, at);
    assert !LeaseRuns(Run(Initial(clock), es), other, at);
  }

  predicate InCallback(s: State, id: nat) {
    id in s.calls && s.calls[id].Inside?
  }

  ghost predicate Alone(s: State) {
    forall a, b :: InCallback(s, a) && InCallback(s, b) ==> a == b
  }

  ghost predicate AlwaysAlone(s: State, es: seq<Event>)
    requires ValidRun(s, es)
    decreases |es|
  {
    Alone(s) && (es != [] ==> AlwaysAlone(Next(s, es[0]), es[1..]))
  }

  /** A try that comes while a callback runs and every unreleased lease has ended. */
  ghost predicate Intrudes(s: State, e: Event) {
    e.Try? && (exists id :: InCallback(s, id)) && !exists id :: LeaseRuns(s, id, e.at)
  }

  ghost predicate NeverIntrudes(s: State, es: seq<Event>)
    requires ValidRun(s, es)
    decreases |es|
  {
    es == [] || (!Intrudes(s, es[0]) && NeverIntrudes(Next(s, es[0]), es[1..]))
  }

  lemma AloneStepIff(s: State, e: Event)
    requires Enabled(s, e) && Safe(s) && Alone(s)
    ensures Alone(Next(s, e)) <==> !Intrudes(s, e)
  {
    var s' := Next(s, e);
    FreeIff(s, e.at);
    if Intrudes(s, e) {
      var id :| InCallback(s, id);
      assert InCallback(s', id) && InCallback(s', e.id) && id != e.id;
    } else if e.Try? && Free(s.entry, e.at) {
      assert forall id :: InCallback(s', id) ==> id == e.id || InCallback(s, id);
    } else {
      assert forall id :: InCallback(s', id) ==> InCallback(s, id);
    }
  }

  lemma {:induction false} AloneIff(s: State, es: seq<Event>)
    requires ValidRun(s, es) && Safe(s) && Alone(s)
    ensures AlwaysAlone(s, es) <==> NeverIntrudes(s, es)
    decreases |es|
  {
    if es != [] {
      var s' := Next(s, es[0]);
      SafeStep(s, es[0]);
      AloneStepIff(s, es[0]);
      if Alone(s') {
        AloneIff(s', es[1..]);
      } else {
        assert !AlwaysAlone(s', es[1..]);
      }
    }
  }

  /** No two callbacks ever overlap in a run exactly when no try intrudes. */
  lemma CallbacksNeverOverlapIff(clock: int, es: seq<Event>)
    requires ValidRun(Initial(clock), es)
    ensures AlwaysAlone(Initial(clock), es) <==> NeverIntrudes(Initial(clock), es)
  {
    AloneIff(Initial(clock), es);
  }

  const OVERRUN: seq<Event> := [Begin(0, 10, 0), Begin(1, 10, 0), Try(0, 0), Try(1, 10)]

  /** The callback is not stopped at the end of its lease, so two can overlap. */
  lemma OverrunOverlaps()
    ensures ValidRun(Initial(0), OVERRUN)
    ensures var s := Run(Initial(0), OVERRUN); s.calls == map[0 := Inside(10), 1 := Inside(20)] && s.clock == 10
  {
    var s0 := Initial(0);
    var s1 := Next(s0, OVERRUN[0]);
    var s2 := Next(s1, OVERRUN[1]);
    var s3 := Next(s2, OVERRUN[2]);
    var s4 := Next(s3, OVERRUN[3]);
    assert s4.calls == map[0 := Inside(10), 1 := Inside(20)];
    assert OVERRUN[1..][1..] == OVERRUN[2..] && OVERRUN[2..][1..] == OVERRUN[3..] && OVERRUN[3..][1..] == [];
    assert ValidRun(s4, []) && ValidRun(s3, OVERRUN[3..]) && ValidRun(s2, OVERRUN[2..]) && ValidRun(s1, OVERRUN[1..]);
    assert Run(s3, OVERRUN[3..]) == s4 && Run(s2, OVERRUN[2..]) == s4 && Run(s1, OVERRUN[1..]) == s4;
  }

  // ---------- how long a lease is ----------

  /** The time to live each call asked for, and when it entered. */
  datatype Diary = Diary(asked: map<nat, int>, entered: map<nat, int>)

  function Write(s: State, e: Event, d: Diary): Diary
    requires Enabled(s, e)
  {
    if e.Begin? then d.(asked := d.asked[e.id := e.ttl])
    else if e.Try? && Next(s, e).calls[e.id].Inside? then d.(entered := d.entered[e.id := e.at])
    else d
  }

  function WriteAll(s: State, es: seq<Event>, d: Diary): Diary
    requires ValidRun(s, es)
    decreases |es|
  {
    if es == [] then d else WriteAll(Next(s, es[0]), es[1..], Write(s, es[0], d))
  }

  ghost predicate Dated(s: State, d: Diary) {
    && (forall id :: id in s.calls ==> id in s.ttls && id in d.asked && s.ttls[id] == d.asked[id])
    && (forall id :: Owns(s, id) ==>
          && id in d.entered
          && s.calls[id].lease == d.entered[id] + if d.asked[id] > 0 then d.asked[id] else 30_000_000_000)
  }

  lemma DatedStep(s: State, e: Event, d: Diary)
    requires Enabled(s, e) && Dated(s, d)
    ensures Dated(Next(s, e), Write(s, e, d))
  {
  }

  lemma {:induction false} AlwaysDated(s: State, es: seq<Event>, d: Diary)
    requires ValidRun(s, es) && Dated(s, d)
    ensures Dated(Run(s, es), WriteAll(s, es, d))
    decreases |es|
  {
    if es != [] {
      DatedStep(s, es[0], d);
      AlwaysDated(Next(s, es[0]), es[1..], Write(s, es[0], d));
    }
  }

  /** In every run, a lease ends its call's time to live, or thirty seconds if that is not positive, after the call entered. */
  lemma LeaseLastsItsTtl(clock: int, es: seq<Event>, id: nat)
    requires ValidRun(Initial(clock), es) && Owns(Run(Initial(clock), es), id)
    ensures var d := WriteAll(Initial(clock), es, Diary(map[], map[]));
            && id in d.asked && id in d.entered
            && Run(Initial(clock), es).calls[id].lease == d.entered[id] + if d.asked[id] > 0 then d.asked[id] else 30_000_000_000
  {
    AlwaysDated(Initial(clock), es, Diary(map[], map[]));
  }

  // ---------- the operations on the key ----------

  class LockKey {
    var entry: Entry

    constructor ()
      ensures entry == Absent
    {
      entry := Absent;
    }

    method TrySet(token: nat, ttl: int, now: int) returns (ok: bool)
      modifies this
      ensures ok == Free(old(entry), now) && entry == SetNX(old(entry), token, ttl, now)
    {
      ok := false;
      if entry.Absent? || entry.expires <= now {
        entry := Held(token, now + if ttl <= 0 then DEFAULT_TTL else ttl);
        ok := true;
      }
    }

    /** The release script. */
    method Delete(token: nat, now: int)
      modifies this
      ensures entry == CompareAndDelete(old(entry), token, now)
    {
      if entry.Held? && entry.expires <= now {
        entry := Absent;
      }
      if entry.Held? && entry.token == token {
        entry := Absent;
      }
    }

    /** The retry loop over the times at which it wakes, ending with the context. */
    method Acquire(token: nat, ttl: int, wakes: seq<int>) returns (ok: bool, n: nat)
      requires forall i, j :: 0 <= i < j < |wakes| ==> wakes[i] <= wakes[j]
      modifies this
      ensures ok <==> exists i :: 0 <= i < |wakes| && Free(old(entry), wakes[i])
      ensures ok ==> n < |wakes| && Free(old(entry), wakes[n]) && entry == Held(token, Lease(ttl, wakes[n]))
      ensures ok ==> forall i :: 0 <= i < n ==> !Free(old(entry), wakes[i])
      ensures !ok ==> entry == old(entry)
    {
      n := 0;
      while n < |wakes|
        invariant n <= |wakes| && entry == old(entry)
        invariant forall i :: 0 <= i < n ==> !Free(old(entry), wakes[i])
      {
        ok := TrySet(token, ttl, wakes[n]);
        if ok {
          return;
        }
        n := n + 1;
      }
      ok := false;
    }
  }
}
