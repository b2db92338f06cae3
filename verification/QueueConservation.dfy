/**
 What becomes of accepted tasks over whole runs: stored copies and dead-letter rows are counted
 against acceptances, acknowledgements, surrenders and replays.
 */
module QueueConservation {
  import opened Common
  import opened Queue
  import opened QueueIdempotency

  // ---------- counting copies ----------

  /** What every copy of a task keeps, whatever its attempt number and due time. */
  datatype TaskId = TaskId(key: string, payload: string, maxAttempts: int)

  function Id(m: Message): TaskId {
    TaskId(m.key, m.payload, m.maxAttempts)
  }

  function CopiesOf(stored: map<Message, int>, id: TaskId): set<Message> {
    set m | m in stored && Id(m) == id
  }

  function CopiesIn(stored: map<Message, int>, id: TaskId): nat {
    |CopiesOf(stored, id)|
  }

  /** How many entries of the ready and processing sets are copies of `id`. */
  function Copies(s: State, id: TaskId): nat {
    CopiesIn(s.ready, id) + CopiesIn(s.processing, id)
  }

  function Claimed(head: Message): Message {
    head.(attempt := head.attempt + 1)
  }

  /** The document that an event accepts, if it accepts one. */
  function Acceptance(c: Config, s: State, e: Event): Option<Message> {
    if e.Enqueue? && Accepts(s, e.task.key) then Some(Admitted(c, e.task, e.at))
    else if e.Replay? && e.row in s.dlq && Accepts(s, s.dlq[e.row].payload.key)
    then Some(Admitted(c, Revived(s.dlq[e.row]), e.at))
    else None
  }

  /** The document that an event moves from one set to the other and the one it becomes there. */
  function Transfer(s: State, e: Event): Option<(Message, Message)>
    requires Enabled(s, e)
  {
    match e
    case Pop(head, at) => if head.availableAt <= at then Some((head, Claimed(head))) else None
    case Fail(h, delay, cause, _, at) =>
      var m := s.handlers[h].msg;
      if Exhausted(m) || m !in s.processing then None else Some((m, Retry(m, delay, cause, at)))
    case Requeue(m, at) => Some((m, m.(availableAt := at)))
    case _ => None
  }

  /** An event collides when what it writes is already there: two copies become one. */
  predicate Collides(c: Config, s: State, e: Event)
    requires Enabled(s, e)
  {
    || (Acceptance(c, s, e).Some? && Acceptance(c, s, e).value in s.ready)
    || (Transfer(s, e).Some? && Transfer(s, e).value.1 in if e.Pop? then s.processing else s.ready)
  }

  /** The task that an event is about. */
  function Subject(c: Config, s: State, e: Event): Option<TaskId>
    requires Enabled(s, e)
  {
    if Acceptance(c, s, e).Some? then Some(Id(Acceptance(c, s, e).value))
    else match e
      case Pop(head, _) => Some(Id(head))
      case Ack(h, _) => Some(Id(s.handlers[h].msg))
      case Fail(h, _, _, _, _) => Some(Id(s.handlers[h].msg))
      case Requeue(m, _) => Some(Id(m))
      case _ => None
  }

  /**
   A handler whose claim was swept strays: acknowledging or giving up removes no copy, and
   a retry adds one unless it is already there.
   */
  predicate Strays(s: State, e: Event)
    requires Enabled(s, e)
  {
    match e
    case Ack(h, _) => s.handlers[h].msg !in s.processing
    case Fail(h, delay, cause, _, at) =>
      var m := s.handlers[h].msg;
      m !in s.processing && (Exhausted(m) || Retry(m, delay, cause, at) !in s.ready)
    case _ => false
  }

  predicate GivesUp(s: State, e: Event)
    requires Enabled(s, e)
  {
    e.Fail? && Exhausted(s.handlers[e.h].msg)
  }

  /** What has happened to one task: in the sets, and in the dead-letter table. */
  datatype Tally = Tally(accepted: nat, acked: nat, givenUp: nat, collided: nat, strayed: nat, buried: nat, unearthed: nat) {
    function Owed(): int {
      accepted - acked - givenUp
    }
  }

  function Score(c: Config, s: State, e: Event, id: TaskId, t: Tally): Tally
    requires Enabled(s, e)
  {
    var mine := Subject(c, s, e) == Some(id);
    Tally(
      t.accepted + Count(mine && Acceptance(c, s, e).Some?),
      t.acked + Count(mine && e.Ack?),
      t.givenUp + Count(mine && GivesUp(s, e)),
      t.collided + Count(mine && Collides(c, s, e)),
      t.strayed + Count(mine && Strays(s, e)),
      t.buried + Count(mine && GivesUp(s, e) && e.stored),
      t.unearthed + Count(e.Replay? && e.row in s.dlq && Id(s.dlq[e.row].payload) == id))
  }

  function ScoreAll(c: Config, s: State, es: seq<Event>, id: TaskId, t: Tally): Tally
    requires ValidRun(c, s, es)
    decreases |es|
  {
    if es == [] then t else ScoreAll(c, Next(c, s, es[0]), es[1..], id, Score(c, s, es[0], id, t))
  }

  const NOTHING_YET := Tally(0, 0, 0, 0, 0, 0, 0)

  lemma SameCopies(stored: map<Message, int>, m: Message, score: int, id: TaskId)
    requires m in stored || Id(m) != id
    ensures CopiesOf(stored[m := score], id) == CopiesOf(stored, id)
  {
  }

  lemma OneMoreCopy(stored: map<Message, int>, m: Message, score: int, id: TaskId)
    requires m !in stored && Id(m) == id
    ensures CopiesOf(stored[m := score], id) == CopiesOf(stored, id) + {m} && m !in CopiesOf(stored, id)
  {
  }

  lemma CopiesWith(stored: map<Message, int>, m: Message, score: int, id: TaskId)
    ensures CopiesIn(stored[m := score], id) == CopiesIn(stored, id) + Count(m !in stored && Id(m) == id)
  {
    if m !in stored && Id(m) == id { OneMoreCopy(stored, m, score, id); } else { SameCopies(stored, m, score, id); }
  }

  lemma CopiesWithout(stored: map<Message, int>, m: Message, id: TaskId)
    ensures CopiesIn(stored - {m}, id) + Count(m in stored && Id(m) == id) == CopiesIn(stored, id)
  {
    assert CopiesOf(stored - {m}, id) == CopiesOf(stored, id) - {m};
  }

  /** The change in copies of a task that one event makes. */
  predicate CopiesBalance(c: Config, s: State, e: Event, id: TaskId)
    requires Enabled(s, e)
  {
    var t := Score(c, s, e, id, NOTHING_YET);
    Copies(Next(c, s, e), id) + t.acked + t.givenUp + t.collided == Copies(s, id) + t.accepted + t.strayed
  }

  lemma AcceptanceBalances(c: Config, s: State, e: Event, id: TaskId)
    requires Enabled(s, e) && (e.Enqueue? || e.Replay?)
    ensures CopiesBalance(c, s, e, id)
  {
    if Acceptance(c, s, e).Some? {
      var m := Acceptance(c, s, e).value;
      CopiesWith(s.ready, m, m.availableAt, id);
    }
  }

  lemma PopBalances(c: Config, s: State, e: Event, id: TaskId)
    requires Enabled(s, e) && e.Pop?
    ensures CopiesBalance(c, s, e, id)
  {
    if e.head.availableAt <= e.at {
      CopiesWithout(s.ready, e.head, id);
      CopiesWith(s.processing, Claimed(e.head), e.at + c.Visibility(), id);
    } else {
      CopiesWith(s.ready, e.head, e.head.availableAt, id);
    }
  }

  lemma RequeueBalances(c: Config, s: State, e: Event, id: TaskId)
    requires Enabled(s, e) && e.Requeue?
    ensures CopiesBalance(c, s, e, id)
  {
    CopiesWithout(s.processing, e.msg, id);
    CopiesWith(s.ready, e.msg.(availableAt := e.at), e.at, id);
  }

  lemma FinishBalances(c: Config, s: State, e: Event, id: TaskId)
    requires Enabled(s, e) && (e.Ack? || e.Fail?)
    ensures CopiesBalance(c, s, e, id)
  {
    var m := s.handlers[e.h].msg;
    CopiesWithout(s.processing, m, id);
    if e.Fail? && !Exhausted(m) {
      var retry := Retry(m, e.delay, e.cause, e.at);
      CopiesWith(s.ready, retry, retry.availableAt, id);
    }
  }

  lemma CopiesBalanceStep(c: Config, s: State, e: Event, id: TaskId)
    requires Enabled(s, e)
    ensures CopiesBalance(c, s, e, id)
  {
    if e.Enqueue? || e.Replay? { AcceptanceBalances(c, s, e, id); }
    else if e.Pop? { PopBalances(c, s, e, id); }
    else if e.Requeue? { RequeueBalances(c, s, e, id); }
    else if e.Ack? || e.Fail? { FinishBalances(c, s, e, id); }
  }

  ghost predicate RowsNumbered(s: State) {
    forall row :: row in s.dlq ==> row < s.nextRow
  }

  function RowsOf(dlq: map<nat, Entry>, id: TaskId): set<nat> {
    set row | row in dlq && Id(dlq[row].payload) == id
  }

  lemma RowsWith(dlq: map<nat, Entry>, row: nat, entry: Entry, id: TaskId)
    requires row !in dlq
    ensures |RowsOf(dlq[row := entry], id)| == |RowsOf(dlq, id)| + Count(Id(entry.payload) == id)
  {
    var before := RowsOf(dlq, id);
    assert RowsOf(dlq[row := entry], id) == if Id(entry.payload) == id then before + {row} else before;
  }

  lemma RowsWithout(dlq: map<nat, Entry>, row: nat, id: TaskId)
    requires row in dlq
    ensures |RowsOf(dlq - {row}, id)| + Count(Id(dlq[row].payload) == id) == |RowsOf(dlq, id)|
  {
    assert RowsOf(dlq - {row}, id) == RowsOf(dlq, id) - {row};
  }

  lemma RowsBalance(c: Config, s: State, e: Event, id: TaskId)
    requires Enabled(s, e) && RowsNumbered(s)
    ensures RowsNumbered(Next(c, s, e))
    ensures var t := Score(c, s, e, id, NOTHING_YET);
            |RowsOf(Next(c, s, e).dlq, id)| + t.unearthed == |RowsOf(s.dlq, id)| + t.buried
  {
    if e.Replay? && e.row in s.dlq {
      RowsWithout(s.dlq, e.row, id);
    } else if GivesUp(s, e) && e.stored {
      RowsWith(s.dlq, s.nextRow, Entry(s.handlers[e.h].msg, s.handlers[e.h].msg.attempt, e.cause), id);
    } else {
      assert Next(c, s, e).dlq == s.dlq;
    }
  }

  /** Copies and rows are exactly what the tally leaves over. */
  ghost predicate Accounted(s: State, id: TaskId, t: Tally) {
    && Copies(s, id) + t.collided == t.Owed() + t.strayed
    && |RowsOf(s.dlq, id)| + t.unearthed == t.buried
    && RowsNumbered(s)
  }

  lemma {:induction false} AlwaysAccounted(c: Config, s: State, es: seq<Event>, id: TaskId, t: Tally)
    requires ValidRun(c, s, es) && Accounted(s, id, t)
    ensures Accounted(Run(c, s, es), id, ScoreAll(c, s, es, id, t))
    decreases |es|
  {
    if es != [] {
      CopiesBalanceStep(c, s, es[0], id);
      RowsBalance(c, s, es[0], id);
      AlwaysAccounted(c, Next(c, s, es[0]), es[1..], id, Score(c, s, es[0], id, t));
    }
  }

  lemma NothingStored(clock: int, id: TaskId)
    ensures Accounted(Empty(clock), id, NOTHING_YET)
  {
    var s := Empty(clock);
    assert CopiesOf(s.ready, id) == {} && CopiesOf(s.processing, id) == {};
    assert RowsOf(s.dlq, id) == {};
  }

  lemma {:induction false} BalanceAfter(c: Config, s: State, es: seq<Event>, id: TaskId, t: Tally)
    requires ValidRun(c, s, es) && Accounted(s, id, t)
    ensures var s', t' := Run(c, s, es), ScoreAll(c, s, es, id, t);
            && Copies(s', id) == t'.Owed() + t'.strayed - t'.collided
            && (Copies(s', id) >= t'.Owed() <==> t'.collided <= t'.strayed)
            && |RowsOf(s'.dlq, id)| == t'.buried - t'.unearthed
  {
    AlwaysAccounted(c, s, es, id, t);
  }

  /**
   In every run of an initially empty queue, with crashes, overruns, sweeps, key expiry and replays in any
   order: a task has as many stored copies as it was accepted and not acknowledged or given up, less one per
   collision and plus one per stray; so none is missing exactly when its collisions do not outnumber its
   strays. It has exactly as many dead-letter rows as were buried and not replayed.
   */
  lemma {:induction false} NoTaskLost(c: Config, clock: int, es: seq<Event>, id: TaskId)
    requires ValidRun(c, Empty(clock), es)
    ensures var s := Run(c, Empty(clock), es);
            var t := ScoreAll(c, Empty(clock), es, id, NOTHING_YET);
            && Copies(s, id) == t.Owed() + t.strayed - t.collided
            && (Copies(s, id) >= t.Owed() <==> t.collided <= t.strayed)
            && |RowsOf(s.dlq, id)| == t.buried - t.unearthed
  {
    NothingStored(clock, id);
    BalanceAfter(c, Empty(clock), es, id, NOTHING_YET);
  }

  predicate NeverCollides(c: Config, s: State, es: seq<Event>)
    requires ValidRun(c, s, es)
    decreases |es|
  {
    es == [] || (!Collides(c, s, es[0]) && NeverCollides(c, Next(c, s, es[0]), es[1..]))
  }

  predicate KeepsCopies(c: Config, s: State, e: Event, id: TaskId)
    requires Enabled(s, e)
  {
    Copies(Next(c, s, e), id) >= Copies(s, id) + Score(c, s, e, id, NOTHING_YET).Owed()
  }

  /** An event keeps a copy of everything owed exactly when it does not write over a document. */
  lemma StepKeepsCopiesIff(c: Config, s: State, e: Event)
    requires Enabled(s, e)
    ensures (forall id :: KeepsCopies(c, s, e, id)) <==> !Collides(c, s, e)
  {
    forall id ensures KeepsCopies(c, s, e, id) <==> !(Collides(c, s, e) && Subject(c, s, e) == Some(id)) {
      CopiesBalanceStep(c, s, e, id);
    }
    if Collides(c, s, e) {
      assert !KeepsCopies(c, s, e, Subject(c, s, e).value);
    }
  }

  lemma {:induction false} CollisionsAreTallied(c: Config, s: State, es: seq<Event>, id: TaskId, t: Tally)
    requires ValidRun(c, s, es) && NeverCollides(c, s, es)
    ensures ScoreAll(c, s, es, id, t).collided == t.collided
    decreases |es|
  {
    if es != [] {
      CollisionsAreTallied(c, Next(c, s, es[0]), es[1..], id, Score(c, s, es[0], id, t));
    }
  }

  /** In a run in which no write lands on a document already there, every task keeps a copy per acceptance owed. */
  lemma {:induction false} NoTaskLostWithoutCollisions(c: Config, clock: int, es: seq<Event>, id: TaskId)
    requires ValidRun(c, Empty(clock), es) && NeverCollides(c, Empty(clock), es)
    ensures Copies(Run(c, Empty(clock), es), id) >= ScoreAll(c, Empty(clock), es, id, NOTHING_YET).Owed()
  {
    NoTaskLost(c, clock, es, id);
    CollisionsAreTallied(c, Empty(clock), es, id, NOTHING_YET);
  }

  // ---------- keyed tasks ----------

  lemma KeyedNeverCollides(c: Config, s: State, e: Event, id: TaskId)
    requires Enabled(s, e) && Idempotent(s) && id.key != "" && Subject(c, s, e) == Some(id)
    ensures !Collides(c, s, e)
  {
  }

  lemma KeyedNeverStrays(c: Config, s: State, e: Event, id: TaskId)
    requires Enabled(s, e) && InTime(s, e) && HandlersHold(s) && id.key != "" && Subject(c, s, e) == Some(id)
    ensures !Strays(s, e)
  {
    if e.Ack? || e.Fail? { InTimeOwns(s, e.h, e.at); }
  }

  lemma {:induction false} KeyedRunIsClean(c: Config, s: State, es: seq<Event>, id: TaskId, t: Tally)
    requires ValidRun(c, s, es) && AllInTime(c, s, es) && Idempotent(s) && HandlersHold(s) && id.key != ""
    ensures var t' := ScoreAll(c, s, es, id, t); t'.collided == t.collided && t'.strayed == t.strayed
    decreases |es|
  {
    if es != [] {
      if Subject(c, s, es[0]) == Some(id) {
        KeyedNeverCollides(c, s, es[0], id);
        KeyedNeverStrays(c, s, es[0], id);
      }
      HandlersHoldStep(c, s, es[0]);
      StepKeepsIff(c, s, es[0]);
      KeyedRunIsClean(c, Next(c, s, es[0]), es[1..], id, Score(c, s, es[0], id, t));
    }
  }

  lemma {:induction false} KeyedBalanceAfter(c: Config, s: State, es: seq<Event>, id: TaskId, t: Tally)
    requires ValidRun(c, s, es) && AllInTime(c, s, es) && Idempotent(s) && HandlersHold(s) && id.key != ""
    requires Accounted(s, id, t) && t.collided == t.strayed
    ensures Copies(Run(c, s, es), id) == ScoreAll(c, s, es, id, t).Owed()
  {
    BalanceAfter(c, s, es, id, t);
    KeyedRunIsClean(c, s, es, id, t);
  }

  lemma NothingHeld(clock: int)
    ensures Idempotent(Empty(clock)) && HandlersHold(Empty(clock))
  {
  }

  /** In every in-time run a keyed task has exactly one copy per acceptance not yet acknowledged or given up. */
  lemma {:induction false} KeyedTasksExact(c: Config, clock: int, es: seq<Event>, id: TaskId)
    requires ValidRun(c, Empty(clock), es) && AllInTime(c, Empty(clock), es) && id.key != ""
    ensures Copies(Run(c, Empty(clock), es), id) == ScoreAll(c, Empty(clock), es, id, NOTHING_YET).Owed()
  {
    NothingStored(clock, id);
    NothingHeld(clock);
    KeyedBalanceAfter(c, Empty(clock), es, id, NOTHING_YET);
  }

  /**
   Tasks are told apart by their stored document alone: an unkeyed task adds an entry
   exactly when the same document is not already waiting.
   */
  lemma UnkeyedTaskAddsEntryIff(c: Config, s: State, t: Task, at: int)
    requires t.key == ""
    ensures |EnqueueEffect(c, s, t, at).ready| == |s.ready| + 1 <==> Admitted(c, t, at) !in s.ready
  {
    var m := Admitted(c, t, at);
    var after := EnqueueEffect(c, s, t, at).ready;
    assert after.Keys == s.ready.Keys + {m};
    assert |after.Keys| == |after| && |s.ready.Keys| == |s.ready|;
  }

  const TWIN := Enqueue(Task("", "p", 3, 0, 0), 0)

  /** Two equal unkeyed tasks, both accepted, are stored once. */
  lemma TwinsCollapse(c: Config)
    ensures ValidRun(c, Empty(0), [TWIN, TWIN])
    ensures var id := TaskId("", "p", 3);
            && ScoreAll(c, Empty(0), [TWIN, TWIN], id, NOTHING_YET).Owed() == 2
            && Copies(Run(c, Empty(0), [TWIN, TWIN]), id) == 1
  {
    var s0, id := Empty(0), TaskId("", "p", 3);
    var s1 := Next(c, s0, TWIN);
    var s2 := Next(c, s1, TWIN);
    var t1 := Score(c, s0, TWIN, id, NOTHING_YET);
    assert [TWIN, TWIN][1..] == [TWIN] && [TWIN][1..] == [];
    assert ValidRun(c, s2, []) && ValidRun(c, s1, [TWIN]);
    assert ScoreAll(c, s1, [TWIN], id, t1) == Score(c, s1, TWIN, id, t1);
    NoTaskLost(c, 0, [TWIN, TWIN], id);
  }

  // ---------- despite collisions ----------

  /** `owed`: accepted, not acknowledged and not given up. `parked`: dead-lettered and not replayed. */
  datatype Ledger = Ledger(owed: set<TaskId>, parked: set<TaskId>)

  function Book(c: Config, s: State, e: Event, l: Ledger): Ledger
    requires Enabled(s, e)
  {
    match e
    case Enqueue(t, at) =>
      if Accepts(s, t.key) then l.(owed := l.owed + {Id(Admitted(c, t, at))}) else l
    case Ack(h, _) => l.(owed := l.owed - {Id(s.handlers[h].msg)})
    case Fail(h, _, _, stored, _) =>
      var id := Id(s.handlers[h].msg);
      if !Exhausted(s.handlers[h].msg) then l
      else Ledger(l.owed - {id}, if stored then l.parked + {id} else l.parked)
    case Replay(row, at) =>
      if row !in s.dlq then l else
      var t := Revived(s.dlq[row]);
      Ledger(if Accepts(s, t.key) then l.owed + {Id(Admitted(c, t, at))} else l.owed,
             l.parked - {Id(s.dlq[row].payload)})
    case _ => l
  }

  function BookAll(c: Config, s: State, es: seq<Event>, l: Ledger): Ledger
    requires ValidRun(c, s, es)
    decreases |es|
  {
    if es == [] then l else BookAll(c, Next(c, s, es[0]), es[1..], Book(c, s, es[0], l))
  }

  ghost predicate Stored(s: State, id: TaskId) {
    || (exists m :: m in s.ready && Id(m) == id)
    || (exists m :: m in s.processing && Id(m) == id)
  }

  ghost predicate Parked(s: State, id: TaskId) {
    exists row :: row in s.dlq && Id(s.dlq[row].payload) == id
  }

  ghost predicate Conserved(s: State, l: Ledger) {
    && (forall id :: id in l.owed ==> Stored(s, id))
    && (forall id :: id in l.parked ==> Parked(s, id))
    && RowsNumbered(s)
  }

  /** The stored copy of an id that an event does not settle survives or is rewritten with the same id. */
  lemma CopySurvives(c: Config, s: State, e: Event, m: Message)
    requires Enabled(s, e) && (m in s.ready || m in s.processing)
    requires e.Ack? ==> Id(s.handlers[e.h].msg) != Id(m)
    requires e.Fail? && Exhausted(s.handlers[e.h].msg) ==> Id(s.handlers[e.h].msg) != Id(m)
    ensures Stored(Next(c, s, e), Id(m))
  {
    var s' := Next(c, s, e);
    match e
    case Pop(head, at) =>
      var claimed := head.(attempt := head.attempt + 1);
      assert Id(claimed) == Id(head);
      if m == head && m in s.ready && head.availableAt <= at { assert claimed in s'.processing; }
      else if m in s.ready { assert m in s'.ready; }
      else { assert m in s'.processing; }
    case Fail(h, delay, cause, _, at) =>
      var f := s.handlers[h].msg;
      var retry := Retry(f, delay, cause, at);
      assert Id(retry) == Id(f);
      if m in s.ready { assert m in s'.ready; }
      else if m != f { assert m in s'.processing; }
      else { assert retry in s'.ready; }
    case Requeue(x, at) =>
      var back := x.(availableAt := at);
      assert Id(back) == Id(x);
      if m in s.ready { assert m in s'.ready; }
      else if m == x { assert back in s'.ready; }
      else { assert m in s'.processing; }
    case _ =>
      assert m in s.ready ==> m in s'.ready;
      assert m in s.processing ==> m in s'.processing || m in s'.ready;
  }

  lemma RowSurvives(c: Config, s: State, e: Event, row: nat)
    requires Enabled(s, e) && row in s.dlq && RowsNumbered(s)
    requires e.Replay? ==> e.row != row
    ensures row in Next(c, s, e).dlq && Next(c, s, e).dlq[row] == s.dlq[row]
  {
  }

  lemma BookKeeps(c: Config, s: State, e: Event, l: Ledger)
    requires Enabled(s, e) && Conserved(s, l)
    ensures Conserved(Next(c, s, e), Book(c, s, e, l))
  {
    var s', l' := Next(c, s, e), Book(c, s, e, l);
    forall id | id in l'.owed ensures Stored(s', id) {
      if id in l.owed {
        var m :| (m in s.ready || m in s.processing) && Id(m) == id;
        CopySurvives(c, s, e, m);
      } else if e.Enqueue? {
        assert Admitted(c, e.task, e.at) in s'.ready;
      } else {
        assert Admitted(c, Revived(s.dlq[e.row]), e.at) in s'.ready;
      }
    }
    forall id | id in l'.parked ensures Parked(s', id) {
      if id in l.parked {
        var row :| row in s.dlq && Id(s.dlq[row].payload) == id;
        RowSurvives(c, s, e, row);
      } else {
        assert s.nextRow in s'.dlq;
      }
    }
  }

  /**
   In every run, with crashes, overruns, sweeps, key expiry and replays in any order, a task
   that is owed has a copy in the ready or processing set, and a parked one has a dead-letter row.
   */
  lemma {:induction false} SomeCopySurvives(c: Config, s: State, es: seq<Event>, l: Ledger)
    requires ValidRun(c, s, es) && Conserved(s, l)
    ensures Conserved(Run(c, s, es), BookAll(c, s, es, l))
    decreases |es|
  {
    if es != [] {
      BookKeeps(c, s, es[0], l);
      SomeCopySurvives(c, Next(c, s, es[0]), es[1..], Book(c, s, es[0], l));
    }
  }

  lemma {:induction false} SomeCopySurvivesFromEmpty(c: Config, clock: int, es: seq<Event>)
    requires ValidRun(c, Empty(clock), es)
    ensures Conserved(Run(c, Empty(clock), es), BookAll(c, Empty(clock), es, Ledger({}, {})))
  {
    SomeCopySurvives(c, Empty(clock), es, Ledger({}, {}));
  }
}
