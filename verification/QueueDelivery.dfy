/**
 How the queue hands an accepted task out over whole runs: a bounded number of times, exactly its
 limit before it is dead-lettered if it always fails, and never before it is due.
 */
module QueueDelivery {
  import opened Common
  import opened Queue
  import opened QueueIdempotency
  import opened QueueConservation

  // ---------- how often a task is handed out ----------

  function AtLeast(lo: int, n: int): int {
    if n < lo then lo else n
  }

  /** How many more times a key can be claimed if no claim of it expires. */
  ghost function Budget(s: State, k: string): int {
    if InReady(s, k) then
      var m :| m in s.ready && m.key == k; AtLeast(1, m.maxAttempts - m.attempt)
    else if InProcessing(s, k) then
      var m :| m in s.processing && m.key == k; AtLeast(0, m.maxAttempts - m.attempt)
    else 0
  }

  lemma BudgetOfReady(s: State, m: Message)
    requires Unique(s) && m in s.ready && m.key != ""
    ensures Budget(s, m.key) == AtLeast(1, m.maxAttempts - m.attempt)
  {
  }

  lemma BudgetOfProcessing(s: State, m: Message)
    requires Unique(s) && m in s.processing && m.key != ""
    ensures Budget(s, m.key) == AtLeast(0, m.maxAttempts - m.attempt)
  {
  }

  lemma BudgetOfIdle(s: State, k: string)
    requires !Live(s, k)
    ensures Budget(s, k) == 0
  {
  }

  /** Copies of `k` that an event does not touch keep its budget. */
  lemma BudgetFrame(s: State, s': State, k: string)
    requires Unique(s) && Unique(s') && k != ""
    requires forall m: Message :: m.key == k ==> (m in s.ready <==> m in s'.ready) && (m in s.processing <==> m in s'.processing)
    ensures Budget(s', k) == Budget(s, k)
  {
    if m :| m in s.ready && m.key == k {
      BudgetOfReady(s, m); BudgetOfReady(s', m);
    } else if m :| m in s.processing && m.key == k {
      BudgetOfProcessing(s, m); BudgetOfProcessing(s', m);
    } else {
      BudgetOfIdle(s, k); BudgetOfIdle(s', k);
    }
  }

  predicate HandsOut(e: Event, k: string) {
    e.Pop? && e.head.key == k && e.head.availableAt <= e.at
  }

  predicate Lapses(e: Event, k: string) {
    e.Requeue? && e.msg.key == k
  }

  predicate Succeeds(s: State, e: Event, k: string)
    requires Enabled(s, e)
  {
    e.Ack? && s.handlers[e.h].msg.key == k
  }

  predicate Reaccepts(s: State, e: Event, k: string) {
    || (e.Enqueue? && e.task.key == k && Accepts(s, k))
    || (e.Replay? && e.row in s.dlq && s.dlq[e.row].payload.key == k && Accepts(s, k))
  }

  ghost predicate Bounded(s: State) {
    && (forall m :: m in s.ready ==> m.maxAttempts >= 1)
    && (forall m :: m in s.processing ==> m.maxAttempts >= 1)
    && (forall h :: h in s.handlers ==> s.handlers[h].msg.maxAttempts >= 1)
  }

  /** What every state that an in-time run reaches from an empty queue satisfies. */
  ghost predicate Good(s: State) {
    Idempotent(s) && HandlersHold(s) && RowsNumbered(s)
  }

  lemma BoundedEnqueue(c: Config, s: State, t: Task, at: int)
    requires Bounded(s)
    ensures Bounded(EnqueueEffect(c, s, t, at))
  {
  }

  lemma BoundedWorker(c: Config, s: State, e: Event)
    requires Enabled(s, e) && Bounded(s) && (e.Pop? || e.Fail? || e.Requeue?)
    ensures Bounded(Next(c, s, e))
  {
    match e
    case Pop(_, _) =>
    case Fail(_, _, _, _, _) =>
    case Requeue(_, _) =>
  }

  lemma BoundedStep(c: Config, s: State, e: Event)
    requires Enabled(s, e) && Bounded(s)
    ensures Bounded(Next(c, s, e))
  {
    match e
    case Enqueue(t, at) => BoundedEnqueue(c, s, t, at);
    case Replay(row, at) => if row in s.dlq { BoundedEnqueue(c, s, Revived(s.dlq[row]), at); }
    case Pop(_, _) => BoundedWorker(c, s, e);
    case Fail(_, _, _, _, _) => BoundedWorker(c, s, e);
    case Requeue(_, _) => BoundedWorker(c, s, e);
    case _ =>
  }

  lemma RowsStayNumbered(c: Config, s: State, e: Event)
    requires Enabled(s, e) && RowsNumbered(s)
    ensures RowsNumbered(Next(c, s, e))
  {
  }

  lemma GoodStep(c: Config, s: State, e: Event)
    requires Enabled(s, e) && InTime(s, e) && Good(s) && Bounded(s)
    ensures Good(Next(c, s, e)) && Bounded(Next(c, s, e))
  {
    HandlersHoldStep(c, s, e);
    StepKeepsIff(c, s, e);
    BoundedStep(c, s, e);
    RowsStayNumbered(c, s, e);
  }

  /** Every in-time run of an initially empty queue reaches only such states. */
  lemma {:induction false} ReachableIsGood(c: Config, s: State, es: seq<Event>)
    requires ValidRun(c, s, es) && AllInTime(c, s, es) && Good(s) && Bounded(s)
    ensures Good(Run(c, s, es)) && Bounded(Run(c, s, es))
    decreases |es|
  {
    if es != [] {
      GoodStep(c, s, es[0]);
      ReachableIsGood(c, Next(c, s, es[0]), es[1..]);
    }
  }

  lemma ClaimSpends(c: Config, s: State, head: Message, at: int)
    requires head in s.ready && head.availableAt <= at && head.key != "" && Unique(s) && Unique(PopEffect(c, s, head, at))
    ensures Budget(PopEffect(c, s, head, at), head.key) + 1 == Budget(s, head.key)
  {
    BudgetOfReady(s, head);
    BudgetOfProcessing(PopEffect(c, s, head, at), head.(attempt := head.attempt + 1));
  }

  lemma PopSpends(c: Config, s: State, e: Event, k: string)
    requires e.Pop? && Enabled(s, e) && Unique(s) && Unique(Next(c, s, e)) && k != ""
    ensures Budget(Next(c, s, e), k) + Count(HandsOut(e, k)) == Budget(s, k)
  {
    var s' := Next(c, s, e);
    if HandsOut(e, k) {
      var claimed := PopEffect(c, s, e.head, e.at);
      BudgetFrame(claimed, s', k);
      ClaimSpends(c, s, e.head, e.at);
    } else {
      BudgetFrame(s, s', k);
    }
  }

  lemma FailureSpends(s: State, s': State, m: Message, retry: Message)
    requires Unique(s) && Unique(s') && m in s.processing && m.key != "" && m.maxAttempts >= 1
    requires retry.key == m.key && retry.maxAttempts == m.maxAttempts && retry.attempt == m.attempt
    requires s'.processing == s.processing - {m}
    requires s'.ready == if Exhausted(m) then s.ready else s.ready[retry := retry.availableAt]
    ensures Budget(s', m.key) == Budget(s, m.key)
  {
    BudgetOfProcessing(s, m);
    if Exhausted(m) {
      assert !Live(s', m.key);
      BudgetOfIdle(s', m.key);
    } else {
      BudgetOfReady(s', retry);
    }
  }

  lemma FailSpends(c: Config, s: State, e: Event, k: string)
    requires e.Fail? && Enabled(s, e) && Unique(s) && Unique(Next(c, s, e)) && k != ""
    requires s.handlers[e.h].msg.key == k ==> s.handlers[e.h].msg in s.processing
    requires s.handlers[e.h].msg.key == k ==> s.handlers[e.h].msg.maxAttempts >= 1
    ensures Budget(Next(c, s, e), k) == Budget(s, k)
  {
    var s', m := Next(c, s, e), s.handlers[e.h].msg;
    if m.key != k {
      BudgetFrame(s, s', k);
    } else {
      FailureSpends(s, s', m, Retry(m, e.delay, e.cause, e.at));
    }
  }

  lemma RequeueSpends(c: Config, s: State, e: Event, k: string)
    requires e.Requeue? && Enabled(s, e) && Unique(s) && Unique(Next(c, s, e)) && k != ""
    ensures Budget(Next(c, s, e), k) <= Budget(s, k) + Count(Lapses(e, k))
    ensures !Lapses(e, k) ==> Budget(Next(c, s, e), k) == Budget(s, k)
  {
    var s' := Next(c, s, e);
    if Lapses(e, k) {
      BudgetOfProcessing(s, e.msg);
      BudgetOfReady(s', e.msg.(availableAt := e.at));
    } else {
      BudgetFrame(s, s', k);
    }
  }

  lemma AckSpends(c: Config, s: State, e: Event, k: string)
    requires e.Ack? && Enabled(s, e) && Unique(s) && Unique(Next(c, s, e)) && k != ""
    requires s.handlers[e.h].msg.key == k ==> s.handlers[e.h].msg in s.processing
    ensures Budget(Next(c, s, e), k) <= Budget(s, k)
    ensures !Succeeds(s, e, k) ==> Budget(Next(c, s, e), k) == Budget(s, k)
  {
    var s', m := Next(c, s, e), s.handlers[e.h].msg;
    if m.key == k {
      BudgetOfProcessing(s, m);
      assert !Live(s', k);
      BudgetOfIdle(s', k);
    } else {
      BudgetFrame(s, s', k);
    }
  }

  /** One event spends at most one unit per hand-out and gains at most one per expiry. */
  lemma StepSpends(c: Config, s: State, e: Event, k: string)
    requires Enabled(s, e) && InTime(s, e) && Good(s) && Bounded(s) && k != "" && !Reaccepts(s, e, k)
    ensures Good(Next(c, s, e)) && Bounded(Next(c, s, e))
    ensures Budget(Next(c, s, e), k) + Count(HandsOut(e, k)) <= Budget(s, k) + Count(Lapses(e, k))
    ensures !Lapses(e, k) && !Succeeds(s, e, k) ==>
              Budget(Next(c, s, e), k) + Count(HandsOut(e, k)) == Budget(s, k)
  {
    GoodStep(c, s, e);
    StepSpendsCore(c, s, e, k);
  }

  lemma OtherSpends(c: Config, s: State, e: Event, k: string)
    requires Enabled(s, e) && !e.Pop? && !e.Ack? && !e.Fail? && !e.Requeue?
    requires Unique(s) && Unique(Next(c, s, e)) && k != "" && !Reaccepts(s, e, k)
    ensures Budget(Next(c, s, e), k) == Budget(s, k)
  {
    var s' := Next(c, s, e);
    assert s'.processing == s.processing;
    forall m: Message | m.key == k ensures m in s.ready <==> m in s'.ready {
    }
    BudgetFrame(s, s', k);
  }

  lemma StepSpendsCore(c: Config, s: State, e: Event, k: string)
    requires Enabled(s, e) && InTime(s, e) && Unique(s) && HandlersHold(s) && Bounded(s)
    requires Unique(Next(c, s, e)) && k != "" && !Reaccepts(s, e, k)
    ensures Budget(Next(c, s, e), k) + Count(HandsOut(e, k)) <= Budget(s, k) + Count(Lapses(e, k))
    ensures !Lapses(e, k) && !Succeeds(s, e, k) ==>
              Budget(Next(c, s, e), k) + Count(HandsOut(e, k)) == Budget(s, k)
  {
    match e
    case Pop(_, _) => PopSpends(c, s, e, k);
    case Ack(h, at) => InTimeOwns(s, h, at); AckSpends(c, s, e, k);
    case Fail(h, _, _, _, at) => InTimeOwns(s, h, at); FailSpends(c, s, e, k);
    case Requeue(_, _) => RequeueSpends(c, s, e, k);
    case _ => OtherSpends(c, s, e, k);
  }

  function Handed(c: Config, s: State, es: seq<Event>, k: string): nat
    requires ValidRun(c, s, es)
    decreases |es|
  {
    if es == [] then 0 else Count(HandsOut(es[0], k)) + Handed(c, Next(c, s, es[0]), es[1..], k)
  }

  function Lapsed(c: Config, s: State, es: seq<Event>, k: string): nat
    requires ValidRun(c, s, es)
    decreases |es|
  {
    if es == [] then 0 else Count(Lapses(es[0], k)) + Lapsed(c, Next(c, s, es[0]), es[1..], k)
  }

  predicate NeverReaccepted(c: Config, s: State, es: seq<Event>, k: string)
    requires ValidRun(c, s, es)
    decreases |es|
  {
    es == [] || (!Reaccepts(s, es[0], k) && NeverReaccepted(c, Next(c, s, es[0]), es[1..], k))
  }

  predicate NeverSucceeds(c: Config, s: State, es: seq<Event>, k: string)
    requires ValidRun(c, s, es)
    decreases |es|
  {
    es == [] || (!Succeeds(s, es[0], k) && NeverSucceeds(c, Next(c, s, es[0]), es[1..], k))
  }

  lemma {:induction false} RunSpends(c: Config, s: State, es: seq<Event>, k: string)
    requires ValidRun(c, s, es) && AllInTime(c, s, es) && Good(s) && Bounded(s)
    requires k != "" && NeverReaccepted(c, s, es, k)
    ensures Handed(c, s, es, k) + Budget(Run(c, s, es), k) <= Budget(s, k) + Lapsed(c, s, es, k)
    ensures Lapsed(c, s, es, k) == 0 && NeverSucceeds(c, s, es, k) ==>
              Handed(c, s, es, k) + Budget(Run(c, s, es), k) == Budget(s, k)
    decreases |es|
  {
    if es != [] {
      StepSpends(c, s, es[0], k);
      RunSpends(c, Next(c, s, es[0]), es[1..], k);
    }
  }

  lemma BudgetIsNatural(s: State, k: string)
    ensures Budget(s, k) >= 0
  {
  }

  // ---------- a task that always fails ----------

  predicate Fails(s: State, e: Event, k: string)
    requires Enabled(s, e)
  {
    e.Fail? && s.handlers[e.h].msg.key == k
  }

  function Failures(c: Config, s: State, es: seq<Event>, k: string): nat
    requires ValidRun(c, s, es)
    decreases |es|
  {
    if es == [] then 0 else Count(Fails(s, es[0], k)) + Failures(c, Next(c, s, es[0]), es[1..], k)
  }

  /** Every failure of `k` whose attempts are used up gets its dead-letter row. */
  predicate AllBuried(c: Config, s: State, es: seq<Event>, k: string)
    requires ValidRun(c, s, es)
    decreases |es|
  {
    es == [] || ((Fails(s, es[0], k) ==> es[0].stored) && AllBuried(c, Next(c, s, es[0]), es[1..], k))
  }

  ghost predicate DeadLettered(s: State, id: TaskId) {
    exists row :: row in s.dlq && Id(s.dlq[row].payload) == id && s.dlq[row].attempts == id.maxAttempts
  }

  /** Where a keyed task can be: in the ready set, in the processing set or in a dead-letter row. */
  datatype Place = Waiting(doc: Message) | Taken(doc: Message) | Buried(row: nat)

  /** The task is there after `n` failures. */
  ghost predicate Stage(s: State, id: TaskId, n: int, p: Place) {
    match p
    case Waiting(m) => m in s.ready && Id(m) == id && m.attempt == n < id.maxAttempts
    case Taken(m) => m in s.processing && Id(m) == id && m.attempt == n + 1 <= id.maxAttempts
    case Buried(row) =>
      && row in s.dlq && Id(s.dlq[row].payload) == id && s.dlq[row].attempts == id.maxAttempts == n
      && !Live(s, id.key)
  }

  lemma ClaimStage(c: Config, s: State, e: Event, id: TaskId, n: int, p: Place)
    requires Enabled(s, e) && HandsOut(e, id.key) && Unique(s) && id.key != "" && Stage(s, id, n, p)
    ensures Stage(Next(c, s, e), id, n, Taken(Claimed(e.head)))
  {
  }

  lemma FailureStage(c: Config, s: State, e: Event, id: TaskId, n: int, p: Place) returns (p': Place)
    requires Enabled(s, e) && Fails(s, e, id.key) && e.stored && Unique(s) && id.key != "" && id.maxAttempts >= 1
    requires s.handlers[e.h].msg in s.processing && Stage(s, id, n, p)
    ensures Stage(Next(c, s, e), id, n + 1, p')
  {
    var m := s.handlers[e.h].msg;
    assert p == Taken(m);
    p' := if Exhausted(m) then Buried(s.nextRow) else Waiting(Retry(m, e.delay, e.cause, e.at));
  }

  lemma CopiesStay(c: Config, s: State, e: Event, k: string)
    requires Enabled(s, e) && k != ""
    requires !HandsOut(e, k) && !Fails(s, e, k) && !Lapses(e, k) && !Succeeds(s, e, k) && !Reaccepts(s, e, k)
    ensures forall m: Message :: m.key == k ==>
              (m in s.ready <==> m in Next(c, s, e).ready) && (m in s.processing <==> m in Next(c, s, e).processing)
  {
  }

  /** Nothing but failures ends an attempt on `k`. */
  predicate OnlyFailure(s: State, e: Event, k: string)
    requires Enabled(s, e)
  {
    InTime(s, e) && !Reaccepts(s, e, k) && !Lapses(e, k) && !Succeeds(s, e, k) && (Fails(s, e, k) ==> e.stored)
  }

  predicate OnlyFailures(c: Config, s: State, es: seq<Event>, k: string)
    requires ValidRun(c, s, es)
    decreases |es|
  {
    es == [] || (OnlyFailure(s, es[0], k) && OnlyFailures(c, Next(c, s, es[0]), es[1..], k))
  }

  lemma {:induction false} AlwaysFailing(c: Config, s: State, es: seq<Event>, k: string)
    requires ValidRun(c, s, es) && AllInTime(c, s, es) && NeverReaccepted(c, s, es, k)
    requires NeverSucceeds(c, s, es, k) && Lapsed(c, s, es, k) == 0 && AllBuried(c, s, es, k)
    ensures OnlyFailures(c, s, es, k)
    decreases |es|
  {
    if es != [] {
      AlwaysFailing(c, Next(c, s, es[0]), es[1..], k);
    }
  }

  lemma IdleStage(c: Config, s: State, e: Event, id: TaskId, n: int, p: Place)
    requires Enabled(s, e) && Good(s) && id.key != "" && Stage(s, id, n, p) && OnlyFailure(s, e, id.key)
    requires !HandsOut(e, id.key) && !Fails(s, e, id.key)
    ensures Stage(Next(c, s, e), id, n, p)
  {
    CopiesStay(c, s, e, id.key);
    if p.Buried? { RowSurvives(c, s, e, p.row); }
  }

  ghost predicate Tracked(s: State, id: TaskId, n: int, p: Place) {
    Good(s) && Bounded(s) && id.key != "" && id.maxAttempts >= 1 && Stage(s, id, n, p)
  }

  /** Each failure moves the task one stage on, and nothing else moves it. */
  lemma StageStep(c: Config, s: State, e: Event, id: TaskId, n: int, p: Place) returns (p': Place)
    requires Enabled(s, e) && Tracked(s, id, n, p) && OnlyFailure(s, e, id.key)
    ensures Tracked(Next(c, s, e), id, n + Count(Fails(s, e, id.key)), p')
  {
    GoodStep(c, s, e);
    if HandsOut(e, id.key) {
      ClaimStage(c, s, e, id, n, p);
      p' := Taken(Claimed(e.head));
    } else if Fails(s, e, id.key) {
      InTimeOwns(s, e.h, e.at);
      p' := FailureStage(c, s, e, id, n, p);
    } else {
      IdleStage(c, s, e, id, n, p);
      p' := p;
    }
  }

  lemma {:induction false} StageAfter(c: Config, s: State, es: seq<Event>, id: TaskId, n: int, p: Place) returns (p': Place)
    requires ValidRun(c, s, es) && Tracked(s, id, n, p) && OnlyFailures(c, s, es, id.key)
    ensures Tracked(Run(c, s, es), id, n + Failures(c, s, es, id.key), p')
    decreases |es|
  {
    if es == [] {
      p' := p;
    } else {
      p' := StageStep(c, s, es[0], id, n, p);
      p' := StageAfter(c, Next(c, s, es[0]), es[1..], id, n + Count(Fails(s, es[0], id.key)), p');
    }
  }

  /**
   A freshly accepted task is handed out at most `maxAttempts` times plus once per expired claim. If no claim
   expires and no attempt succeeds, it is gone from the sets exactly when it has failed `maxAttempts` times;
   then it was handed out exactly so often and it has a dead-letter row saying so.
   */
  lemma FreshTaskRunBound(c: Config, s: State, t: Task, at: int, es: seq<Event>)
    requires Good(s) && Bounded(s) && s.clock <= at && t.key != "" && t.key !in s.dedup && t.attempt <= 0
    requires var s' := Next(c, s, Enqueue(t, at));
             ValidRun(c, s', es) && AllInTime(c, s', es) && NeverReaccepted(c, s', es, t.key)
    ensures var s' := Next(c, s, Enqueue(t, at));
            var k, max := t.key, Admitted(c, t, at).maxAttempts;
            && Handed(c, s', es, k) <= max + Lapsed(c, s', es, k)
            && (Lapsed(c, s', es, k) == 0 && NeverSucceeds(c, s', es, k) ==>
                  && (!Live(Run(c, s', es), k) ==> Handed(c, s', es, k) == max)
                  && (AllBuried(c, s', es, k) ==>
                        && Failures(c, s', es, k) <= max
                        && (!Live(Run(c, s', es), k) <==> Failures(c, s', es, k) == max)
                        && (!Live(Run(c, s', es), k) ==> DeadLettered(Run(c, s', es), Id(Admitted(c, t, at))))))
  {
    var e := Enqueue(t, at);
    var s', m := Next(c, s, e), Admitted(c, t, at);
    GoodStep(c, s, e);
    BudgetOfReady(s', m);
    RunSpends(c, s', es, t.key);
    BudgetIsNatural(Run(c, s', es), t.key);
    if !Live(Run(c, s', es), t.key) {
      BudgetOfIdle(Run(c, s', es), t.key);
    }
    if Lapsed(c, s', es, t.key) == 0 && NeverSucceeds(c, s', es, t.key) && AllBuried(c, s', es, t.key) {
      AlwaysFailing(c, s', es, t.key);
      var p := StageAfter(c, s', es, Id(m), 0, Waiting(m));
      assert p.Waiting? || p.Taken? ==> Live(Run(c, s', es), t.key);
    }
  }

  // ---------- when a task is handed out ----------

  /** Every ready entry is scored by the due time written in it. */
  predicate ScoresMatch(s: State) {
    forall m :: m in s.ready ==> s.ready[m] == m.availableAt
  }

  lemma {:induction false} ScoresAlwaysMatch(c: Config, s: State, es: seq<Event>)
    requires ValidRun(c, s, es) && ScoresMatch(s)
    ensures ScoresMatch(Run(c, s, es))
    decreases |es|
  {
    if es != [] {
      ScoresAlwaysMatch(c, Next(c, s, es[0]), es[1..]);
    }
  }

  /**
   After any run, a worker turn at time `at` starts a handler exactly when some ready task is
   due, and then the earliest due one; otherwise it leaves the queue as it was.
   */
  lemma WorkerTurnIsEarliestDue(c: Config, clock: int, es: seq<Event>, head: Message, at: int)
    requires ValidRun(c, Empty(clock), es)
    requires var s := Run(c, Empty(clock), es); Enabled(s, Pop(head, at))
    ensures var s := Run(c, Empty(clock), es);
            var s' := Next(c, s, Pop(head, at));
            && (s'.handlers != s.handlers <==> exists m :: m in s.ready && m.availableAt <= at)
            && (s'.handlers != s.handlers ==>
                  head.availableAt <= at && forall m :: m in s.ready ==> head.availableAt <= m.availableAt)
            && (s'.handlers == s.handlers ==> s' == s.(clock := at))
  {
    ScoresAlwaysMatch(c, Empty(clock), es);
    HandlerIdsFresh(c, Empty(clock), es);
    var s := Run(c, Empty(clock), es);
    if head.availableAt <= at {
      assert s.nextHandler in Next(c, s, Pop(head, at)).handlers;
    } else {
      assert s.ready[head := head.availableAt] == s.ready;
    }
  }

  lemma {:induction false} HandlerIdsFresh(c: Config, s: State, es: seq<Event>)
    requires ValidRun(c, s, es) && forall h :: h in s.handlers ==> h < s.nextHandler
    ensures forall h :: h in Run(c, s, es).handlers ==> h < Run(c, s, es).nextHandler
    decreases |es|
  {
    if es != [] {
      HandlerIdsFresh(c, Next(c, s, es[0]), es[1..]);
    }
  }

  /** Nobody finishes a handler of `m` in the run. */
  predicate Unfinished(c: Config, s: State, es: seq<Event>, m: Message)
    requires ValidRun(c, s, es)
    decreases |es|
  {
    es == [] ||
    (&& ((es[0].Ack? || es[0].Fail?) ==> s.handlers[es[0].h].msg != m)
     && Unfinished(c, Next(c, s, es[0]), es[1..], m))
  }

  lemma {:induction false} HiddenUntil(c: Config, s: State, es: seq<Event>, m: Message, deadline: int)
    requires ValidRun(c, s, es) && Unfinished(c, s, es, m)
    requires m in s.processing && s.processing[m] >= deadline
    requires forall e :: e in es ==> e.at < deadline && deadline <= e.at + c.Visibility()
    ensures m in Run(c, s, es).processing
    decreases |es|
  {
    if es != [] {
      assert es[0] in es;
      HiddenUntil(c, Next(c, s, es[0]), es[1..], m, deadline);
    }
  }

  lemma {:induction false} RunClock(c: Config, s: State, es: seq<Event>)
    requires ValidRun(c, s, es)
    ensures forall e :: e in es ==> s.clock <= e.at
    decreases |es|
  {
    if es != [] {
      RunClock(c, Next(c, s, es[0]), es[1..]);
      assert es == [es[0]] + es[1..];
    }
  }

  /** A claimed task stays in the processing set for the whole visibility timeout unless its handler finishes. */
  lemma ClaimHidesTask(c: Config, s: State, head: Message, at: int, es: seq<Event>)
    requires Enabled(s, Pop(head, at)) && head.availableAt <= at
    requires var s' := Next(c, s, Pop(head, at));
             && ValidRun(c, s', es) && Unfinished(c, s', es, head.(attempt := head.attempt + 1))
             && forall e :: e in es ==> e.at < at + c.Visibility()
    ensures head.(attempt := head.attempt + 1) in Run(c, Next(c, s, Pop(head, at)), es).processing
  {
    var s' := Next(c, s, Pop(head, at));
    RunClock(c, s', es);
    HiddenUntil(c, s', es, head.(attempt := head.attempt + 1), at + c.Visibility());
  }
}
