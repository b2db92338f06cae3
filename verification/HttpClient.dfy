/**
 The retrying HTTP client against a shared circuit breaker: any number of calls
 interleave, each going through admission, sending, reporting and backing off.
 */
module HttpClient {
  import opened Common
  import opened Breaker
  import opened BreakerOpening

  const OPEN_CIRCUIT := "resilience: circuit breaker open"

  /** What sending one request gave: a status with its status line, or a transport error. */
  datatype Reply = Answered(status: int, line: string) | Broken(error: string)

  predicate Succeeded(r: Reply) {
    r.Answered? && r.status < 500
  }

  function Complaint(r: Reply): string {
    match r
    case Answered(_, line) => line
    case Broken(error) => error
  }

  datatype Phase =
    | Gate
    | Sending
    | Backoff
    | Returned(response: Option<int>, error: Option<string>)
    | Delegated(cause: string)

  /** One call of `Do` with its attempt number and what it has asked of and told the breaker. */
  datatype Call = Call(phase: Phase, max: int, fallback: bool, attempt: int, admitted: nat, reported: nat)

  function Opening(maxAttempts: int, fallback: bool): Call {
    Call(Gate, if maxAttempts <= 0 then 1 else maxAttempts, fallback, 1, 0, 0)
  }

  /** Leaving the retry loop without a response. */
  function GiveUp(k: Call, cause: string): Call {
    k.(phase := if k.fallback then Delegated(cause) else Returned(None, Some(cause)))
  }

  datatype System = System(breaker: State, calls: map<nat, Call>)

  datatype Move =
    | Begin(id: nat, maxAttempts: int, fallback: bool, at: int)
    | AskGate(id: nat, at: int)
    | Receive(id: nat, reply: Reply, at: int)
    | Wake(id: nat, at: int)
    | Cancel(id: nat, error: string, at: int)

  predicate Possible(y: System, v: Move) {
    match v
    case Begin(id, _, _, _) => id !in y.calls
    case AskGate(id, _) => id in y.calls && y.calls[id].phase.Gate?
    case Receive(id, _, _) => id in y.calls && y.calls[id].phase.Sending?
    case Wake(id, _) => id in y.calls && y.calls[id].phase.Backoff?
    case Cancel(id, _, _) => id in y.calls && y.calls[id].phase.Backoff?
  }

  function Ask(c: Config, b: State, k: Call, at: int): Call {
    if Admits(c, b, at) then k.(phase := Sending, admitted := k.admitted + 1) else GiveUp(k, OPEN_CIRCUIT)
  }

  function Settle(k: Call, reply: Reply): Call {
    var told := k.(reported := k.reported + 1);
    if Succeeded(reply) then told.(phase := Returned(Some(reply.status), None))
    else if k.attempt == k.max then GiveUp(told, Complaint(reply))
    else told.(phase := Backoff)
  }

  function Perform(c: Config, y: System, v: Move): System
    requires Possible(y, v)
  {
    match v
    case Begin(id, max, fallback, _) => y.(calls := y.calls[id := Opening(max, fallback)])
    case AskGate(id, at) =>
      System(Step(c, y.breaker, Asked(at)), y.calls[id := Ask(c, y.breaker, y.calls[id], at)])
    case Receive(id, reply, at) =>
      System(Step(c, y.breaker, Reported(Succeeded(reply), at)), y.calls[id := Settle(y.calls[id], reply)])
    case Wake(id, _) =>
      y.(calls := y.calls[id := y.calls[id].(phase := Gate, attempt := y.calls[id].attempt + 1)])
    case Cancel(id, error, _) =>
      y.(calls := y.calls[id := y.calls[id].(phase := Returned(None, Some(error)))])
  }

  predicate ValidRun(c: Config, y: System, vs: seq<Move>)
    decreases |vs|
  {
    vs == [] || (Possible(y, vs[0]) && ValidRun(c, Perform(c, y, vs[0]), vs[1..]))
  }

  function RunAll(c: Config, y: System, vs: seq<Move>): System
    requires ValidRun(c, y, vs)
    decreases |vs|
  {
    if vs == [] then y else RunAll(c, Perform(c, y, vs[0]), vs[1..])
  }

  // ---------- what every call keeps ----------

  predicate Finished(k: Call) {
    k.phase.Returned? || k.phase.Delegated?
  }

  /**
   A call has been admitted at most once per attempt and has reported each admitted attempt once,
   except the one it is sending; it returns exactly one of a response and an error.
   */
  predicate Accounted(k: Call) {
    && 1 <= k.attempt <= k.max
    && match k.phase
       case Gate => k.admitted == k.reported == k.attempt - 1
       case Sending => k.admitted == k.attempt && k.reported == k.attempt - 1
       case Backoff => k.admitted == k.reported == k.attempt < k.max
       case Returned(response, error) => k.admitted == k.reported <= k.attempt && response.Some? != error.Some?
       case Delegated(_) => k.fallback && k.admitted == k.reported <= k.attempt
  }

  predicate AllAccounted(y: System) {
    forall id :: id in y.calls ==> Accounted(y.calls[id])
  }

  lemma {:induction false} CallsAccounted(c: Config, y: System, vs: seq<Move>)
    requires ValidRun(c, y, vs) && AllAccounted(y)
    ensures AllAccounted(RunAll(c, y, vs))
    decreases |vs|
  {
    if vs != [] {
      CallsAccounted(c, Perform(c, y, vs[0]), vs[1..]);
    }
  }

  /**
   However calls interleave on one breaker, a finished call was admitted at most `max` times, told
   the breaker about each admitted attempt once, and without a fallback returned either a response
   or an error, never neither.
   */
  lemma FinishedCallBalance(c: Config, b: State, vs: seq<Move>, id: nat)
    requires ValidRun(c, System(b, map[]), vs)
    requires id in RunAll(c, System(b, map[]), vs).calls && Finished(RunAll(c, System(b, map[]), vs).calls[id])
    ensures var k := RunAll(c, System(b, map[]), vs).calls[id];
            && k.admitted == k.reported <= k.max
            && (!k.fallback ==> k.phase.Returned? && (k.phase.response.Some? <==> k.phase.error.None?))
  {
    CallsAccounted(c, System(b, map[]), vs);
  }

  function AdmittedBy(y: System, id: nat): nat {
    if id in y.calls then y.calls[id].admitted else 0
  }

  /** While the breaker's cool-off lasts, no interleaving of calls gets an attempt admitted. */
  lemma {:induction false} NoAdmissionInCoolOff(c: Config, y: System, vs: seq<Move>, id: nat)
    requires ValidRun(c, y, vs) && y.breaker.mode == Open
    requires forall v :: v in vs ==> v.at < y.breaker.openedAt + c.openFor
    ensures RunAll(c, y, vs).breaker == y.breaker
    ensures AdmittedBy(RunAll(c, y, vs), id) == AdmittedBy(y, id)
    decreases |vs|
  {
    if vs != [] {
      assert vs[0] in vs;
      NoAdmissionInCoolOff(c, Perform(c, y, vs[0]), vs[1..], id);
    }
  }

  /** The interval starts at the instant of opening: the breaker remembers when it opened. */
  lemma OpeningIsTimed(c: Config, y: System, v: Move)
    requires Possible(y, v) && y.breaker.mode != Open && Perform(c, y, v).breaker.mode == Open
    ensures v.Receive? && Perform(c, y, v).breaker.openedAt == v.at
  {
  }

  // ---------- what the calls say ----------

  /** What the breaker hears of a run: each request for admission, and each reply as a success below status 500. */
  function Heard(vs: seq<Move>): seq<Event> {
    if vs == [] then []
    else match vs[0]
      case AskGate(_, at) => [Asked(at)] + Heard(vs[1..])
      case Receive(_, reply, at) => [Reported(reply.Answered? && reply.status < 500, at)] + Heard(vs[1..])
      case _ => Heard(vs[1..])
  }

  /** However calls interleave, the breaker is where the requests and outcomes alone bring it. */
  lemma {:induction false} BreakerHearsOutcomes(c: Config, y: System, vs: seq<Move>)
    requires ValidRun(c, y, vs)
    ensures RunAll(c, y, vs).breaker == Run(c, y.breaker, Heard(vs))
    decreases |vs|
  {
    if vs != [] {
      BreakerHearsOutcomes(c, Perform(c, y, vs[0]), vs[1..]);
      if vs[0].AskGate? || vs[0].Receive? {
        assert Heard(vs)[1..] == Heard(vs[1..]);
      }
    }
  }

  /** What a call met in a run: the replies it got, whether the breaker refused it, and the error it was canceled with. */
  datatype Log = Log(replies: seq<Reply>, refused: bool, canceled: Option<string>)

  function Noted(c: Config, b: State, log: Log, v: Move, id: nat): Log {
    if v.id != id then log
    else match v
      case AskGate(_, at) => log.(refused := b.mode == Open && at - b.openedAt < c.openFor)
      case Receive(_, reply, _) => log.(replies := log.replies + [reply])
      case Cancel(_, error, _) => log.(canceled := Some(error))
      case _ => log
  }

  function NotedAll(c: Config, y: System, vs: seq<Move>, log: Log, id: nat): Log
    requires ValidRun(c, y, vs)
    decreases |vs|
  {
    if vs == [] then log else NotedAll(c, Perform(c, y, vs[0]), vs[1..], Noted(c, y.breaker, log, vs[0], id), id)
  }

  const EMPTY_LOG := Log([], false, None)

  predicate AllFailed(rs: seq<Reply>) {
    forall i :: 0 <= i < |rs| ==> !Succeeded(rs[i])
  }

  /** Why a call gave up: the breaker refused it, or its last allowed reply failed with this complaint. */
  predicate GaveUpOver(k: Call, log: Log, cause: string) {
    var rs := log.replies;
    if log.refused then cause == OPEN_CIRCUIT else |rs| == k.max >= 1 && cause == Complaint(rs[|rs| - 1])
  }

  /** A call returns its first good reply, and otherwise the error that ended it. */
  predicate Follows(k: Call, log: Log) {
    var rs := log.replies;
    && 1 <= k.attempt <= k.max && |rs| == k.reported
    && (if k.phase.Returned? && k.phase.response.Some? then
          && |rs| > 0 && AllFailed(rs[..|rs| - 1]) && Succeeded(rs[|rs| - 1])
          && k.phase.response.value == rs[|rs| - 1].status && k.phase.error.None?
        else AllFailed(rs))
    && match k.phase
       case Returned(None, error) =>
         error.Some? && (error == log.canceled || (!k.fallback && GaveUpOver(k, log, error.value)))
       case Delegated(cause) => k.fallback && log.canceled.None? && GaveUpOver(k, log, cause)
       case Gate => |rs| == k.attempt - 1 && log.canceled.None? && !log.refused
       case Sending => |rs| == k.attempt - 1 && log.canceled.None? && !log.refused
       case Backoff => |rs| == k.attempt < k.max && log.canceled.None? && !log.refused
       case _ => log.canceled.None?
  }

  lemma FollowsReply(k: Call, log: Log, reply: Reply)
    requires Follows(k, log) && k.phase.Sending?
    ensures Follows(Settle(k, reply), log.(replies := log.replies + [reply]))
  {
    var rs := log.replies + [reply];
    assert rs[..|rs| - 1] == log.replies;
  }

  lemma FollowsStep(c: Config, y: System, v: Move, id: nat, log: Log)
    requires Possible(y, v) && (if id in y.calls then Follows(y.calls[id], log) else log == EMPTY_LOG)
    ensures var y', log' := Perform(c, y, v), Noted(c, y.breaker, log, v, id);
            if id in y'.calls then Follows(y'.calls[id], log') else log' == EMPTY_LOG
  {
    if v.id == id {
      match v
      case Receive(_, reply, _) => FollowsReply(y.calls[id], log, reply);
      case _ =>
    }
  }

  /**
   However calls interleave, a call that returned a response returned its first good reply, and one that returned
   an error or went to its fallback got no good reply: it was refused by the breaker, used up its attempts and
   ended with its last complaint, or was canceled.
   */
  lemma {:induction false} CallsFollowReplies(c: Config, y: System, vs: seq<Move>, id: nat, log: Log)
    requires ValidRun(c, y, vs) && (if id in y.calls then Follows(y.calls[id], log) else log == EMPTY_LOG)
    ensures var k := RunAll(c, y, vs); id in k.calls ==> Follows(k.calls[id], NotedAll(c, y, vs, log, id))
    decreases |vs|
  {
    if vs != [] {
      FollowsStep(c, y, vs[0], id, log);
      CallsFollowReplies(c, Perform(c, y, vs[0]), vs[1..], id, Noted(c, y.breaker, log, vs[0], id));
    }
  }

  // ---------- the client built without a breaker ----------

  const ONE_SECOND := 1_000_000_000

  /**
   The breaker a call makes for itself when it is given none does trip: the first failure opens it,
   and the next attempt is admitted exactly when a whole second has gone by.
   */
  lemma DefaultBreakerTrips(asked: int, failed: int, again: int)
    ensures var c := Normalised(1, 1.0, ONE_SECOND);
            var b := Run(c, Fresh, [Asked(asked), Reported(false, failed)]);
            b.mode == Open && (Admits(c, b, again) <==> again - failed >= ONE_SECOND)
  {
    var c := Normalised(1, 1.0, ONE_SECOND);
    var es := [Asked(asked), Reported(false, failed)];
    assert es[1..] == [Reported(false, failed)] && es[1..][1..] == [];
    assert Step(c, Fresh, es[0]) == Fresh;
    assert Trips(c, 1, 0);
    assert Run(c, Fresh, es) == Run(c, Fresh, es[1..]) == Step(c, Fresh, Reported(false, failed));
  }

  /** The first outcome reported in a run, if any. */
  function FirstOutcome(es: seq<Event>): Option<bool> {
    if es == [] then None else if es[0].Reported? then Some(es[0].success) else FirstOutcome(es[1..])
  }

  ghost predicate NeverOpen(c: Config, b: State, es: seq<Event>)
    decreases |es|
  {
    b.mode != Open && (es != [] ==> NeverOpen(c, Step(c, b, es[0]), es[1..]))
  }

  lemma {:induction false} HeldClosedNeverOpens(c: Config, b: State, es: seq<Event>)
    requires b.mode == Closed && Bounded(c, b) && !CanTrip(c, b)
    ensures NeverOpen(c, b, es)
    decreases |es|
  {
    if es != [] {
      OneSuccessHoldsItClosed(c, b, [es[0]]);
      assert [es[0]][1..] == [] && Run(c, b, [es[0]]) == Step(c, b, es[0]);
      BoundedStep(c, b, es[0]);
      HeldClosedNeverOpens(c, Step(c, b, es[0]), es[1..]);
    }
  }

  /**
   The breaker a call makes for itself never opens in a run exactly when the run reports no outcome
   or the first outcome it reports is a success.
   */
  lemma {:induction false} DefaultBreakerNeverOpensIff(es: seq<Event>)
    ensures NeverOpen(Normalised(1, 1.0, ONE_SECOND), Fresh, es)
       <==> FirstOutcome(es).None? || FirstOutcome(es).value
    decreases |es|
  {
    var c := Normalised(1, 1.0, ONE_SECOND);
    if es != [] {
      var next := Step(c, Fresh, es[0]);
      match es[0] {
        case Asked(_) =>
          assert next == Fresh;
          DefaultBreakerNeverOpensIff(es[1..]);
        case Reported(success, _) =>
          if success {
            assert !Trips(c, 0, 1) && next == State(Closed, 0, 1, 0);
            HeldClosedNeverOpens(c, next, es[1..]);
          } else {
            assert Trips(c, 1, 0) && next.mode == Open;
            assert !NeverOpen(c, next, es[1..]);
          }
      }
    }
  }

  // ---------- one call on its own ----------

  lemma {:induction false} RunSnoc(c: Config, b: State, es: seq<Event>, e: Event)
    ensures Run(c, b, es + [e]) == Step(c, Run(c, b, es), e)
    decreases |es|
  {
    if es == [] {
      assert ([] + [e])[1..] == [];
    } else {
      assert (es + [e])[1..] == es[1..] + [e];
      RunSnoc(c, Step(c, b, es[0]), es[1..], e);
    }
  }

  lemma {:induction false} ReportsSnoc(es: seq<Event>, e: Event)
    ensures Reports(es + [e]) == Reports(es) + if e.Reported? then 1 else 0
    decreases |es|
  {
    if es == [] {
      assert ([] + [e])[1..] == [];
    } else {
      assert (es + [e])[1..] == es[1..] + [e];
      ReportsSnoc(es[1..], e);
    }
  }

  /**
   What a call meets: the i-th attempt asks for admission at `asked(i)`, gets `reply(i)` and reports it at
   `answered(i)`; `canceled(i)` is the context's error if it ends in the backoff after it.
   */
  datatype Script = Script(asked: int -> int, reply: int -> Reply, answered: int -> int, canceled: int -> Option<string>)

  /** What the breaker sees of the first `n` attempts if all are admitted. */
  function Attempts(w: Script, n: nat): seq<Event> {
    if n == 0 then []
    else Attempts(w, n - 1) + [Asked(w.asked(n))] + [Reported(Succeeded(w.reply(n)), w.answered(n))]
  }

  /** Each attempt is one request and one outcome, in order: a reply below status 500 is a success, anything else a failure. */
  lemma {:induction false} AttemptsAt(w: Script, n: nat)
    ensures |Attempts(w, n)| == 2 * n
    ensures forall i :: 1 <= i <= n ==>
              && Attempts(w, n)[2 * i - 2] == Asked(w.asked(i))
              && Attempts(w, n)[2 * i - 1] == Reported(w.reply(i).Answered? && w.reply(i).status < 500, w.answered(i))
  {
    if n != 0 {
      AttemptsAt(w, n - 1);
    }
  }

  /** Whether the breaker, starting at `b`, admits attempt `i` after those before it. */
  predicate Admission(c: Config, b: State, w: Script, i: nat)
    requires i >= 1
  {
    Admits(c, Run(c, b, Attempts(w, i - 1)), w.asked(i))
  }

  /** Why the loop ended. */
  datatype Ending = Answer | Spent | Refused | Interrupted

  /** The attempts before the last were admitted, failed and were not interrupted, and the ending is the one that comes next. */
  predicate EndsAs(c: Config, b: State, w: Script, max: int, admitted: nat, ending: Ending) {
    && (forall i :: 1 <= i <= admitted ==> Admission(c, b, w, i))
    && (forall i :: 1 <= i < admitted ==> !Succeeded(w.reply(i)) && w.canceled(i).None?)
    && match ending
       case Answer => 1 <= admitted <= max && Succeeded(w.reply(admitted))
       case Spent => admitted == max && !Succeeded(w.reply(max))
       case Refused =>
         && admitted < max && !Admission(c, b, w, admitted + 1)
         && (admitted >= 1 ==> !Succeeded(w.reply(admitted)) && w.canceled(admitted).None?)
       case Interrupted => 1 <= admitted < max && !Succeeded(w.reply(admitted)) && w.canceled(admitted).Some?
  }

  /** What the breaker sees of a whole call. */
  function Seen(w: Script, admitted: nat, ending: Ending): seq<Event> {
    if ending.Refused? then Attempts(w, admitted) + [Asked(w.asked(admitted + 1))] else Attempts(w, admitted)
  }

  /** The error a call ends with unless its fallback takes over. */
  function LastError(w: Script, max: int, admitted: nat, ending: Ending): Option<string> {
    match ending
    case Answer => None
    case Spent => Some(Complaint(w.reply(max)))
    case Refused => Some(OPEN_CIRCUIT)
    case Interrupted => w.canceled(admitted)
  }

  lemma {:induction false} AttemptsReported(w: Script, n: nat)
    ensures Reports(Attempts(w, n)) == n
  {
    if n != 0 {
      AttemptsReported(w, n - 1);
      ReportsSnoc(Attempts(w, n - 1), Asked(w.asked(n)));
      ReportsSnoc(Attempts(w, n - 1) + [Asked(w.asked(n))], Reported(Succeeded(w.reply(n)), w.answered(n)));
    }
  }

  /** One attempt: ask the breaker, and if admitted report what came back. */
  method Attempt(breaker: Cell, w: Script, attempt: nat, ghost b: State) returns (ok: bool, good: bool)
    requires attempt >= 1 && breaker.View() == Run(breaker.config, b, Attempts(w, attempt - 1))
    modifies breaker
    ensures ok == Admission(breaker.config, b, w, attempt)
    ensures ok ==> good == Succeeded(w.reply(attempt)) && breaker.View() == Run(breaker.config, b, Attempts(w, attempt))
    ensures !ok ==> breaker.View() == Run(breaker.config, b, Attempts(w, attempt - 1) + [Asked(w.asked(attempt))])
  {
    ghost var before := Attempts(w, attempt - 1);
    RunSnoc(breaker.config, b, before, Asked(w.asked(attempt)));
    ok := breaker.Allow(w.asked(attempt));
    good := false;
    if ok {
      var got := w.reply(attempt);
      good := got.Answered? && got.status < 500;
      RunSnoc(breaker.config, b, before + [Asked(w.asked(attempt))], Reported(good, w.answered(attempt)));
      breaker.Report(good, w.answered(attempt));
    }
  }

  /** Where the loop ends after `n` admitted attempts that failed without being interrupted. */
  function Outcome(c: Config, b: State, w: Script, max: int, n: nat): (nat, Ending)
    requires n < max
    decreases max - n
  {
    if !Admission(c, b, w, n + 1) then (n, Refused)
    else if Succeeded(w.reply(n + 1)) then (n + 1, Answer)
    else if n + 1 == max then (n + 1, Spent)
    else if w.canceled(n + 1).Some? then (n + 1, Interrupted)
    else Outcome(c, b, w, max, n + 1)
  }

  predicate Retrying(c: Config, b: State, w: Script, n: nat) {
    && (forall i :: 1 <= i <= n ==> Admission(c, b, w, i))
    && (forall i :: 1 <= i <= n ==> !Succeeded(w.reply(i)) && w.canceled(i).None?)
  }

  lemma RetryingMore(c: Config, b: State, w: Script, n: nat)
    requires Retrying(c, b, w, n) && Admission(c, b, w, n + 1) && !Succeeded(w.reply(n + 1)) && w.canceled(n + 1).None?
    ensures Retrying(c, b, w, n + 1)
  {
  }

  lemma {:induction false} OutcomeEnds(c: Config, b: State, w: Script, max: int, n: nat)
    requires n < max && Retrying(c, b, w, n)
    ensures var (admitted, ending) := Outcome(c, b, w, max, n); EndsAs(c, b, w, max, admitted, ending)
    decreases max - n
  {
    if Admission(c, b, w, n + 1) && !Succeeded(w.reply(n + 1)) && n + 1 < max && w.canceled(n + 1).None? {
      RetryingMore(c, b, w, n);
      OutcomeEnds(c, b, w, max, n + 1);
    }
  }

  /** The retry loop. The breaker sees exactly the admitted attempts, each with its own outcome, and a refused request. */
  method Loop(breaker: Cell, max: int, w: Script) returns (admitted: nat, ending: Ending)
    requires max >= 1
    modifies breaker
    ensures (admitted, ending) == Outcome(breaker.config, old(breaker.View()), w, max, 0)
    ensures breaker.View() == Run(breaker.config, old(breaker.View()), Seen(w, admitted, ending))
  {
    ghost var b := breaker.View();
    admitted := 0;
    var attempt := 1;
    while true
      invariant 1 <= attempt <= max && admitted == attempt - 1
      invariant breaker.View() == Run(breaker.config, b, Attempts(w, admitted))
      invariant Outcome(breaker.config, b, w, max, admitted) == Outcome(breaker.config, b, w, max, 0)
      decreases max - attempt
    {
      var ok, good := Attempt(breaker, w, attempt, b);
      if !ok {
        return admitted, Refused;
      }
      admitted := admitted + 1;
      if good {
        return admitted, Answer;
      }
      if attempt == max {
        return admitted, Spent;
      }
      if w.canceled(attempt).Some? {
        return admitted, Interrupted;
      }
      attempt := attempt + 1;
    }
  }

  /**
   A whole call. One that runs out of attempts or is refused hands its last error to the fallback, if it has
   one; every other call returns a good reply or its last error.
   */
  method Do(breaker: Cell, maxAttempts: int, w: Script, fallback: Option<string -> (Option<int>, Option<string>)>)
    returns (response: Option<int>, error: Option<string>, admitted: nat, delegated: bool, ghost ending: Ending)
    modifies breaker
    ensures EndsAs(breaker.config, old(breaker.View()), w, Max(1, maxAttempts), admitted, ending)
    ensures breaker.View() == Run(breaker.config, old(breaker.View()), Seen(w, admitted, ending))
    ensures Reports(Attempts(w, admitted)) == admitted <= Max(1, maxAttempts)
    ensures delegated <==> fallback.Some? && (ending.Spent? || ending.Refused?)
    ensures delegated ==>
              (response, error) == fallback.value(LastError(w, Max(1, maxAttempts), admitted, ending).value)
    ensures !delegated ==>
              && error == LastError(w, Max(1, maxAttempts), admitted, ending)
              && response == if ending.Answer? then Some(w.reply(admitted).status) else None
    ensures !delegated ==> (response.Some? <==> error.None?)
  {
    var why;
    admitted, why := Loop(breaker, if maxAttempts <= 0 then 1 else maxAttempts, w);
    ending := why;
    OutcomeEnds(breaker.config, old(breaker.View()), w, if maxAttempts <= 0 then 1 else maxAttempts, 0);
    AttemptsReported(w, admitted);
    response, error, delegated := None, None, false;
    var lastErr := "";
    match why {
      case Answer =>
        response := Some(w.reply(admitted).status);
        return;
      case Interrupted =>
        error := w.canceled(admitted);
        return;
      case Refused => lastErr := OPEN_CIRCUIT;
      case Spent => lastErr := Complaint(w.reply(admitted));
    }
    if fallback.Some? {
      var result := fallback.value(lastErr);
      response, error, delegated := result.0, result.1, true;
    } else {
      error := Some(lastErr);
    }
  }

  /** A script has only one ending: what `Do` does is decided by what it meets. */
  lemma EndingIsUnique(c: Config, b: State, w: Script, max: int, n: nat, ending: Ending, n': nat, ending': Ending)
    requires EndsAs(c, b, w, max, n, ending) && EndsAs(c, b, w, max, n', ending')
    ensures n == n' && ending == ending'
  {
  }
}
