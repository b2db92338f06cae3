/**
 The Redis-backed task queue: a ready set scored by due time, a processing set
 scored by visibility deadline, deduplication keys and a dead-letter table.
 One queue kind is modelled. Redis sorted sets are maps from member to score and
 time is an integer number of nanoseconds. Every Redis round that the worker
 makes for one purpose (claim, acknowledge, fail, requeue one expired entry) is
 one event; `Next` is the effect of an event and `Run` folds it over a run.
 */
module Queue {

  const DEFAULT_VISIBILITY := 30_000_000_000
  const DEFAULT_MAX_ATTEMPTS := 10

  datatype Task = Task(key: string, payload: string, maxAttempts: int, attempt: int, delay: int)

  /** The JSON document stored as a sorted-set member. */
  datatype Message = Message(
    key: string, payload: string, attempt: int, maxAttempts: int, availableAt: int, lastError: string)

  /** A dead-letter row; `payload` is the document that was in the processing set. */
  datatype Entry = Entry(payload: Message, attempts: int, lastError: string)

  /** A handler goroutine with the visibility deadline recorded when its task was claimed. */
  datatype Handler = Handler(msg: Message, deadline: int)

  datatype Config = Config(visibilityTimeout: int, maxAttempts: int) {
    function Visibility(): int {
      if visibilityTimeout <= 0 then DEFAULT_VISIBILITY else visibilityTimeout
    }
  }

  datatype State = State(
    ready: map<Message, int>,
    processing: map<Message, int>,
    dedup: set<string>,
    dlq: map<nat, Entry>,
    nextRow: nat,
    handlers: map<nat, Handler>,
    nextHandler: nat,
    clock: int)

  datatype Event =
    | Enqueue(task: Task, at: int)
      // One turn of the worker loop on the member returned by ZPOPMIN.
    | Pop(head: Message, at: int)
    | Ack(h: nat, at: int)
    | Fail(h: nat, delay: int, cause: string, stored: bool, at: int)
      // A handler whose context lapsed before its Redis calls: nothing is written.
    | Abandon(h: nat, at: int)
      // One entry of an expiry sweep.
    | Requeue(msg: Message, at: int)
    | Crash(at: int)
    | Replay(row: nat, at: int)
      // A deduplication key reaching its TTL.
    | Expire(key: string, at: int)

  /** The message that `Enqueue` builds from a task. */
  function Admitted(c: Config, t: Task, at: int): Message {
    Message(
      t.key,
      t.payload,
      if t.attempt < 0 then 0 else t.attempt,
      if t.maxAttempts > 0 then t.maxAttempts else if c.maxAttempts > 0 then c.maxAttempts else DEFAULT_MAX_ATTEMPTS,
      at + t.delay,
      "")
  }

  predicate Accepts(s: State, key: string) {
    key == "" || key !in s.dedup
  }

  function EnqueueEffect(c: Config, s: State, t: Task, at: int): State {
    if !Accepts(s, t.key) then s else
    var m := Admitted(c, t, at);
    s.(ready := s.ready[m := m.availableAt],
       dedup := if t.key == "" then s.dedup else s.dedup + {t.key})
  }

  function PopEffect(c: Config, s: State, head: Message, at: int): State
    requires head in s.ready
  {
    if head.availableAt > at then
      s.(ready := s.ready[head := head.availableAt])
    else
      var m := head.(attempt := head.attempt + 1);
      var deadline := at + c.Visibility();
      s.(ready := s.ready - {head},
         processing := s.processing[m := deadline],
         handlers := s.handlers[s.nextHandler := Handler(m, deadline)],
         nextHandler := s.nextHandler + 1)
  }

  function Forget(dedup: set<string>, key: string): set<string> {
    if key == "" then dedup else dedup - {key}
  }

  function AckEffect(s: State, h: nat): State
    requires h in s.handlers
  {
    var m := s.handlers[h].msg;
    s.(processing := s.processing - {m},
       dedup := Forget(s.dedup, m.key),
       handlers := s.handlers - {h})
  }

  predicate Exhausted(m: Message) {
    m.maxAttempts > 0 && m.attempt >= m.maxAttempts
  }

  /** The message written back to the ready set after a failed attempt. */
  function Retry(m: Message, delay: int, cause: string, at: int): Message {
    m.(availableAt := at + delay, lastError := cause)
  }

  function FailEffect(s: State, h: nat, delay: int, cause: string, stored: bool, at: int): State
    requires h in s.handlers
  {
    var m := s.handlers[h].msg;
    var s' := s.(processing := s.processing - {m}, handlers := s.handlers - {h});
    if Exhausted(m) then
      var dead := s'.(dedup := Forget(s.dedup, m.key));
      if stored
      then dead.(dlq := dead.dlq[dead.nextRow := Entry(m, m.attempt, cause)], nextRow := dead.nextRow + 1)
      else dead
    else
      var retry := Retry(m, delay, cause, at);
      s'.(ready := s'.ready[retry := retry.availableAt])
  }

  function RequeueEffect(s: State, m: Message, at: int): State
    requires m in s.processing
  {
    var back := m.(availableAt := at);
    s.(processing := s.processing - {m}, ready := s.ready[back := at])
  }

  /** The task that a dead-letter row is turned back into. */
  function Revived(e: Entry): Task {
    Task(e.payload.key, e.payload.payload, e.payload.maxAttempts,
         if e.payload.attempt > 0 then e.payload.attempt - 1 else e.payload.attempt, 0)
  }

  function ReplayEffect(c: Config, s: State, row: nat, at: int): State {
    if row !in s.dlq then s else
    var s' := EnqueueEffect(c, s, Revived(s.dlq[row]), at);
    s'.(dlq := s'.dlq - {row})
  }

  /** When an event can happen: time does not go back and the worker acts on what it holds. */
  predicate Enabled(s: State, e: Event) {
    && s.clock <= e.at
    && match e
       case Pop(head, _) => head in s.ready && forall m :: m in s.ready ==> s.ready[head] <= s.ready[m]
       case Ack(h, _) => h in s.handlers
       case Fail(h, _, _, _, _) => h in s.handlers
       case Abandon(h, _) => h in s.handlers
       case Requeue(m, at) => m in s.processing && s.processing[m] <= at
       case _ => true
  }

  function Next(c: Config, s: State, e: Event): State
    requires Enabled(s, e)
  {
    var s' := match e
      case Enqueue(t, at) => EnqueueEffect(c, s, t, at)
      case Pop(head, at) => PopEffect(c, s, head, at)
      case Ack(h, _) => AckEffect(s, h)
      case Fail(h, delay, cause, stored, at) => FailEffect(s, h, delay, cause, stored, at)
      case Abandon(h, _) => s.(handlers := s.handlers - {h})
      case Requeue(m, at) => RequeueEffect(s, m, at)
      case Crash(_) => s.(handlers := map[])
      case Replay(row, at) => ReplayEffect(c, s, row, at)
      case Expire(k, _) => s.(dedup := s.dedup - {k});
    s'.(clock := e.at)
  }

  predicate ValidRun(c: Config, s: State, es: seq<Event>)
    decreases |es|
  {
    es == [] || (Enabled(s, es[0]) && ValidRun(c, Next(c, s, es[0]), es[1..]))
  }

  function Run(c: Config, s: State, es: seq<Event>): State
    requires ValidRun(c, s, es)
    decreases |es|
  {
    if es == [] then s else Run(c, Next(c, s, es[0]), es[1..])
  }

  function Empty(clock: int): State {
    State(map[], map[], {}, map[], 0, map[], 0, clock)
  }
}
