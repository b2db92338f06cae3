/**
 The enqueuer, the worker and the dead-letter replay as operations that update the
 stored sets in place, each proved to be the corresponding event of the queue protocol.
 */
module QueueWorker {
  import opened Queue

  lemma {:induction false} RunAppend(c: Config, s: State, es: seq<Event>, e: Event)
    requires ValidRun(c, s, es) && Enabled(Run(c, s, es), e)
    ensures ValidRun(c, s, es + [e]) && Run(c, s, es + [e]) == Next(c, Run(c, s, es), e)
    decreases |es|
  {
    if es == [] {
      assert ([] + [e])[1..] == [];
    } else {
      assert (es + [e])[1..] == es[1..] + [e];
      RunAppend(c, Next(c, s, es[0]), es[1..], e);
    }
  }

  class TaskQueue {
    const config: Config
    var ready: map<Message, int>
    var processing: map<Message, int>
    var dedup: set<string>
    var dlq: map<nat, Entry>
    var nextRow: nat
    var handlers: map<nat, Handler>
    var nextHandler: nat
    ghost var clock: int

    ghost function View(): State
      reads this
    {
      State(ready, processing, dedup, dlq, nextRow, handlers, nextHandler, clock)
    }

    constructor (config: Config, ghost now: int)
      ensures this.config == config && View() == Empty(now)
    {
      this.config := config;
      ready, processing, dedup, dlq, nextRow := map[], map[], {}, map[], 0;
      handlers, nextHandler, clock := map[], 0, now;
    }

    method Enqueue(t: Task, now: int)
      requires clock <= now
      modifies this
      ensures View() == Next(config, old(View()), Event.Enqueue(t, now))
    {
      clock := now;
      var msg := Message(t.key, t.payload, t.attempt, t.maxAttempts, now + t.delay, "");
      if msg.attempt < 0 {
        msg := msg.(attempt := 0);
      }
      if msg.maxAttempts <= 0 {
        if config.maxAttempts > 0 {
          msg := msg.(maxAttempts := config.maxAttempts);
        } else {
          msg := msg.(maxAttempts := DEFAULT_MAX_ATTEMPTS);
        }
      }
      if msg.key != "" {
        if msg.key in dedup {
          return;
        }
        dedup := dedup + {msg.key};
      }
      ready := ready[msg := msg.availableAt];
    }

    /** The member with the lowest score, as ZPOPMIN selects it. */
    method LowestScore() returns (head: Message)
      requires ready != map[]
      ensures head in ready && forall m :: m in ready ==> ready[head] <= ready[m]
    {
      var rest := ready.Keys;
      head :| head in rest;
      rest := rest - {head};
      while rest != {}
        invariant rest <= ready.Keys && head in ready
        invariant forall m :: m in ready && m !in rest ==> ready[head] <= ready[m]
        decreases |rest|
      {
        var m :| m in rest;
        rest := rest - {m};
        if ready[m] < ready[head] {
          head := m;
        }
      }
    }

    /** One turn of the worker loop; `started` tells whether a handler was launched. */
    method Poll(now: int) returns (started: bool, ghost head: Message)
      requires clock <= now
      modifies this
      ensures old(ready) == map[] ==> !started && View() == old(View()).(clock := now)
      ensures old(ready) != map[] ==>
                && Enabled(old(View()), Pop(head, now))
                && View() == Next(config, old(View()), Pop(head, now))
                && (started <==> head.availableAt <= now)
    {
      clock := now;
      started := false;
      if ready == map[] {
        head := Message("", "", 0, 0, 0, "");
        return;
      }
      var msg := LowestScore();
      head := msg;
      ready := ready - {msg};
      if msg.availableAt > now {
        ready := ready[msg := msg.availableAt];
        assert ready == old(ready)[msg := msg.availableAt];
        return;
      }
      msg := msg.(attempt := msg.attempt + 1);
      var deadline := now + config.Visibility();
      processing := processing[msg := deadline];
      handlers := handlers[nextHandler := Handler(msg, deadline)];
      nextHandler := nextHandler + 1;
      started := true;
    }

    method Ack(h: nat, now: int)
      requires clock <= now && h in handlers
      modifies this
      ensures View() == Next(config, old(View()), Event.Ack(h, now))
    {
      clock := now;
      var msg := handlers[h].msg;
      processing := processing - {msg};
      if msg.key != "" {
        dedup := dedup - {msg.key};
      }
      handlers := handlers - {h};
    }

    method HandleFailure(h: nat, delay: int, cause: string, storeUp: bool, now: int)
      requires clock <= now && h in handlers
      modifies this
      ensures View() == Next(config, old(View()), Fail(h, delay, cause, storeUp, now))
    {
      clock := now;
      var msg := handlers[h].msg;
      handlers := handlers - {h};
      processing := processing - {msg};
      if msg.maxAttempts > 0 && msg.attempt >= msg.maxAttempts {
        if storeUp {
          dlq := dlq[nextRow := Entry(msg, msg.attempt, cause)];
          nextRow := nextRow + 1;
        }
        if msg.key != "" {
          dedup := dedup - {msg.key};
        }
        return;
      }
      msg := msg.(lastError := cause, availableAt := now + delay);
      ready := ready[msg := msg.availableAt];
    }

    method RequeueOne(raw: Message, now: int)
      requires clock <= now && raw in processing && processing[raw] <= now
      modifies this
      ensures View() == Next(config, old(View()), Requeue(raw, now))
    {
      clock := now;
      processing := processing - {raw};
      var msg := raw.(availableAt := now);
      ready := ready[msg := msg.availableAt];
    }

    /** Requeues one entry and extends the run `es` from `s0` that led here. */
    method RequeueNext(raw: Message, now: int, ghost s0: State, ghost es: seq<Event>) returns (ghost es': seq<Event>)
      requires clock <= now && raw in processing && processing[raw] <= now
      requires ValidRun(config, s0, es) && View() == Run(config, s0, es)
      modifies this
      ensures es' == es + [Requeue(raw, now)] && ValidRun(config, s0, es') && View() == Run(config, s0, es')
      ensures processing == old(processing) - {raw} && clock == now
    {
      RunAppend(config, s0, es, Requeue(raw, now));
      RequeueOne(raw, now);
      es' := es + [Requeue(raw, now)];
    }

    /** The members with score at most `now`, as ZRANGEBYSCORE lists them. */
    ghost function Due(now: int): set<Message>
      reads this
    {
      set m | m in processing && processing[m] <= now
    }

    /**
     The expiry sweep started at `now`; `tick(i)` is the clock read for its i-th entry. It is a
     run of requeue events that takes exactly the expired entries out of the processing set.
     */
    method RequeueExpired(now: int, tick: nat -> int) returns (ghost es: seq<Event>)
      requires clock <= now <= tick(0) && forall i, j :: 0 <= i <= j ==> tick(i) <= tick(j)
      modifies this
      ensures ValidRun(config, old(View()), es) && View() == Run(config, old(View()), es)
      ensures forall e :: e in es ==> e.Requeue? && e.msg in old(Due(now))
      ensures processing == old(processing) - old(Due(now))
    {
      var due := set m | m in processing && processing[m] <= now;
      es := [];
      var i := 0;
      while due != {}
        invariant due <= old(Due(now)) && processing == old(processing) - (old(Due(now)) - due)
        invariant ValidRun(config, old(View()), es) && View() == Run(config, old(View()), es)
        invariant clock <= tick(i) && now <= tick(i)
        invariant forall e :: e in es ==> e.Requeue? && e.msg in old(Due(now))
        decreases |due|
      {
        var raw :| raw in due;
        es := RequeueNext(raw, tick(i), old(View()), es);
        due := due - {raw};
        assert tick(i) <= tick(i + 1);
        i := i + 1;
      }
    }

    /** Replay of a dead-letter row; false when the row is missing. */
    method RequeueEntry(row: nat, now: int) returns (found: bool)
      requires clock <= now
      modifies this
      ensures found == (row in old(dlq))
      ensures View() == Next(config, old(View()), Replay(row, now))
    {
      found := row in dlq;
      if !found {
        clock := now;
        return;
      }
      var msg := dlq[row].payload;
      var attempt := msg.attempt;
      if attempt > 0 {
        attempt := attempt - 1;
      }
      Enqueue(Task(msg.key, msg.payload, msg.maxAttempts, attempt, 0), now);
      dlq := dlq - {row};
    }
  }
}
