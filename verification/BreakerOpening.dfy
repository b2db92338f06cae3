/** When a closed breaker can open, how soon it does, and what it refuses afterwards. */
module BreakerOpening {
  import opened Breaker

  // ---------- openability ----------

  /** The state after `k` failures in a row. */
  function Failing(c: Config, b: State, k: nat, at: int): State
    decreases k
  {
    if k == 0 then b else Failing(c, Report(c, b, false, at), k - 1, at)
  }

  /** How many decays bring a success count down to one. */
  function Halvings(n: nat): nat {
    if n <= 1 then 0 else 1 + Halvings(CeilHalf(n))
  }

  /** No success is counted, or the threshold is within reach of 2m failures against one success. */
  predicate CanTrip(c: Config, b: State) {
    b.successes == 0 || c.threshold * (2 * c.minRequests + 1) as real <= (2 * c.minRequests) as real
  }

  function FailureBound(c: Config, b: State): int {
    2 * c.minRequests + 1 - b.Total() + c.minRequests * Halvings(b.successes)
  }

  lemma TripsAtTheBrim(c: Config, f: nat, s: nat)
    requires f + s == 2 * c.minRequests + 1 && s <= 1
    requires s == 0 || c.threshold * (2 * c.minRequests + 1) as real <= (2 * c.minRequests) as real
    ensures Trips(c, f, s)
  {
    RatioTrips(c.threshold, f as real, (f + s) as real);
    if s == 0 {
      assert c.threshold * f as real <= 1.0 * f as real by {
        assert (1.0 - c.threshold) * f as real >= 0.0;
      }
    }
  }

  /** A failure at the brim opens the breaker or halves the successes and leaves room for m more. */
  lemma FailureAtTheBrim(c: Config, b: State, at: int)
    requires b.mode == Closed && b.Total() == 2 * c.minRequests && CanTrip(c, b)
    requires Report(c, b, false, at).mode != Open
    ensures var b' := Report(c, b, false, at);
            b'.mode == Closed && b'.Total() == c.minRequests + 1 && b'.successes == CeilHalf(b.successes) < b.successes
  {
    if b.successes <= 1 {
      TripsAtTheBrim(c, b.failures + 1, b.successes);
    }
  }

  /** A closed breaker that can trip opens within a bounded number of failures in a row. */
  lemma {:induction false} OpensWithin(c: Config, b: State, at: int) returns (k: nat)
    requires b.mode == Closed && Bounded(c, b) && CanTrip(c, b)
    ensures 1 <= k <= FailureBound(c, b) && Failing(c, b, k, at).mode == Open
    decreases Halvings(b.successes), 2 * c.minRequests + 1 - b.Total()
  {
    var b' := Report(c, b, false, at);
    if b'.mode == Open {
      assert Failing(c, b, 1, at) == Failing(c, b', 0, at);
      return 1;
    }
    if b.Total() == 2 * c.minRequests {
      FailureAtTheBrim(c, b, at);
      RoomAfterHalving(c.minRequests, b.successes);
    }
    k := OpensWithin(c, b', at);
    k := k + 1;
  }

  lemma {:induction false} RoomAfterHalving(m: nat, s: nat)
    requires CeilHalf(s) < s
    ensures m * Halvings(s) == m + m * Halvings(CeilHalf(s)) && Halvings(CeilHalf(s)) < Halvings(s)
  {
    assert Halvings(s) == 1 + Halvings(CeilHalf(s));
    OneMore(m, Halvings(CeilHalf(s)));
  }

  lemma OneMore(m: int, h: int)
    ensures m * (1 + h) == m + m * h
  {
  }

  lemma NeverTrips(c: Config, f: nat, s: nat)
    requires f + s <= 2 * c.minRequests + 1 && s >= 1
    requires c.threshold * (2 * c.minRequests + 1) as real > (2 * c.minRequests) as real
    ensures !Trips(c, f, s)
  {
    if f + s >= c.minRequests {
      RatioTrips(c.threshold, f as real, (f + s) as real);
      BelowThreshold(c.threshold, (2 * c.minRequests + 1) as real, (f + s) as real);
    }
  }

  lemma BelowThreshold(threshold: real, n: real, t: real)
    requires threshold <= 1.0 && threshold * n > n - 1.0 && t <= n
    ensures t - 1.0 < threshold * t
  {
    assert (1.0 - threshold) * (n - t) >= 0.0;
    assert (1.0 - threshold) * (n - t) == n - t - threshold * n + threshold * t;
  }

  /** Above that threshold one counted success keeps the breaker closed through every run. */
  lemma {:induction false} OneSuccessHoldsItClosed(c: Config, b: State, es: seq<Event>)
    requires b.mode == Closed && Bounded(c, b) && !CanTrip(c, b)
    ensures Run(c, b, es).mode == Closed && Run(c, b, es).successes >= 1
    decreases |es|
  {
    if es != [] {
      var e := es[0];
      if e.Reported? {
        NeverTrips(c,
                   if e.success then b.failures else b.failures + 1,
                   if e.success then b.successes + 1 else b.successes);
      }
      BoundedStep(c, b, e);
      OneSuccessHoldsItClosed(c, Step(c, b, e), es[1..]);
    }
  }

  function Failures(k: nat, at: int): seq<Event> {
    if k == 0 then [] else [Reported(false, at)] + Failures(k - 1, at)
  }

  lemma {:induction false} FailingIsARun(c: Config, b: State, k: nat, at: int)
    ensures Run(c, b, Failures(k, at)) == Failing(c, b, k, at)
    decreases k
  {
    if k != 0 {
      assert Failures(k, at)[1..] == Failures(k - 1, at);
      FailingIsARun(c, Report(c, b, false, at), k - 1, at);
    }
  }

  /** Some run opens a closed breaker exactly when it can trip. */
  lemma OpenableIff(c: Config, b: State)
    requires b.mode == Closed && Bounded(c, b)
    ensures (exists es :: Run(c, b, es).mode == Open) <==> CanTrip(c, b)
  {
    if CanTrip(c, b) {
      var k := OpensWithin(c, b, 0);
      FailingIsARun(c, b, k, 0);
    } else {
      forall es ensures Run(c, b, es).mode != Open {
        OneSuccessHoldsItClosed(c, b, es);
      }
    }
  }

  // ---------- leaving Closed ----------

  function Reports(es: seq<Event>): nat {
    if es == [] then 0 else (if es[0].Reported? then 1 else 0) + Reports(es[1..])
  }

  /** A breaker that has just closed stays closed until `minRequests` outcomes are reported. */
  lemma {:induction false} FewReportsStayClosed(c: Config, b: State, es: seq<Event>)
    requires b.mode == Closed && b.Total() + Reports(es) < c.minRequests
    ensures Run(c, b, es).mode == Closed && Run(c, b, es).Total() == b.Total() + Reports(es)
    decreases |es|
  {
    if es != [] {
      FewReportsStayClosed(c, Step(c, b, es[0]), es[1..]);
    }
  }

  // ---------- refusing while open ----------

  predicate Ordered(es: seq<Event>) {
    forall i, j :: 0 <= i < j < |es| ==> es[i].at <= es[j].at
  }

  lemma {:induction false} RunSplit(c: Config, b: State, es: seq<Event>, i: nat, j: nat)
    requires i <= j <= |es|
    ensures Run(c, b, es[..j]) == Run(c, Run(c, b, es[..i]), es[i..j])
    decreases i
  {
    if i == 0 {
      assert es[..i] == [];
    } else {
      assert es[..j][1..] == es[1..][..j - 1] && es[..i][1..] == es[1..][..i - 1];
      assert es[i..j] == es[1..][i - 1..j - 1];
      RunSplit(c, Step(c, b, es[0]), es[1..], i - 1, j - 1);
    }
  }

  lemma {:induction false} StaysOpen(c: Config, b: State, es: seq<Event>)
    requires b.mode == Open && forall e :: e in es ==> e.at < b.openedAt + c.openFor
    ensures Run(c, b, es) == b
    decreases |es|
  {
    if es != [] {
      assert es[0] in es;
      StaysOpen(c, b, es[1..]);
    }
  }

  /**
   In any interleaving of admission requests and reports, once the i-th event opens the
   breaker at time u, no request made before u + openFor is admitted.
   */
  lemma RefusesWhileOpen(c: Config, b: State, es: seq<Event>, i: nat, j: nat)
    requires Ordered(es) && i < j < |es| && es[j].Asked?
    requires Run(c, b, es[..i]).mode != Open && Run(c, b, es[..i + 1]).mode == Open
    requires es[j].at < es[i].at + c.openFor
    ensures Run(c, b, es[..j]).mode == Open && !Admits(c, Run(c, b, es[..j]), es[j].at)
  {
    RunSplit(c, b, es, i, i + 1);
    var before := Run(c, b, es[..i]);
    assert es[i..i + 1] == [es[i]] && [es[i]][1..] == [];
    var tripped := Run(c, b, es[..i + 1]);
    assert tripped == Step(c, before, es[i]) by {
      assert Run(c, Step(c, before, es[i]), []) == Step(c, before, es[i]);
    }
    assert tripped.openedAt == es[i].at;
    RunSplit(c, b, es, i + 1, j);
    forall e | e in es[i + 1..j] ensures e.at < tripped.openedAt + c.openFor {
      var n :| i + 1 <= n < j && es[n] == e;
      assert es[n].at <= es[j].at;
    }
    StaysOpen(c, tripped, es[i + 1..j]);
  }

  // ---------- the probe ----------

  lemma {:induction false} RunConcat(c: Config, b: State, es: seq<Event>, es': seq<Event>)
    ensures Run(c, b, es + es') == Run(c, Run(c, b, es), es')
    decreases |es|
  {
    if es == [] {
      assert es + es' == es';
    } else {
      assert (es + es')[1..] == es[1..] + es';
      RunConcat(c, Step(c, b, es[0]), es[1..], es');
    }
  }

  lemma {:induction false} AsksChangeNothing(c: Config, b: State, asks: seq<Event>)
    requires b.mode != Open && forall e :: e in asks ==> e.Asked?
    ensures Run(c, b, asks) == b
    decreases |asks|
  {
    if asks != [] {
      assert asks[0] in asks;
      AsksChangeNothing(c, b, asks[1..]);
    }
  }

  /**
   After the cool-off of a breaker opened at u, the first request is admitted and makes it half-open, and until
   an outcome is reported every further request is admitted as well.
   */
  lemma CoolOffEndsHalfOpen(c: Config, b: State, quiet: seq<Event>, asked: int, asks: seq<Event>)
    requires b.mode == Open && (forall e :: e in quiet ==> e.at < b.openedAt + c.openFor)
    requires asked >= b.openedAt + c.openFor && forall e :: e in asks ==> e.Asked?
    ensures Admits(c, Run(c, b, quiet), asked)
    ensures var half := Run(c, b, quiet + [Asked(asked)] + asks);
            half.mode == HalfOpen && half.Total() == 0 && forall at :: Admits(c, half, at)
  {
    StaysOpen(c, b, quiet);
    RunConcat(c, b, quiet, [Asked(asked)]);
    var half := Step(c, b, Asked(asked));
    assert [Asked(asked)][1..] == [] && Run(c, b, [Asked(asked)]) == Run(c, half, []);
    AsksChangeNothing(c, half, asks);
    RunConcat(c, b, quiet + [Asked(asked)], asks);
  }

  /**
   The outcome reported next decides. A success closes the breaker with cleared counters, and it then stays
   closed until m further outcomes; a failure opens it at that moment, and everything is refused for another
   cool-off whatever happens in it.
   */
  lemma ProbeDecides(c: Config, b: State, quiet: seq<Event>, asked: int, asks: seq<Event>, success: bool, at: int, later: seq<Event>)
    requires b.mode == Open && (forall e :: e in quiet ==> e.at < b.openedAt + c.openFor)
    requires asked >= b.openedAt + c.openFor && forall e :: e in asks ==> e.Asked?
    ensures var probed := Run(c, b, quiet + [Asked(asked)] + asks + [Reported(success, at)]);
            && probed.failures == probed.successes == 0
            && (success ==>
                  && probed.mode == Closed
                  && (Reports(later) < c.minRequests ==> Run(c, probed, later).mode == Closed))
            && (!success ==>
                  && probed.mode == Open && probed.openedAt == at
                  && ((forall e :: e in later ==> e.at < at + c.openFor) ==>
                        Run(c, probed, later) == probed && forall x :: x < at + c.openFor ==> !Admits(c, probed, x)))
  {
    CoolOffEndsHalfOpen(c, b, quiet, asked, asks);
    var half := Run(c, b, quiet + [Asked(asked)] + asks);
    var outcome := Reported(success, at);
    RunConcat(c, b, quiet + [Asked(asked)] + asks, [outcome]);
    var probed := Step(c, half, outcome);
    assert [outcome][1..] == [] && Run(c, half, [outcome]) == Run(c, probed, []);
    if success {
      if Reports(later) < c.minRequests { FewReportsStayClosed(c, probed, later); }
    } else if forall e :: e in later ==> e.at < at + c.openFor {
      StaysOpen(c, probed, later);
    }
  }
}
