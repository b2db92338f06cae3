/**
 The failure-ratio circuit breaker: its state machine over reports and admission
 requests, the counters' decay by ceiling-halving, and when it can open at all.
 Ratios are exact reals; time is an integer.
 */
module Breaker {
  import opened Common

  datatype Mode = Closed | Open | HalfOpen

  /** `openedAt` is meaningful while the breaker is open. */
  datatype State = State(mode: Mode, failures: nat, successes: nat, openedAt: int) {
    function Total(): nat {
      failures + successes
    }
  }

  datatype Raw = Config(minRequests: int, threshold: real, openFor: int)

  predicate Normal(c: Raw) {
    c.minRequests >= 1 && 0.0 < c.threshold <= 1.0 && c.openFor >= 1
  }

  type Config = c: Raw | Normal(c) witness Config(1, 1.0, 1)

  const DEFAULT_OPEN_FOR := 30_000_000_000
  const Fresh := State(Closed, 0, 0, 0)

  /** The configuration that the constructor settles on; any input is accepted. */
  function Normalised(minRequests: int, failureRatio: real, openFor: int): (c: Config)
    ensures c.minRequests == Max(1, minRequests)
    ensures 0.0 < failureRatio <= 1.0 ==> c.threshold == failureRatio
    ensures failureRatio <= 0.0 ==> c.threshold == 0.5
    ensures failureRatio > 1.0 ==> c.threshold == 1.0
    ensures c.openFor == if openFor > 0 then openFor else DEFAULT_OPEN_FOR
  {
    Raw.Config(
      if minRequests <= 0 then 1 else minRequests,
      if failureRatio <= 0.0 then 0.5 else if failureRatio > 1.0 then 1.0 else failureRatio,
      if openFor <= 0 then DEFAULT_OPEN_FOR else openFor)
  }

  function CeilHalf(n: nat): nat {
    (n + 1) / 2
  }

  /** State change with the counters cleared. */
  function Change(b: State, mode: Mode, at: int): State {
    if b.mode == mode then b
    else State(mode, 0, 0, if mode == Open then at else if mode == Closed then 0 else b.openedAt)
  }

  predicate Trips(c: Config, failures: nat, successes: nat) {
    && failures + successes >= c.minRequests
    && failures as real / (failures + successes) as real >= c.threshold
  }

  function Report(c: Config, b: State, success: bool, at: int): State {
    match b.mode
    case Open => b
    case HalfOpen => Change(b, if success then Closed else Open, at)
    case Closed =>
      var f := if success then b.failures else b.failures + 1;
      var s := if success then b.successes + 1 else b.successes;
      if Trips(c, f, s) then Change(b, Open, at)
      else if f + s > c.minRequests * 2 then b.(failures := CeilHalf(f), successes := CeilHalf(s))
      else b.(failures := f, successes := s)
  }

  predicate Admits(c: Config, b: State, at: int) {
    b.mode == Open ==> at - b.openedAt >= c.openFor
  }

  function Allow(c: Config, b: State, at: int): State {
    if b.mode == Open && at - b.openedAt >= c.openFor then Change(b, HalfOpen, at) else b
  }

  datatype Event = Asked(at: int) | Reported(success: bool, at: int)

  function Step(c: Config, b: State, e: Event): State {
    match e
    case Asked(at) => Allow(c, b, at)
    case Reported(success, at) => Report(c, b, success, at)
  }

  function Run(c: Config, b: State, es: seq<Event>): State
    decreases |es|
  {
    if es == [] then b else Run(c, Step(c, b, es[0]), es[1..])
  }

  /** The breaker object; every method holds the mutex for its whole body. */
  class Cell {
    const config: Config
    var mode: Mode
    var failures: nat
    var successes: nat
    var openedAt: int

    function View(): State
      reads this
    {
      State(mode, failures, successes, openedAt)
    }

    constructor (minRequests: int, failureRatio: real, openFor: int)
      ensures config == Normalised(minRequests, failureRatio, openFor) && View() == Fresh
    {
      config := Normalised(minRequests, failureRatio, openFor);
      mode, failures, successes, openedAt := Closed, 0, 0, 0;
    }

    method ChangeState(next: Mode, now: int)
      modifies this
      ensures View() == Change(old(View()), next, now)
    {
      if mode == next {
        return;
      }
      mode := next;
      if next == Open {
        openedAt := now;
      }
      if next == Closed {
        openedAt := 0;
      }
      failures, successes := 0, 0;
    }

    method Allow(now: int) returns (ok: bool)
      modifies this
      ensures ok == Admits(config, old(View()), now)
      ensures View() == Step(config, old(View()), Asked(now))
    {
      match mode
      case Open =>
        if now - openedAt >= config.openFor {
          ChangeState(HalfOpen, now);
          return true;
        }
        return false;
      case _ => return true;
    }

    method Report(success: bool, now: int)
      modifies this
      ensures View() == Step(config, old(View()), Reported(success, now))
    {
      match mode {
        case Open => return;
        case HalfOpen =>
          if success {
            ChangeState(Closed, now);
            return;
          }
          ChangeState(Open, now);
          return;
        case Closed =>
      }
      if success {
        successes := successes + 1;
      } else {
        failures := failures + 1;
      }
      var total := failures + successes;
      if total < config.minRequests {
        return;
      }
      var ratio := failures as real / total as real;
      if ratio >= config.threshold {
        ChangeState(Open, now);
      } else if total > config.minRequests * 2 {
        successes := CeilHalf(successes);
        failures := CeilHalf(failures);
      }
    }
  }

  lemma RatioTrips(threshold: real, f: real, total: real)
    requires total > 0.0
    ensures f / total >= threshold <==> f >= threshold * total
  {
    var ratio := f / total;
    assert ratio * total == f;
    assert (ratio - threshold) * total == f - threshold * total;
    if ratio >= threshold {
      assert (ratio - threshold) * total >= 0.0;
    } else {
      assert (ratio - threshold) * total < 0.0;
    }
  }

  // ---------- counters ----------

  /** The counters never reach past twice the minimum, and only a closed breaker counts. */
  predicate Bounded(c: Config, b: State) {
    if b.mode == Closed then b.Total() <= 2 * c.minRequests else b.Total() == 0
  }

  lemma BoundedStep(c: Config, b: State, e: Event)
    requires Bounded(c, b)
    ensures Bounded(c, Step(c, b, e))
  {
  }

  lemma {:induction false} AlwaysBounded(c: Config, b: State, es: seq<Event>)
    requires Bounded(c, b)
    ensures Bounded(c, Run(c, b, es))
    decreases |es|
  {
    if es != [] {
      BoundedStep(c, b, es[0]);
      AlwaysBounded(c, Step(c, b, es[0]), es[1..]);
    }
  }

  /** Every decay halves exactly 2m+1 outcomes to m+1 and moves the failure ratio by at most 1/(2m+2). */
  lemma DecayDrift(c: Config, b: State, success: bool, at: int)
    requires b.mode == Closed && Bounded(c, b)
    requires Report(c, b, success, at).mode == Closed && Report(c, b, success, at).Total() != b.Total() + 1
    ensures b.Total() == 2 * c.minRequests && Report(c, b, success, at).Total() == c.minRequests + 1
    ensures var b' := Report(c, b, success, at);
            var f := if success then b.failures else b.failures + 1;
            var before := f as real / (2 * c.minRequests + 1) as real;
            var after := b'.failures as real / (c.minRequests + 1) as real;
            -1.0 <= (after - before) * (2 * c.minRequests + 2) as real <= 1.0
  {
    var f := if success then b.failures else b.failures + 1;
    DecayCounts(c, b, success, at);
    HalvingDrift(f, c.minRequests);
  }

  lemma DecayCounts(c: Config, b: State, success: bool, at: int)
    requires b.mode == Closed && Bounded(c, b)
    requires Report(c, b, success, at).mode == Closed && Report(c, b, success, at).Total() != b.Total() + 1
    ensures b.Total() == 2 * c.minRequests && Report(c, b, success, at).Total() == c.minRequests + 1
    ensures Report(c, b, success, at).failures == CeilHalf(if success then b.failures else b.failures + 1)
  {
  }

  lemma HalvingDrift(f: nat, m: nat)
    requires f <= 2 * m + 1
    ensures var before := f as real / (2 * m + 1) as real;
            var after := CeilHalf(f) as real / (m + 1) as real;
            -1.0 <= (after - before) * (2 * m + 2) as real <= 1.0
  {
    var k := (m + 1) as real;
    var g := CeilHalf(f);
    var before := f as real / (2 * m + 1) as real;
    var after := g as real / k;
    assert f == 2 * g || f == 2 * g - 1;
    assert f as real == 2.0 * g as real || f as real == 2.0 * g as real - 1.0;
    assert after * k == g as real;
    assert before * (2.0 * k - 1.0) == f as real;
    UnitRatio(f as real, (2 * m + 1) as real);
    calc {
      (after - before) * (2.0 * k);
      2.0 * (after * k) - (before * (2.0 * k - 1.0) + before);
      2.0 * g as real - (f as real + before);
    }
  }

  lemma UnitRatio(f: real, n: real)
    requires 0.0 <= f <= n && n > 0.0
    ensures 0.0 <= f / n <= 1.0
  {
  }

  // ---------- backoff ----------

  const DEFAULT_BACKOFF := 100_000_000

  /** The base doubled for each attempt after the first. */
  function Ideal(base: int, attempt: int): int {
    (if base <= 0 then DEFAULT_BACKOFF else base) * Pow2(if attempt < 1 then 0 else attempt - 1)
  }

  /** The same in 64-bit arithmetic, where shifting and multiplying only keep the low 64 bits. */
  function Nominal(base: int, attempt: int): int {
    Wrap64(Ideal(base, attempt))
  }

  /** Truncation towards zero. */
  function Truncate(x: real): int {
    if x >= 0.0 then x.Floor else -((-x).Floor)
  }

  /** A whole number drawn evenly from the width on either side of zero. */
  function Spread(width: real, draw: real): int {
    Truncate((draw * 2.0 - 1.0) * width)
  }

  function Shifted(d: int, width: real, draw: real): int {
    d + Spread(width, draw)
  }

  /** How far jitter may move a delay. */
  function Width(d: int, jitter: real): real {
    d as real * jitter
  }

  /** A delay with jitter; `draw` is the random number in [0, 1). */
  function Jittered(d: int, jitter: real, draw: real): int {
    if jitter <= 0.0 then d else Shifted(d, Width(d, jitter), draw)
  }

  function Backoff(base: int, attempt: int, jitter: real, draw: real): int {
    Jittered(Nominal(base, attempt), jitter, draw)
  }

  /** The delay starts at the base, a tenth of a second unless given, and doubles with each attempt after the first. */
  lemma IdealDoubles(base: int, attempt: int)
    ensures Ideal(base, attempt) >= 1
    ensures attempt <= 1 ==> Ideal(base, attempt) == if base > 0 then base else 100_000_000
    ensures attempt >= 1 ==> Ideal(base, attempt + 1) == 2 * Ideal(base, attempt)
  {
    var unit := if base <= 0 then DEFAULT_BACKOFF else base;
    var n := if attempt < 1 then 0 else attempt - 1;
    Pow2Grows(0, n);
    ProductGrows(unit, 1, Pow2(n));
    Doubled(unit, Pow2(n));
  }

  /** The delay is the doubled base exactly while that fits in 64 bits. */
  lemma NominalExactIff(base: int, attempt: int)
    ensures Nominal(base, attempt) == Ideal(base, attempt) <==> Ideal(base, attempt) < TWO_63
  {
    IdealDoubles(base, attempt);
    Wrap64Exact(Ideal(base, attempt));
  }

  function Abs(d: int): int {
    if d < 0 then -d else d
  }

  lemma JitterBound(d: int, jitter: real, draw: real)
    requires 0.0 <= draw < 1.0 && jitter > 0.0
    ensures -(Abs(d) as real * jitter) <= (Jittered(d, jitter, draw) - d) as real <= Abs(d) as real * jitter
  {
    var width := d as real * jitter;
    var size := Abs(d) as real * jitter;
    RealProduct(Abs(d) as real, jitter);
    assert width == size || width == -size;
    JitterWithin(width, size, draw);
    assert Jittered(d, jitter, draw) == Shifted(d, width, draw);
  }

  /**
   While the doubled base fits in 64 bits the nominal delay is positive and doubles with each further
   attempt; jitter always moves it by at most that fraction of its size.
   */
  lemma BackoffWithin(base: int, attempt: int, jitter: real, draw: real)
    requires 0.0 <= draw < 1.0
    ensures var d := Nominal(base, attempt);
            var b := Backoff(base, attempt, jitter, draw);
            && (Ideal(base, attempt) < TWO_63 ==> d >= 1)
            && (attempt >= 1 && Ideal(base, attempt + 1) < TWO_63 ==> Nominal(base, attempt + 1) == 2 * d)
            && (if jitter <= 0.0 then b == d else -(Abs(d) as real * jitter) <= (b - d) as real <= Abs(d) as real * jitter)
  {
    IdealDoubles(base, attempt);
    NominalExactIff(base, attempt);
    NominalExactIff(base, attempt + 1);
    if jitter > 0.0 {
      JitterBound(Nominal(base, attempt), jitter, draw);
    }
  }

  /** The draw decides the jitter: one half gives the plain delay, zero the largest cut, and more draws more delay. */
  lemma JitterFollowsDraw(base: int, attempt: int, jitter: real, draw: real, draw': real)
    requires 0.0 <= draw <= draw' < 1.0 && jitter > 0.0 && Nominal(base, attempt) >= 0
    ensures var d := Nominal(base, attempt);
            && Backoff(base, attempt, jitter, 0.5) == d
            && Backoff(base, attempt, jitter, 0.0) == d - (d as real * jitter).Floor
            && Backoff(base, attempt, jitter, draw) <= Backoff(base, attempt, jitter, draw')
  {
    JitteredFollowsDraw(Nominal(base, attempt), jitter, draw, draw');
  }

  lemma JitteredFollowsDraw(d: int, jitter: real, draw: real, draw': real)
    requires draw <= draw' && jitter > 0.0 && d >= 0
    ensures Jittered(d, jitter, 0.5) == d && Jittered(d, jitter, 0.0) == d - Width(d, jitter).Floor
    ensures Jittered(d, jitter, draw) <= Jittered(d, jitter, draw')
  {
    RealProduct(d as real, jitter);
    ShiftEnds(d, Width(d, jitter));
    ShiftGrows(d, Width(d, jitter), draw, draw');
  }

  lemma ShiftEnds(d: int, width: real)
    requires width >= 0.0
    ensures Shifted(d, width, 0.5) == d && Shifted(d, width, 0.0) == d - width.Floor
  {
  }

  lemma ShiftGrows(d: int, width: real, draw: real, draw': real)
    requires width >= 0.0 && draw <= draw'
    ensures Shifted(d, width, draw) <= Shifted(d, width, draw')
  {
    Scaled(draw * 2.0 - 1.0, draw' * 2.0 - 1.0, width);
    TruncateGrows((draw * 2.0 - 1.0) * width, (draw' * 2.0 - 1.0) * width);
  }

  lemma Scaled(a: real, b: real, w: real)
    requires a <= b && w >= 0.0
    ensures a * w <= b * w
  {
  }

  lemma TruncateGrows(x: real, y: real)
    requires x <= y
    ensures Truncate(x) <= Truncate(y)
  {
  }

  lemma Doubled(a: int, p: int)
    ensures a * (2 * p) == 2 * (a * p)
  {
  }

  lemma JitterWithin(width: real, size: real, draw: real)
    requires size >= 0.0 && (width == size || width == -size) && 0.0 <= draw < 1.0
    ensures -size <= Spread(width, draw) as real <= size
  {
    var x := (draw * 2.0 - 1.0) * width;
    RealProduct(draw, size);
    RealProduct(1.0 - draw, size);
    assert x == draw * width * 2.0 - width;
    assert (1.0 - draw) * size == size - draw * size;
    assert draw * width == draw * size || draw * width == -(draw * size);
    assert -size <= x <= size;
  }

  lemma RealProduct(a: real, b: real)
    requires a >= 0.0 && b >= 0.0
    ensures a * b >= 0.0
  {
  }
}
