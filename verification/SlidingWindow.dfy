/**
 The sliding-window rate limiter for one key: a Redis sorted set that is pruned, added
 to, counted and given a time to live in one transaction. Members are numbered in the
 order in which requests arrive; the window and the maximum are those of the caller.
 */
module SlidingWindow {

  datatype Store = Store(members: map<nat, int>, expires: int, next: nat)

  const Empty := Store(map[], 0, 0)

  const SECOND := 1_000_000_000

  /** The time to live is sent in whole seconds, at least one; times are in nanoseconds. */
  function Ttl(window: int): int {
    if window < SECOND then SECOND else window / SECOND * SECOND
  }

  /** The windows that the time to live does not cut short. */
  predicate Whole(window: int) {
    window < SECOND || window % SECOND == 0
  }

  /** What Redis still holds at `at`: nothing once the key's time to live has run out. */
  function Visible(st: Store, at: int): map<nat, int> {
    if st.expires <= at then map[] else st.members
  }

  function Prune(m: map<nat, int>, cutoff: int): map<nat, int> {
    map i | i in m && m[i] > cutoff :: m[i]
  }

  function Record(st: Store, window: int, at: int): Store {
    Store(Prune(Visible(st, at), at - window)[st.next := at], at + Ttl(window), st.next + 1)
  }

  /** The store after the requests made at `times`, in order. */
  function After(window: int, times: seq<int>): Store
    decreases |times|
  {
    if times == [] then Empty
    else Record(After(window, times[..|times| - 1]), window, times[|times| - 1])
  }

  predicate Ordered(times: seq<int>) {
    forall i, j :: 0 <= i < j < |times| ==> times[i] <= times[j]
  }

  /** Whether request `j` was allowed. */
  predicate Admitted(window: int, max: int, times: seq<int>, j: nat)
    requires j < |times|
  {
    window <= 0 || max <= 0 || |After(window, times[..j + 1]).members| <= max
  }

  /** The full log of requests newer than a window before the last one. */
  function Recent(window: int, times: seq<int>): map<nat, int>
    requires times != []
  {
    map i: nat | i < |times| && times[i] > times[|times| - 1] - window :: times[i]
  }

  /** A stored request survives the next call exactly when it is still recent then. */
  lemma KeptIff(window: int, prev: seq<int>, at: int, st: Store, i: nat)
    requires window > 0 && Whole(window) && prev != [] && Ordered(prev) && prev[|prev| - 1] <= at
    requires st.members == Recent(window, prev) && st.expires == prev[|prev| - 1] + Ttl(window)
    ensures var kept := Prune(Visible(st, at), at - window);
            && (i in kept <==> i < |prev| && prev[i] > at - window)
            && (i in kept ==> kept[i] == prev[i])
  {
    var last := |prev| - 1;
    assert i < last ==> prev[i] <= prev[last];
  }

  /** Recording one more request turns the recent log of the earlier ones into the recent log of all. */
  lemma RecordKeepsRecent(window: int, prev: seq<int>, at: int, st: Store)
    requires window > 0 && Whole(window) && prev != [] && Ordered(prev) && prev[|prev| - 1] <= at
    requires st.members == Recent(window, prev) && st.next == |prev| && st.expires == prev[|prev| - 1] + Ttl(window)
    ensures Record(st, window, at).members == Recent(window, prev + [at])
  {
    var n := |prev|;
    var after, full := Record(st, window, at).members, Recent(window, prev + [at]);
    forall i: nat ensures (i in after <==> i in full) && (i in after ==> after[i] == full[i]) {
      KeptIff(window, prev, at, st, i);
      assert i < n ==> (prev + [at])[i] == prev[i];
    }
  }

  /** With a whole window pruning and key expiry lose nothing: the store is the recent part of the full log. */
  lemma {:induction false} StoreIsRecentLog(window: int, times: seq<int>)
    requires window > 0 && Whole(window) && Ordered(times) && times != []
    ensures After(window, times).members == Recent(window, times)
    ensures After(window, times).next == |times|
    ensures After(window, times).expires == times[|times| - 1] + Ttl(window)
    decreases |times|
  {
    var n := |times| - 1;
    var prev, at := times[..n], times[n];
    var st := After(window, prev);
    if n == 0 {
      assert After(window, times).members == map[0 := at];
      assert Recent(window, times) == map[0 := at];
    } else {
      StoreIsRecentLog(window, prev);
      assert times == prev + [at];
      RecordKeepsRecent(window, prev, at, st);
    }
  }

  /** The requests up to `j` that are within a window before it. */
  function RecentSet(window: int, times: seq<int>, j: nat): set<nat>
    requires j < |times|
  {
    set i: nat | i <= j && times[i] > times[j] - window
  }

  lemma StoreSize(window: int, times: seq<int>, j: nat)
    requires window > 0 && Whole(window) && Ordered(times) && j < |times|
    ensures |After(window, times[..j + 1]).members| == |RecentSet(window, times, j)|
  {
    var upto := times[..j + 1];
    StoreIsRecentLog(window, upto);
    assert Recent(window, upto).Keys == RecentSet(window, times, j);
    assert |Recent(window, upto)| == |Recent(window, upto).Keys|;
  }

  lemma {:induction false} SubsetSize<T>(a: set<T>, b: set<T>)
    requires a <= b
    ensures |a| <= |b|
  {
    assert b == a + (b - a);
  }

  lemma {:induction false} Largest(s: set<nat>) returns (j: nat)
    requires s != {}
    ensures j in s && forall i :: i in s ==> i <= j
    decreases |s|
  {
    j :| j in s;
    if s != {j} {
      var k := Largest(s - {j});
      assert s == (s - {j}) + {j};
      if k > j { j := k; }
    }
  }

  /** The admitted requests in the half-open interval [from, from + window). */
  function AdmittedIn(window: int, max: int, times: seq<int>, from: int): set<nat> {
    set j: nat | j < |times| && from <= times[j] < from + window && Admitted(window, max, times, j)
  }

  /** In every run, no interval as long as the window holds more than `max` admitted requests. */
  lemma AtMostMaxPerWindow(window: int, max: int, times: seq<int>, from: int)
    requires window > 0 && Whole(window) && max > 0 && Ordered(times)
    ensures |AdmittedIn(window, max, times, from)| <= max
  {
    var s := AdmittedIn(window, max, times, from);
    if s != {} {
      var j := Largest(s);
      forall i | i in s ensures i in RecentSet(window, times, j) {
        assert i <= j;
      }
      SubsetSize(s, RecentSet(window, times, j));
      StoreSize(window, times, j);
    }
  }

  function Interval(lo: nat, hi: nat): (s: set<nat>)
    ensures forall i :: i in s <==> lo <= i < hi
    decreases hi
  {
    if hi <= lo then {} else Interval(lo, hi - 1) + {hi - 1}
  }

  lemma {:induction false} IntervalSize(lo: nat, hi: nat)
    requires lo <= hi
    ensures |Interval(lo, hi)| == hi - lo
    decreases hi - lo
  {
    if lo < hi {
      IntervalSize(lo, hi - 1);
    }
  }

  lemma FewRecent(window: int, times: seq<int>, j: nat, lo: nat)
    requires Ordered(times) && j < |times| && lo <= j + 1 && (lo == 0 || times[lo - 1] <= times[j] - window)
    ensures |RecentSet(window, times, j)| <= j + 1 - lo
  {
    var s := RecentSet(window, times, j);
    forall i: nat | i < lo ensures i !in s {
      assert times[i] <= times[lo - 1];
    }
    SubsetSize(s, Interval(lo, j + 1));
    IntervalSize(lo, j + 1);
  }

  lemma ManyRecent(window: int, times: seq<int>, j: nat, lo: nat)
    requires Ordered(times) && lo <= j < |times| && times[lo] > times[j] - window
    ensures |RecentSet(window, times, j)| >= j + 1 - lo
  {
    var s := RecentSet(window, times, j);
    forall i | i in Interval(lo, j + 1) ensures i in s {
      assert lo < i ==> times[lo] <= times[i];
    }
    SubsetSize(Interval(lo, j + 1), s);
    IntervalSize(lo, j + 1);
  }

  /**
   Admission in closed form: a request is allowed exactly when the request `max` places before it,
   itself allowed or not, is at least a window old. Refused requests count against later ones.
   */
  lemma AdmittedIff(window: int, max: int, times: seq<int>, j: nat)
    requires window > 0 && Whole(window) && max > 0 && Ordered(times) && j < |times|
    ensures Admitted(window, max, times, j) <==> j < max || times[j - max] <= times[j] - window
  {
    StoreSize(window, times, j);
    if j < max {
      FewRecent(window, times, j, 0);
    } else if times[j - max] <= times[j] - window {
      FewRecent(window, times, j, j - max + 1);
    } else {
      ManyRecent(window, times, j, j - max);
    }
  }

  // ---------- windows that are not whole seconds ----------

  ghost predicate HoldsLimit(window: int) {
    forall max, times, from :: max > 0 && Ordered(times) ==> |AdmittedIn(window, max, times, from)| <= max
  }

  /** A window of a second and a fraction forgets its log early: two requests get through a limit of one. */
  lemma FractionalWindowOverAdmits(window: int)
    requires window > 0 && !Whole(window)
    ensures Ordered([0, Ttl(window)]) && AdmittedIn(window, 1, [0, Ttl(window)], 0) == {0, 1}
  {
    var times := [0, Ttl(window)];
    assert 0 < Ttl(window) < window;
    assert times[..1] == [0] && times[..2] == times && times[..1][..0] == [];
    var first := After(window, [0]);
    assert first == Record(Empty, window, 0) && first.members == map[0 := 0] && first.expires == Ttl(window);
    assert After(window, times) == Record(first, window, Ttl(window));
    assert After(window, times).members == map[1 := Ttl(window)];
    assert Admitted(window, 1, times, 0) && Admitted(window, 1, times, 1);
  }

  /** The limit holds for every traffic exactly when the window is below a second or in whole seconds. */
  lemma LimitHoldsIff(window: int)
    requires window > 0
    ensures HoldsLimit(window) <==> Whole(window)
  {
    if Whole(window) {
      forall max, times, from | max > 0 && Ordered(times) ensures |AdmittedIn(window, max, times, from)| <= max {
        AtMostMaxPerWindow(window, max, times, from);
      }
    } else {
      FractionalWindowOverAdmits(window);
      assert |AdmittedIn(window, 1, [0, Ttl(window)], 0)| == 2;
    }
  }

  /** The sorted set as the limiter updates it. */
  class Window {
    var members: map<nat, int>
    var expires: int
    var next: nat

    ghost function View(): Store
      reads this
    {
      Store(members, expires, next)
    }

    constructor ()
      ensures View() == Empty
    {
      members, expires, next := map[], 0, 0;
    }

    /** One call of the limiter; `until` is the reset time it reports. */
    method Allow(window: int, max: int, now: int) returns (allowed: bool, remaining: int, until: int)
      modifies this
      ensures until == now + window
      ensures max <= 0 || window <= 0 ==> allowed && remaining == max && View() == old(View())
      ensures max > 0 && window > 0 ==>
                && View() == Record(old(View()), window, now)
                && (allowed <==> |View().members| <= max)
                && (allowed ==> remaining == max - |View().members|)
                && (!allowed ==> remaining == 0)
    {
      until := now + window;
      if max <= 0 || window <= 0 {
        return true, max, until;
      }
      if expires <= now {
        members := map[];
      }
      members := map i | i in members && members[i] > now - window :: members[i];
      members := members[next := now];
      next := next + 1;
      var current := |members|;
      expires := now + Ttl(window);
      remaining := max - current;
      if remaining < 0 {
        remaining := 0;
      }
      allowed := current <= max;
    }
  }
}
