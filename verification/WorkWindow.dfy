/** The rolling window of /work observations and its statistics (window.go). */
module WorkWindow {
  import opened Counting

  const WORK_WINDOW_SIZE: nat := 100

  datatype Observation = Observation(duration: int, failed: bool)

  /** The observations a window over `all` is meant to describe: the last hundred. */
  function Recent(all: seq<Observation>): (r: seq<Observation>)
    ensures |r| == if |all| < WORK_WINDOW_SIZE then |all| else WORK_WINDOW_SIZE
  {
    if |all| <= WORK_WINDOW_SIZE then all else all[|all| - WORK_WINDOW_SIZE..]
  }

  const HasFailed: Observation -> bool := (o: Observation) => o.failed

  function Failures(s: seq<Observation>): nat {
    CountIf(s, HasFailed)
  }

  function Durations(s: seq<Observation>): (d: seq<int>)
    ensures |d| == |s| && forall i :: 0 <= i < |s| ==> d[i] == s[i].duration
  {
    seq(|s|, i requires 0 <= i < |s| => s[i].duration)
  }

  function AtMost(d: int): int -> bool {
    x => x <= d
  }

  function AtOrBelow(s: seq<int>, d: int): nat {
    CountIf(s, AtMost(d))
  }

  /** The nearest-rank 95th percentile: the least observed duration with at least 95% of
      the observations at or below it. */
  ghost predicate IsP95(s: seq<int>, d: int) {
    && d in s
    && 100 * AtOrBelow(s, d) >= 95 * |s|
    && forall e :: e in s && e < d ==> 100 * AtOrBelow(s, e) < 95 * |s|
  }

  /** The same of observations, counting their indices. */
  ghost predicate IsP95Duration(s: seq<Observation>, d: int) {
    && (exists i :: 0 <= i < |s| && s[i].duration == d)
    && 100 * |set i | 0 <= i < |s| && s[i].duration <= d| >= 95 * |s|
    && forall j :: 0 <= j < |s| && s[j].duration < d ==>
         100 * |set i | 0 <= i < |s| && s[i].duration <= s[j].duration| < 95 * |s|
  }

  lemma FailuresByIndex(s: seq<Observation>)
    ensures Failures(s) == |set i | 0 <= i < |s| && s[i].failed|
  {
    CountIsIndices(s, HasFailed);
    assert IndicesOf(s, HasFailed) == set i | 0 <= i < |s| && s[i].failed;
  }

  lemma AtOrBelowByIndex(s: seq<Observation>, d: int)
    ensures AtOrBelow(Durations(s), d) == |set i | 0 <= i < |s| && s[i].duration <= d|
  {
    CountIsIndices(Durations(s), AtMost(d));
    assert IndicesOf(Durations(s), AtMost(d)) == set i | 0 <= i < |s| && s[i].duration <= d;
  }

  lemma P95ByIndex(s: seq<Observation>, d: int)
    requires IsP95(Durations(s), d)
    ensures IsP95Duration(s, d)
  {
    AtOrBelowByIndex(s, d);
    forall j | 0 <= j < |s| && s[j].duration < d
      ensures 100 * |set i | 0 <= i < |s| && s[i].duration <= s[j].duration| < 95 * |s|
    {
      assert Durations(s)[j] in Durations(s);
      AtOrBelowByIndex(s, s[j].duration);
    }
  }

  /** What the window reports, told from the last observations one by one: how many there
      are, the share of them that failed, and their 95th percentile. */
  lemma RecentByIndex(all: seq<Observation>, p95: int)
    requires all != [] && IsP95(Durations(Recent(all)), p95)
    ensures var n := if |all| < 100 then |all| else 100;
            var last := all[|all| - n..];
            && Recent(all) == last
            && Failures(Recent(all)) == |set i | 0 <= i < n && last[i].failed|
            && IsP95Duration(last, p95)
  {
    FailuresByIndex(Recent(all));
    P95ByIndex(Recent(all), p95);
  }

  /** ceil(0.95 n) - 1, the index the code reads. */
  function Rank(n: nat): int {
    (95 * n + 99) / 100 - 1
  }

  predicate SortedUp(s: seq<int>) {
    forall i, j :: 0 <= i < j < |s| ==> s[i] <= s[j]
  }

  function Following(next: nat): nat {
    if next == WORK_WINDOW_SIZE - 1 then 0 else next + 1
  }

  class Window {
    const buf: array<Observation>
    var next: nat
    var count: nat
    /** Every observation so far, oldest first. */
    ghost var all: seq<Observation>

    ghost predicate Valid()
      reads this, buf
    {
      && buf.Length == WORK_WINDOW_SIZE
      && count == |Recent(all)|
      && RingHolds(buf[..], all, next)
    }

    constructor ()
      ensures Valid() && fresh(buf) && all == []
    {
      buf := new Observation[WORK_WINDOW_SIZE](_ => Observation(0, false));
      next, count, all := 0, 0, [];
    }

    method Observe(d: int, failed: bool)
      requires Valid()
      modifies this, buf
      ensures Valid() && all == old(all) + [Observation(d, failed)]
    {
      ghost var ring, last := buf[..], next;
      buf[next] := Observation(d, failed);
      RingStep(ring, all, last, Observation(d, failed));
      all := all + [Observation(d, failed)];
      next := (next + 1) % WORK_WINDOW_SIZE;
      assert next == Following(last) && buf[..] == ring[last := Observation(d, failed)];
      if count < WORK_WINDOW_SIZE {
        count := count + 1;
      }
    }

    /** An empty window reports zeros. Otherwise the results are those of the last
        hundred observations, wherever the ring currently starts. */
    method Stats() returns (errorRate: real, p95: int, n: nat)
      requires Valid()
      ensures n == if |all| < 100 then |all| else 100
      ensures n == 0 ==> errorRate == 0.0 && p95 == 0
      ensures n > 0 ==> errorRate == Failures(Recent(all)) as real / n as real
      ensures n > 0 ==> IsP95(Durations(Recent(all)), p95)
    {
      n := count;
      var sample, failures := [], 0;
      for i := 0 to n
        invariant sample == Durations(buf[..i])
        invariant failures == Failures(buf[..i])
      {
        assert buf[..i + 1][..i] == buf[..i];
        sample := sample + [buf[i].duration];
        if buf[i].failed {
          failures := failures + 1;
        }
      }
      if n == 0 {
        return 0.0, 0, 0;
      }
      sample := SortDurations(sample);
      var rank := Rank(n);
      if rank < 0 {
        rank := 0;
      }
      if rank > n - 1 {
        rank := n - 1;
      }
      assert buf[..][..n] == buf[..n];
      RingCounts(buf[..], all, next, failures, sample);
      return failures as real / n as real, sample[rank], n;
    }
  }

  /** Slot j, for j below next, was written next - j observations ago; once the buffer is
      full the other slots are from the round before. */
  ghost predicate RingHolds(buf: seq<Observation>, all: seq<Observation>, next: nat) {
    && |buf| == WORK_WINDOW_SIZE && next < WORK_WINDOW_SIZE && next <= |all|
    && (forall j :: 0 <= j < next ==> buf[j] == all[|all| - next + j])
    && if |all| < WORK_WINDOW_SIZE then next == |all|
       else forall j :: next <= j < WORK_WINDOW_SIZE ==> buf[j] == all[|all| - WORK_WINDOW_SIZE - next + j]
  }

  lemma RingStep(buf: seq<Observation>, all: seq<Observation>, next: nat, o: Observation)
    requires RingHolds(buf, all, next)
    ensures RingHolds(buf[next := o], all + [o], Following(next))
  {
  }

  /** The first count slots of the ring hold the recent observations, in some order. */
  lemma RingHoldsRecent(buf: seq<Observation>, all: seq<Observation>, next: nat)
    requires RingHolds(buf, all, next)
    ensures multiset(buf[..|Recent(all)|]) == multiset(Recent(all))
  {
    if |all| >= WORK_WINDOW_SIZE {
      var newer := all[|all| - next..];
      var older := all[|all| - WORK_WINDOW_SIZE..|all| - next];
      assert buf[..|Recent(all)|] == newer + older;
      assert Recent(all) == older + newer;
    } else {
      assert buf[..|all|] == all;
    }
  }

  method InsertDuration(sorted: seq<int>, d: int) returns (r: seq<int>)
    requires SortedUp(sorted)
    ensures SortedUp(r) && multiset(r) == multiset(sorted) + multiset{d}
  {
    var j := 0;
    while j < |sorted| && sorted[j] <= d
      invariant 0 <= j <= |sorted|
      invariant forall k :: 0 <= k < j ==> sorted[k] <= d
    {
      j := j + 1;
    }
    r := sorted[..j] + [d] + sorted[j..];
    InsertionCounts(sorted[..j], d, sorted[j..]);
    assert sorted == sorted[..j] + sorted[j..];
  }

  lemma InsertionCounts(a: seq<int>, d: int, b: seq<int>)
    ensures multiset(a + [d] + b) == multiset(a + b) + multiset{d}
  {
  }

  /** slices.Sort; only its contract is used. */
  method SortDurations(s: seq<int>) returns (r: seq<int>)
    ensures SortedUp(r) && multiset(r) == multiset(s) && |r| == |s|
  {
    r := [];
    for i := 0 to |s|
      invariant SortedUp(r) && multiset(r) == multiset(s[..i])
    {
      assert s[..i + 1] == s[..i] + [s[i]];
      r := InsertDuration(r, s[i]);
    }
    assert s[..|s|] == s;
    assert |r| == |multiset(r)| == |multiset(s)| == |s|;
  }

  /** Both clamps in Stats are unreachable once anything was observed. */
  lemma RankIsInRange(n: nat)
    requires n >= 1
    ensures 0 <= Rank(n) <= n - 1
    ensures 100 * (Rank(n) + 1) >= 95 * n && 100 * Rank(n) < 95 * n
  {
  }

  lemma {:induction false} CountInSorted(s: seq<int>, d: int, r: nat)
    requires SortedUp(s) && r <= |s|
    requires forall i :: 0 <= i < r ==> s[i] <= d
    requires forall i :: r <= i < |s| ==> s[i] > d
    ensures AtOrBelow(s, d) == r
  {
    if s != [] {
      var last := |s| - 1;
      CountInSorted(s[..last], d, if r == |s| then last else r);
    }
  }

  /** Where the elements at or below d end in a sorted sequence. */
  lemma SplitPoint(s: seq<int>, d: int) returns (r: nat)
    requires SortedUp(s)
    ensures r <= |s|
    ensures forall i :: 0 <= i < r ==> s[i] <= d
    ensures forall i :: r <= i < |s| ==> s[i] > d
    ensures AtOrBelow(s, d) == r
  {
    r := 0;
    while r < |s| && s[r] <= d
      invariant 0 <= r <= |s|
      invariant forall i :: 0 <= i < r ==> s[i] <= d
    {
      r := r + 1;
    }
    CountInSorted(s, d, r);
  }

  lemma NearestRankIsP95(s: seq<int>)
    requires SortedUp(s) && s != []
    ensures 0 <= Rank(|s|) < |s|
    ensures IsP95(s, s[Rank(|s|)])
  {
    RankIsInRange(|s|);
    var k := Rank(|s|);
    var d := s[k];
    var r := SplitPoint(s, d);
    assert r > k;
    forall e | e in s && e < d ensures 100 * AtOrBelow(s, e) < 95 * |s| {
      var q := SplitPoint(s, e);
      assert q <= k;
    }
  }

  lemma P95IsUnique(s: seq<int>, a: int, b: int)
    requires IsP95(s, a) && IsP95(s, b)
    ensures a == b
  {
  }

  // ----- order does not matter

  /** Some occurrence of s's last element in t, and what is left of t without it. */
  lemma MatchLast<T>(s: seq<T>, t: seq<T>) returns (i: nat, rest: seq<T>)
    requires multiset(s) == multiset(t) && s != []
    ensures |s| == |t| && i < |t| && t[i] == s[|s| - 1]
    ensures rest == t[..i] + t[i + 1..]
    ensures multiset(rest) == multiset(s[..|s| - 1])
  {
    var x, last := s[|s| - 1], |s| - 1;
    assert |s| == |multiset(s)| == |multiset(t)| == |t|;
    assert s == s[..last] + [x];
    assert x in multiset(t);
    i :| 0 <= i < |t| && t[i] == x;
    rest := t[..i] + t[i + 1..];
    assert t == t[..i] + ([x] + t[i + 1..]);
    assert multiset(t) == multiset(t[..i]) + (multiset{x} + multiset(t[i + 1..]));
    assert multiset(s) == multiset(s[..last]) + multiset{x};
    assert multiset(rest) == multiset(t[..i]) + multiset(t[i + 1..]);
    assert multiset(rest) + multiset{x} == multiset(t);
    assert multiset(rest) == multiset(t) - multiset{x};
  }

  lemma {:induction false} CountByMultiset<T>(s: seq<T>, t: seq<T>, p: T -> bool)
    requires multiset(s) == multiset(t)
    ensures |s| == |t| && CountIf(s, p) == CountIf(t, p)
    decreases |s|
  {
    if s == [] {
      assert |multiset(t)| == 0;
    } else {
      var i, rest := MatchLast(s, t);
      CountByMultiset(s[..|s| - 1], rest, p);
      RemoveOne(t, i, p);
    }
  }

  lemma {:induction false} RemoveOne<T>(t: seq<T>, i: nat, p: T -> bool)
    requires i < |t|
    ensures CountIf(t, p) == CountIf(t[..i] + t[i + 1..], p) + if p(t[i]) then 1 else 0
  {
    var last := |t| - 1;
    if i == last {
      assert t[..i] + t[i + 1..] == t[..last];
    } else {
      RemoveOne(t[..last], i, p);
      assert (t[..i] + t[i + 1..])[..last - 1] == t[..last][..i] + t[..last][i + 1..];
    }
  }

  lemma {:induction false} DurationsIgnoreOrder(s: seq<Observation>, t: seq<Observation>)
    requires multiset(s) == multiset(t)
    ensures multiset(Durations(s)) == multiset(Durations(t))
    decreases |s|
  {
    if s == [] {
      assert |multiset(t)| == 0;
      assert Durations(s) == Durations(t);
    } else {
      var i, rest := MatchLast(s, t);
      var x := t[i].duration;
      DurationsIgnoreOrder(s[..|s| - 1], rest);
      assert Durations(s) == Durations(s[..|s| - 1]) + [x];
      RemoveOneFromDurations(t, i);
    }
  }

  lemma RemoveOneFromDurations(t: seq<Observation>, i: nat)
    requires i < |t|
    ensures multiset(Durations(t)) == multiset(Durations(t[..i] + t[i + 1..])) + multiset{t[i].duration}
  {
    assert Durations(t) == Durations(t[..i]) + ([t[i].duration] + Durations(t[i + 1..]));
    assert Durations(t[..i] + t[i + 1..]) == Durations(t[..i]) + Durations(t[i + 1..]);
  }

  lemma P95IgnoresOrder(s: seq<int>, t: seq<int>, d: int)
    requires multiset(s) == multiset(t)
    requires IsP95(s, d)
    ensures IsP95(t, d)
  {
    CountByMultiset(s, t, AtMost(d));
    assert d in multiset(t);
    forall e | e in t && e < d ensures 100 * AtOrBelow(t, e) < 95 * |t| {
      assert e in multiset(t) && e in multiset(s) && e in s;
      CountByMultiset(s, t, AtMost(e));
    }
  }

  /** The failures in the live slots of the ring are those of the recent observations, and
      the durations there, sorted, give their 95th percentile. */
  lemma RingCounts(buf: seq<Observation>, all: seq<Observation>, next: nat, failures: nat, sorted: seq<int>)
    requires RingHolds(buf, all, next) && all != []
    requires failures == Failures(buf[..|Recent(all)|])
    requires SortedUp(sorted) && multiset(sorted) == multiset(Durations(buf[..|Recent(all)|]))
    ensures failures == Failures(Recent(all))
    ensures |sorted| == |Recent(all)| && 0 <= Rank(|sorted|) < |sorted|
    ensures IsP95(Durations(Recent(all)), sorted[Rank(|sorted|)])
  {
    var live := buf[..|Recent(all)|];
    RingHoldsRecent(buf, all, next);
    CountByMultiset(live, Recent(all), HasFailed);
    DurationsIgnoreOrder(live, Recent(all));
    SortedRankIsP95(sorted, Durations(Recent(all)));
  }

  lemma SortedRankIsP95(sorted: seq<int>, s: seq<int>)
    requires SortedUp(sorted) && multiset(sorted) == multiset(s) && s != []
    ensures |sorted| == |s| && 0 <= Rank(|sorted|) < |sorted| && IsP95(s, sorted[Rank(|sorted|)])
  {
    SameLength(sorted, s);
    RankIsInRange(|s|);
    NearestRankIsP95(sorted);
    P95IgnoresOrder(sorted, s, sorted[Rank(|s|)]);
  }

  lemma SameLength(s: seq<int>, t: seq<int>)
    requires multiset(s) == multiset(t)
    ensures |s| == |t|
  {
    assert |s| == |multiset(s)| == |multiset(t)| == |t|;
  }

  /** Whatever came before the last hundred observations never matters again. */
  lemma EvictedNeverMatter(a: seq<Observation>, b: seq<Observation>, tail: seq<Observation>)
    requires |tail| >= WORK_WINDOW_SIZE
    ensures Recent(a + tail) == Recent(b + tail) == Recent(tail)
  {
    assert (a + tail)[|a + tail| - WORK_WINDOW_SIZE..] == tail[|tail| - WORK_WINDOW_SIZE..];
    assert (b + tail)[|b + tail| - WORK_WINDOW_SIZE..] == tail[|tail| - WORK_WINDOW_SIZE..];
  }
}
