/** The health score and the mood ladder (mood.go), and the operator's use of the ladder
    (status.go). Reals stand for float64. */
module Mood {
  datatype Mood = Leafy | Sprouting | Thirsty | LostALeaf | NotTooHot | Wilting

  function Name(m: Mood): string {
    match m
    case Leafy => "leafy"
    case Sprouting => "sprouting"
    case Thirsty => "thirsty"
    case LostALeaf => "lost-a-leaf"
    case NotTooHot => "not-too-hot"
    case Wilting => "wilting"
  }

  /** Position on the ladder, healthiest first. */
  function Rung(m: Mood): nat {
    match m
    case Leafy => 0
    case Sprouting => 1
    case Thirsty => 2
    case LostALeaf => 3
    case NotTooHot => 4
    case Wilting => 5
  }

  datatype Signals = Signals(ready: bool, errorRate: real, p95Latency: int, latencyBudget: int, restarts: int)

  const NOT_READY_CEILING := 35.0
  const ERROR_POINTS := 50.0
  const LATENCY_POINTS := 30.0
  const READY_POINTS := 20.0
  const RESTART_PENALTY := 2.0
  const RESTART_PENALTY_CAP := 10.0

  function LatencyComponent(s: Signals): real {
    if s.latencyBudget > 0 then
      var points := LATENCY_POINTS * (1.0 - s.p95Latency as real / s.latencyBudget as real);
      if points < 0.0 then 0.0 else points
    else LATENCY_POINTS
  }

  function RestartPenalty(restarts: int): real {
    var penalty := restarts as real * RESTART_PENALTY;
    var capped := if penalty > RESTART_PENALTY_CAP then RESTART_PENALTY_CAP else penalty;
    if capped < 0.0 then 0.0 else capped
  }

  function Score(s: Signals): (score: real)
    ensures 0.0 <= score <= 100.0
    ensures !s.ready ==> score <= NOT_READY_CEILING
  {
    var sum := (1.0 - s.errorRate) * ERROR_POINTS + LatencyComponent(s)
               + (if s.ready then READY_POINTS else 0.0) - RestartPenalty(s.restarts);
    var capped := if !s.ready && sum > NOT_READY_CEILING then NOT_READY_CEILING else sum;
    if capped > 100.0 then 100.0 else if capped < 0.0 then 0.0 else capped
  }

  function FromScore(score: real): Mood {
    if score >= 95.0 then Leafy
    else if score >= 80.0 then Sprouting
    else if score >= 60.0 then Thirsty
    else if score >= 40.0 then LostALeaf
    else if score >= 20.0 then NotTooHot
    else Wilting
  }

  /** b is no better than a in any signal. */
  predicate NoBetter(a: Signals, b: Signals) {
    && (b.ready ==> a.ready) && a.errorRate <= b.errorRate && a.p95Latency <= b.p95Latency
    && a.latencyBudget == b.latencyBudget && a.restarts <= b.restarts
  }

  lemma DivisionIsMonotone(a: real, b: real, c: real)
    requires a <= b && c > 0.0
    ensures a / c <= b / c
  {
    var d := b - a;
    assert b / c == a / c + d / c;
  }

  /** Worse signals never score higher, so the mood never gets healthier. */
  lemma WorseSignalsNeverHelp(a: Signals, b: Signals)
    requires NoBetter(a, b)
    ensures Score(b) <= Score(a)
    ensures Rung(FromScore(Score(a))) <= Rung(FromScore(Score(b)))
  {
    if a.latencyBudget > 0 {
      DivisionIsMonotone(a.p95Latency as real, b.p95Latency as real, a.latencyBudget as real);
      assert LatencyComponent(b) <= LatencyComponent(a);
    }
  }

  /** However good the other signals, an unready component is on one of the two lowest
      rungs: the ceiling of 35 lies below lost-a-leaf. */
  lemma UnreadyIsNeverHealthy(s: Signals)
    requires !s.ready
    ensures FromScore(Score(s)).NotTooHot? || FromScore(Score(s)).Wilting?
  {
  }

  /** The points that are lost out of a hundred, for signals within their ranges. */
  function Lost(s: Signals): real {
    50.0 * s.errorRate
    + (if s.latencyBudget <= 0 then 0.0
       else if s.p95Latency >= s.latencyBudget then 30.0
       else 30.0 * (s.p95Latency as real / s.latencyBudget as real))
    + (if s.restarts >= 5 then 10.0 else 2.0 * s.restarts as real)
    + (if s.ready then 0.0 else 20.0)
  }

  predicate InRange(s: Signals) {
    0.0 <= s.errorRate <= 1.0 && s.p95Latency >= 0 && s.restarts >= 0
  }

  /** The score is what is left, and of an unready component at most 35. */
  lemma ScoreIsWhatIsLeft(s: Signals)
    requires InRange(s)
    ensures var left := if Lost(s) > 100.0 then 0.0 else 100.0 - Lost(s);
            Score(s) == if !s.ready && left > 35.0 then 35.0 else left
  {
    if s.latencyBudget > 0 {
      var p, b := s.p95Latency as real, s.latencyBudget as real;
      assert b / b == 1.0;
      DivisionIsMonotone(0.0, p, b);
      if p >= b {
        DivisionIsMonotone(b, p, b);
      } else {
        DivisionIsMonotone(p, b, b);
      }
      assert LATENCY_POINTS * (1.0 - p / b) == 30.0 - 30.0 * (p / b);
    }
  }

  /** The mood in terms of the points lost: a ready component goes down the ladder at 5,
      20, 40, 60 and 80 points, an unready one has two rungs left. */
  lemma MoodIsLossLadder(s: Signals)
    requires InRange(s)
    ensures FromScore(Score(s)) ==
            if !s.ready then (if Lost(s) <= 80.0 then NotTooHot else Wilting)
            else if Lost(s) <= 5.0 then Leafy
            else if Lost(s) <= 20.0 then Sprouting
            else if Lost(s) <= 40.0 then Thirsty
            else if Lost(s) <= 60.0 then LostALeaf
            else if Lost(s) <= 80.0 then NotTooHot
            else Wilting
  {
    ScoreIsWhatIsLeft(s);
  }

  // ----- the operator's moods

  function MoodFor(ready: int, desired: int): Mood {
    if desired > 0 && ready == 0 then Wilting
    else
      var errorRate := if desired > 0 then 1.0 - ready as real / desired as real else 0.0;
      FromScore(Score(Signals(ready > 0, errorRate, 0, 0, 0)))
  }

  lemma RatioAtLeast(ready: int, desired: int, n: int, d: int)
    requires desired > 0 && d > 0
    ensures ready as real / desired as real >= n as real / d as real <==> d * ready >= n * desired
  {
    var r, e, x, y := ready as real, desired as real, n as real, d as real;
    assert (r / e) * e == r && (x / y) * y == x;
    assert (d * ready) as real == y * r && (n * desired) as real == x * e;
    if r / e >= x / y {
      MultiplyBoth(x / y, r / e, e);
      MultiplyBoth((x / y) * e, r, y);
      assert ((x / y) * e) * y == x * e;
    } else {
      MultiplyStrict(r / e, x / y, e);
      MultiplyStrict(r, (x / y) * e, y);
      assert ((x / y) * e) * y == x * e;
    }
  }

  lemma MultiplyBoth(a: real, b: real, c: real)
    requires a <= b && c > 0.0
    ensures a * c <= b * c
  {
  }

  lemma MultiplyStrict(a: real, b: real, c: real)
    requires a < b && c > 0.0
    ensures a * c < b * c
  {
  }

  /** With something ready and something desired, the mood is the readiness ratio against
      nine tenths, three fifths and one fifth. */
  lemma MoodIsReadinessLadder(ready: int, desired: int)
    requires ready >= 1 && desired >= 1
    ensures MoodFor(ready, desired) ==
            if 10 * ready >= 9 * desired then Leafy
            else if 5 * ready >= 3 * desired then Sprouting
            else if 5 * ready >= desired then Thirsty
            else LostALeaf
  {
    RatioAtLeast(ready, desired, 9, 10);
    RatioAtLeast(ready, desired, 3, 5);
    RatioAtLeast(ready, desired, 1, 5);
    var q := ready as real / desired as real;
    assert q > 0.0 by {
      MultiplyStrict(0.0, ready as real, 1.0 / desired as real);
    }
    var s := Signals(true, 1.0 - q, 0, 0, 0);
    assert (1.0 - s.errorRate) * ERROR_POINTS == q * 50.0;
  }

  /** Nothing ready is wilting when something is desired; an idle Plant is not-too-hot. */
  lemma MoodAtTheEdges(ready: int, desired: int)
    requires ready >= 0 && desired >= 0
    ensures ready == 0 && desired > 0 ==> MoodFor(ready, desired) == Wilting
    ensures ready == 0 && desired == 0 ==> MoodFor(ready, desired) == NotTooHot
    ensures ready > 0 && desired == 0 ==> MoodFor(ready, desired) == Leafy
  {
  }

  /** Another ready replica never makes the mood worse. */
  lemma MoodImprovesWithReadiness(a: int, b: int, desired: int)
    requires 0 <= a <= b && desired >= 0
    ensures Rung(MoodFor(b, desired)) <= Rung(MoodFor(a, desired))
  {
    MoodAtTheEdges(a, desired);
    MoodAtTheEdges(b, desired);
    if a >= 1 && desired >= 1 {
      MoodIsReadinessLadder(a, desired);
    }
    if b >= 1 && desired >= 1 {
      MoodIsReadinessLadder(b, desired);
    }
  }

  // ----- health percentage

  /** math.Round: to the nearest integer, halves away from zero. */
  function Round(x: real): int {
    if x >= 0.0 then (x + 0.5).Floor else -((-x + 0.5).Floor)
  }

  function HealthPercent(ready: int, desired: int): int {
    if desired == 0 then 0 else Round(ready as real / desired as real * 100.0)
  }

  /** The stored percentage is within one half of the true one. */
  lemma HealthPercentIsNearest(ready: int, desired: int)
    requires desired != 0
    ensures var exact := ready as real / desired as real * 100.0;
            -0.5 <= HealthPercent(ready, desired) as real - exact <= 0.5
  {
  }

  /** The percentage of two counts, without division: the nearest, and of two equally near
      ones the larger; zero if nothing is desired. */
  predicate IsPercentOf(percent: int, ready: int, desired: int) {
    if desired == 0 then percent == 0
    else (2 * percent - 1) * desired <= 200 * ready < (2 * percent + 1) * desired
  }

  lemma HealthPercentIsPercent(ready: int, desired: int)
    requires ready >= 0 && desired >= 0
    ensures IsPercentOf(HealthPercent(ready, desired), ready, desired)
  {
    if desired > 0 {
      DivisionIsMonotone(0.0, ready as real, desired as real);
      PercentByProducts(ready, desired, ready as real / desired as real * 100.0, HealthPercent(ready, desired));
    }
  }

  lemma PercentByProducts(ready: int, desired: int, x: real, h: int)
    requires desired > 0 && x == ready as real / desired as real * 100.0
    requires h as real - 0.5 <= x < h as real + 0.5
    ensures IsPercentOf(h, ready, desired)
  {
    PercentTimes(ready as real, desired as real);
    HalfTimes(2 * h - 1, desired);
    HalfTimes(2 * h + 1, desired);
    OrderByProducts((2 * h - 1) as real / 2.0, x, (2 * h + 1) as real / 2.0, 2.0 * desired as real,
                    (2 * h - 1) * desired, 200 * ready, (2 * h + 1) * desired);
  }

  lemma OrderByProducts(lo: real, x: real, hi: real, unit: real, a: int, b: int, c: int)
    requires lo <= x < hi && unit > 0.0
    requires lo * unit == a as real && x * unit == b as real && hi * unit == c as real
    ensures a <= b < c
  {
    MultiplyBoth(lo, x, unit);
    MultiplyStrict(x, hi, unit);
  }

  lemma PercentTimes(r: real, e: real)
    requires e > 0.0
    ensures r / e * 100.0 * (2.0 * e) == 200.0 * r
  {
    assert r / e * e == r;
  }

  lemma HalfTimes(a: int, b: int)
    ensures a as real / 2.0 * (2.0 * b as real) == (a * b) as real
  {
    assert (a * b) as real == a as real * b as real;
  }
}
