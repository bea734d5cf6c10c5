/**
 * The analysis DirectLoadTester layers over a harness report
 * (direct_stream_test.py): a stability rating with four tiers, an FPS
 * distribution built from an interpolating percentile over the sorted
 * per-stream FPS, the five cameras with most reconnections, stream
 * quality counts and a list of recommendations that always ends with
 * three fixed entries.
 *
 * run_direct_test builds its harness with a `prefix` keyword that the
 * harness constructor does not accept, so as written it raises before any
 * run; RunDirectTestAsWritten and RunDirectTest model it as written and as
 * evidently intended.
 */
module DirectAnalysis {
  import opened Common
  import opened ReportData
  import Stability

  /** Multiplying by a positive factor keeps the order. */
  lemma MulLeft(a: real, x: real, y: real)
    requires a > 0.0
    ensures x <= y <==> a * x <= a * y
  {
    if x <= y {
      assert a * (y - x) >= 0.0;
    } else {
      assert a * (x - y) > 0.0;
    }
  }

  lemma MulNonNegative(a: real, x: real, y: real)
    requires a >= 0.0 && x <= y
    ensures a * x <= a * y
  {
    assert a * (y - x) >= 0.0;
  }

  /** (x - average)**2 */
  function Sq(d: real): real
  {
    d * d
  }

  lemma SqFacts(d: real)
    ensures Sq(d) >= 0.0
    ensures d != 0.0 ==> Sq(d) > 0.0
    ensures d == 0.0 ==> Sq(d) == 0.0
  {
    if d > 0.0 {
      calc {
        Sq(d);
        d * d;
      >
        0.0;
      }
    } else if d < 0.0 {
      calc {
        Sq(d);
        d * d;
      >
        0.0;
      }
    }
  }

  /** a / t * 100 >= share * 100 exactly when a >= t * share. */
  lemma PercentOf(a: real, t: real, share: real)
    requires t > 0.0
    ensures a / t * 100.0 >= share * 100.0 <==> a >= t * share
  {
    var q := a / t;
    assert q * t == a;
    MulLeft(100.0, share, q);
    MulLeft(t, share, q);
  }

  // ---------------------------------------------------------------------
  // sorted(fps_values)
  // ---------------------------------------------------------------------

  predicate Ascending(s: seq<real>)
  {
    forall i, j :: 0 <= i < j < |s| ==> s[i] <= s[j]
  }

  function InsertAscending(x: real, s: seq<real>): (r: seq<real>)
    requires Ascending(s)
    ensures Ascending(r)
    ensures multiset(r) == multiset(s) + multiset{x}
    ensures |r| == |s| + 1
    ensures r[0] == if s == [] || x <= s[0] then x else s[0]
  {
    if s == [] || x <= s[0] then [x] + s
    else
      assert s == [s[0]] + s[1..];
      [s[0]] + InsertAscending(x, s[1..])
  }

  /** Python's sorted() on floats: an ascending permutation of the input. */
  function SortAscending(s: seq<real>): (r: seq<real>)
    ensures Ascending(r)
    ensures multiset(r) == multiset(s)
    ensures |r| == |s|
  {
    if s == [] then []
    else
      assert s == [s[0]] + s[1..];
      InsertAscending(s[0], SortAscending(s[1..]))
  }

  // ---------------------------------------------------------------------
  // percentile(vals, p)
  // ---------------------------------------------------------------------

  /** k = (len(vals) - 1) * p / 100. */
  function Rank(n: nat, p: real): (k: real)
    requires n > 0 && 0.0 <= p <= 100.0
    ensures 0.0 <= k <= (n - 1) as real
  {
    var m := (n - 1) as real;
    assert m * p <= m * 100.0;
    m * p / 100.0
  }

  lemma RankMonotone(n: nat, p: real, q: real)
    requires n > 0 && 0.0 <= p <= q <= 100.0
    ensures Rank(n, p) <= Rank(n, q)
  {
    var m := (n - 1) as real;
    calc {
      Rank(n, p);
      m * p / 100.0;
    <= { MulNonNegative(m, p, q); }
      m * q / 100.0;
      Rank(n, q);
    }
  }

  /** f = int(k). */
  function Lower(n: nat, p: real): (f: nat)
    requires n > 0 && 0.0 <= p <= 100.0
    ensures f < n
    ensures f as real <= Rank(n, p) < f as real + 1.0
  {
    Trunc(Rank(n, p))
  }

  /** c = min(f + 1, len(vals) - 1). */
  function Upper(n: nat, p: real): (c: nat)
    requires n > 0 && 0.0 <= p <= 100.0
    ensures Lower(n, p) <= c <= Lower(n, p) + 1 && c < n
    ensures c == Lower(n, p) ==> c == n - 1
  {
    if Lower(n, p) + 1 <= n - 1 then Lower(n, p) + 1 else n - 1
  }

  /**
   * The inner percentile of analyze_results: 0 on an empty list, otherwise
   * linear interpolation between the two neighbouring ranks.  On sorted
   * input the result lies between those two neighbours.
   */
  function Percentile(vals: seq<real>, p: real): (r: real)
    requires 0.0 <= p <= 100.0
    ensures vals == [] ==> r == 0.0
    ensures vals != [] && Ascending(vals) ==> vals[Lower(|vals|, p)] <= r <= vals[Upper(|vals|, p)]
  {
    if vals == [] then 0.0
    else
      var f, c := Lower(|vals|, p), Upper(|vals|, p);
      if f == c then vals[f]
      else
        var d := Rank(|vals|, p) - f as real;
        var gap := vals[c] - vals[f];
        assert Ascending(vals) ==> 0.0 <= gap * d <= gap by {
          if Ascending(vals) {
            assert gap >= 0.0;
            assert gap * d <= gap * 1.0;
          }
        }
        vals[f] + gap * d
  }

  /** On a non-empty list, the 0th percentile is the first value and the 100th the last. */
  lemma PercentileEnds(vals: seq<real>)
    requires vals != []
    ensures Percentile(vals, 0.0) == vals[0]
    ensures Percentile(vals, 100.0) == vals[|vals| - 1]
  {
    assert Rank(|vals|, 0.0) == 0.0;
    assert Rank(|vals|, 100.0) == (|vals| - 1) as real;
  }

  /** On sorted input every percentile lies between the minimum and the maximum. */
  lemma PercentileWithinRange(vals: seq<real>, p: real)
    requires vals != [] && Ascending(vals) && 0.0 <= p <= 100.0
    ensures vals[0] <= Percentile(vals, p) <= vals[|vals| - 1]
  {
    var f, c := Lower(|vals|, p), Upper(|vals|, p);
    assert vals[0] <= vals[f];
    assert vals[c] <= vals[|vals| - 1];
  }

  /** Two percentiles in the same segment: the interpolation weight grows with p. */
  lemma PercentileSameSegment(vals: seq<real>, p: real, q: real)
    requires vals != [] && Ascending(vals) && 0.0 <= p <= q <= 100.0
    requires Lower(|vals|, p) == Lower(|vals|, q)
    ensures Percentile(vals, p) <= Percentile(vals, q)
  {
    var n := |vals|;
    var f, c := Lower(n, p), Upper(n, p);
    RankMonotone(n, p, q);
    if f != c {
      var gap := vals[c] - vals[f];
      calc {
        Percentile(vals, p);
        vals[f] + gap * (Rank(n, p) - f as real);
      <= { MulNonNegative(gap, Rank(n, p) - f as real, Rank(n, q) - f as real); }
        vals[f] + gap * (Rank(n, q) - f as real);
        Percentile(vals, q);
      }
    }
  }

  /** On sorted input a higher percentile is never smaller. */
  lemma PercentileMonotone(vals: seq<real>, p: real, q: real)
    requires vals != [] && Ascending(vals) && 0.0 <= p <= q <= 100.0
    ensures Percentile(vals, p) <= Percentile(vals, q)
  {
    var n := |vals|;
    RankMonotone(n, p, q);
    TruncMonotone(Rank(n, p), Rank(n, q));
    if Lower(n, p) == Lower(n, q) {
      PercentileSameSegment(vals, p, q);
    } else {
      assert vals[Upper(n, p)] <= vals[Lower(n, q)];
    }
  }

  // ---------------------------------------------------------------------
  // The "std_dev" field: mean squared deviation from the report's average
  // FPS, with no square root taken.
  // ---------------------------------------------------------------------

  predicate AllAt(xs: seq<real>, centre: real)
  {
    forall i :: 0 <= i < |xs| ==> xs[i] == centre
  }

  /** sum((x - centre)**2 for x in xs): never negative, zero exactly when every value is the centre. */
  function SquaredDeviations(xs: seq<real>, centre: real): (r: real)
    ensures r >= 0.0
    ensures r == 0.0 <==> AllAt(xs, centre)
  {
    if xs == [] then 0.0
    else
      SqFacts(xs[0] - centre);
      assert AllAt(xs, centre) <==> xs[0] == centre && AllAt(xs[1..], centre) by {
        if xs[0] == centre && AllAt(xs[1..], centre) {
          forall i | 0 <= i < |xs| ensures xs[i] == centre {
            if i > 0 {
              assert xs[i] == xs[1..][i - 1];
            }
          }
        }
      }
      Sq(xs[0] - centre) + SquaredDeviations(xs[1..], centre)
  }

  /** The "std_dev" value: zero exactly when every stream ran at the average. */
  function Spread(xs: seq<real>, centre: real): (r: real)
    requires xs != []
    ensures r >= 0.0
    ensures r == 0.0 <==> AllAt(xs, centre)
  {
    SquaredDeviations(xs, centre) / |xs| as real
  }

  /**
   * The reported "std_dev": the spread rounded to two decimals.  It stays
   * within half a hundredth of the spread, and the "> 5" variance test on
   * it fires exactly when the spread exceeds 5.005.
   */
  function StdDev(xs: seq<real>, centre: real): (r: real)
    requires xs != []
    ensures r >= 0.0
    ensures -0.005 <= r - Spread(xs, centre) <= 0.005
    ensures r > 5.0 <==> Spread(xs, centre) > 5.005
  {
    var spread := Spread(xs, centre);
    RoundedAtMost(spread, 100, 500);
    RoundTo(spread, 100)
  }

  // ---------------------------------------------------------------------
  // Stability rating
  // ---------------------------------------------------------------------

  datatype Rating = RatingExcellent | RatingGood | RatingModerate | RatingPoor

  function RatingRank(r: Rating): nat
  {
    match r
    case RatingExcellent => 3
    case RatingGood => 2
    case RatingModerate => 1
    case RatingPoor => 0
  }

  /** achieved_streams >= stream_count * share. */
  predicate Reached(achieved: nat, target: int, share: real)
  {
    achieved as real >= target as real * share
  }

  /**
   * The rating ladder; the reconnection rate is +infinity when nothing was
   * achieved, which no finite bound admits.
   */
  function RatingOf(target: int, achieved: nat, reconnections: nat): (r: Rating)
    ensures var rate := Stability.ReconnectionRate(reconnections, achieved);
      && (r == RatingExcellent ==> Reached(achieved, target, 0.95) && Stability.RateWithin(rate, 0.1))
      && (r == RatingGood ==> Reached(achieved, target, 0.90) && Stability.RateWithin(rate, 0.2))
      && (r == RatingModerate ==> Reached(achieved, target, 0.80) && Stability.RateWithin(rate, 0.5))
      && (r == RatingPoor ==> !(Reached(achieved, target, 0.80) && Stability.RateWithin(rate, 0.5)))
  {
    var rate := Stability.ReconnectionRate(reconnections, achieved);
    if Reached(achieved, target, 0.95) && Stability.RateWithin(rate, 0.1) then RatingExcellent
    else if Reached(achieved, target, 0.90) && Stability.RateWithin(rate, 0.2) then RatingGood
    else if Reached(achieved, target, 0.80) && Stability.RateWithin(rate, 0.5) then RatingModerate
    else RatingPoor
  }

  /** "overall_stable": the rating is EXCELLENT or GOOD. */
  predicate OverallStable(r: Rating)
  {
    r == RatingExcellent || r == RatingGood
  }

  /**
   * overall_stable is exactly the controllers' stability predicate with a
   * reconnection threshold of 0.2.
   */
  lemma OverallStableIsStability(target: int, achieved: nat, reconnections: nat)
    ensures OverallStable(RatingOf(target, achieved, reconnections))
        <==> Stability.IsStable(target, achieved, reconnections, 0.2)
  {
    if Reached(achieved, target, 0.95) {
      assert target as real * 0.95 >= target as real * 0.90 || target < 0;
    }
  }

  /** More streams reached with no more reconnections never lowers the rating. */
  lemma RatingMonotone(target: int, achieved: nat, reconnections: nat, achieved': nat, reconnections': nat)
    requires achieved <= achieved' && reconnections' <= reconnections
    ensures RatingRank(RatingOf(target, achieved, reconnections)) <= RatingRank(RatingOf(target, achieved', reconnections'))
  {
    var rate := Stability.ReconnectionRate(reconnections, achieved);
    var rate' := Stability.ReconnectionRate(reconnections', achieved');
    forall bound: real | Stability.RateWithin(rate, bound)
      ensures Stability.RateWithin(rate', bound)
    {
      Stability.StableMonotone(0, achieved, reconnections, 0, achieved', reconnections', bound);
    }
  }

  datatype StabilityAssessment = StabilityAssessment(
    rating: Rating,
    achievementThresholdMet: bool,
    reconnectionThresholdMet: bool,
    overallStable: bool)

  function AssessStability(target: int, achieved: nat, reconnections: nat): (s: StabilityAssessment)
    ensures s.rating == RatingOf(target, achieved, reconnections)
    ensures s.overallStable <==> Stability.IsStable(target, achieved, reconnections, 0.2)
    ensures s.rating == RatingExcellent ==> s.achievementThresholdMet && s.reconnectionThresholdMet
    ensures s.reconnectionThresholdMet ==> achieved > 0
  {
    OverallStableIsStability(target, achieved, reconnections);
    var rating := RatingOf(target, achieved, reconnections);
    assert rating == RatingExcellent ==> Reached(achieved, target, 0.90) by {
      if rating == RatingExcellent && target >= 0 {
        assert target as real * 0.95 >= target as real * 0.90;
      }
    }
    StabilityAssessment(
      rating,
      Reached(achieved, target, 0.9),
      Stability.RateWithin(Stability.ReconnectionRate(reconnections, achieved), 0.1),
      OverallStable(rating))
  }

  // ---------------------------------------------------------------------
  // Achievement rate and the summary line
  // ---------------------------------------------------------------------

  /**
   * "achievement_rate": the share of the target reached, as a percentage
   * rounded to one decimal, 0 without a target.  The 95 and 90 thresholds
   * the summary and the recommendations test are crossed at 94.95 and
   * 89.95 percent of the exact share.
   */
  function AchievementRate(achieved: nat, target: int): (r: real)
    ensures r >= 0.0
    ensures target <= 0 ==> r == 0.0
    ensures target > 0 ==> -0.05 <= r - achieved as real / target as real * 100.0 <= 0.05
    ensures target > 0 ==> (r >= 95.0 <==> 2000 * achieved >= 1899 * target)
    ensures target > 0 ==> (r >= 90.0 <==> 2000 * achieved >= 1799 * target)
  {
    if target > 0 then
      var x := achieved as real / target as real * 100.0;
      assert achieved as real / target as real >= 0.0;
      RoundedPercentAtLeast(achieved, target, 950);
      RoundedPercentAtLeast(achieved, target, 900);
      RoundTo(x, 10)
    else 0.0
  }

  /**
   * Rounding decides at the edge: 188 of 209 streams is 89.95 % of the
   * target, below the 90 % the rating asks for, yet the achievement rate
   * reads 90.0 and no "achievement rate low" recommendation is made.
   */
  lemma {:induction false} RoundingReachesNinety()
    ensures AchievementRate(188, 209) == 90.0
    ensures !Reached(188, 209, 0.90)
    ensures forall rate, cpu, spread, unstable ::
      InvestigateConnections(90.0) !in ConditionalRecommendations(AchievementRate(188, 209), rate, cpu, spread, unstable)
  {
    var r := AchievementRate(188, 209);
    var x := 188.0 / 209.0 * 100.0;
    assert x * 10.0 <= 899.6 by {
      assert 188.0 / 209.0 * 209.0 == 188.0;
      assert 188.0 / 209.0 <= 0.8996;
    }
    assert r * 10.0 == RoundUnits(x, 10) as real;
    assert RoundUnits(x, 10) == 900;
  }

  /** The tier the summary line announces, with the counts it prints. */
  datatype Summary = Summary(tier: Rating, achieved: nat, target: int)

  function SummaryTier(rating: Rating, achievementRate: real): Rating
  {
    if rating == RatingExcellent && achievementRate >= 95.0 then RatingExcellent
    else if rating == RatingGood && achievementRate >= 90.0 then RatingGood
    else if rating == RatingModerate then RatingModerate
    else RatingPoor
  }

  /**
   * With a positive target the summary announces the rating itself.  With
   * no target the achievement rate is 0, so an EXCELLENT or GOOD rating is
   * announced as POOR.
   */
  lemma SummaryAgreesWithRating(target: int, achieved: nat, reconnections: nat)
    ensures var rating := RatingOf(target, achieved, reconnections);
      var tier := SummaryTier(rating, AchievementRate(achieved, target));
      && (target > 0 ==> tier == rating)
      && (target <= 0 ==> tier == if rating == RatingModerate then RatingModerate else RatingPoor)
  {
    var rating := RatingOf(target, achieved, reconnections);
    if target > 0 && rating == RatingGood {
      assert Reached(achieved, target, 0.90);
    }
  }

  // ---------------------------------------------------------------------
  // top_unstable_cameras
  // ---------------------------------------------------------------------

  /** Non-increasing reconnection counts. */
  predicate ByReconnections(s: seq<StreamEntry>)
  {
    forall i, j :: 0 <= i < j < |s| ==> s[i].reconnections >= s[j].reconnections
  }

  /** Number of streams with at least one reconnection. */
  function CountUnstable(s: seq<StreamEntry>): (n: nat)
    ensures n <= |s|
  {
    if s == [] then 0 else (if s[0].reconnections > 0 then 1 else 0) + CountUnstable(s[1..])
  }

  lemma ConsByReconnections(y: StreamEntry, t: seq<StreamEntry>)
    requires ByReconnections(t)
    requires t == [] || y.reconnections >= t[0].reconnections
    ensures ByReconnections([y] + t)
  {
    forall i, j | 0 <= i < j < |[y] + t|
      ensures ([y] + t)[i].reconnections >= ([y] + t)[j].reconnections
    {
      if i == 0 {
        assert t[0].reconnections >= t[j - 1].reconnections;
      }
    }
  }

  /**
   * One insertion step of sorted(..., key=reconnections, reverse=True):
   * an element goes before the first one with no more reconnections than
   * it, which keeps equal keys in their original order.
   */
  function InsertByReconnections(x: StreamEntry, s: seq<StreamEntry>): (r: seq<StreamEntry>)
    requires ByReconnections(s)
    ensures ByReconnections(r)
    ensures |r| == |s| + 1
    ensures r[0] == if s == [] || s[0].reconnections <= x.reconnections then x else s[0]
  {
    if s == [] || s[0].reconnections <= x.reconnections then
      ConsByReconnections(x, s);
      [x] + s
    else
      var t := InsertByReconnections(x, s[1..]);
      ConsByReconnections(s[0], t);
      [s[0]] + t
  }

  /** Insertion adds exactly the inserted element. */
  lemma {:induction false} InsertAddsOne(x: StreamEntry, s: seq<StreamEntry>)
    requires ByReconnections(s)
    ensures multiset(InsertByReconnections(x, s)) == multiset(s) + multiset{x}
  {
    if s != [] && s[0].reconnections > x.reconnections {
      var t := InsertByReconnections(x, s[1..]);
      InsertAddsOne(x, s[1..]);
      assert s == [s[0]] + s[1..];
      assert InsertByReconnections(x, s) == [s[0]] + t;
      assert multiset([s[0]] + t) == multiset{s[0]} + multiset(t);
      assert multiset(s) == multiset{s[0]} + multiset(s[1..]);
    }
  }

  /** Insertion counts the inserted element when it reconnected. */
  lemma {:induction false} InsertCountsOne(x: StreamEntry, s: seq<StreamEntry>)
    requires ByReconnections(s)
    ensures CountUnstable(InsertByReconnections(x, s)) == CountUnstable(s) + (if x.reconnections > 0 then 1 else 0)
  {
    var r := InsertByReconnections(x, s);
    if s == [] || s[0].reconnections <= x.reconnections {
      assert r[1..] == s;
    } else {
      InsertCountsOne(x, s[1..]);
      assert r[1..] == InsertByReconnections(x, s[1..]);
    }
  }

  /** The descending sort: ordered, a permutation, and the same unstable count. */
  function SortByReconnections(s: seq<StreamEntry>): (r: seq<StreamEntry>)
    ensures ByReconnections(r)
    ensures multiset(r) == multiset(s)
    ensures CountUnstable(r) == CountUnstable(s)
  {
    if s == [] then []
    else
      var t := SortByReconnections(s[1..]);
      SortStep(s, t);
      InsertByReconnections(s[0], t)
  }

  /** Inserting the head into the sorted tail sorts the whole sequence. */
  lemma SortStep(s: seq<StreamEntry>, t: seq<StreamEntry>)
    requires s != [] && ByReconnections(t)
    requires multiset(t) == multiset(s[1..]) && CountUnstable(t) == CountUnstable(s[1..])
    ensures multiset(InsertByReconnections(s[0], t)) == multiset(s)
    ensures CountUnstable(InsertByReconnections(s[0], t)) == CountUnstable(s)
  {
    InsertAddsOne(s[0], t);
    InsertCountsOne(s[0], t);
    assert s == [s[0]] + s[1..];
  }

  /** The comprehension's filter `if reconnections > 0`. */
  function KeepUnstable(s: seq<StreamEntry>): (r: seq<StreamEntry>)
    ensures |r| == CountUnstable(s)
    ensures forall i :: 0 <= i < |r| ==> r[i].reconnections > 0 && r[i] in s
  {
    if s == [] then []
    else if s[0].reconnections > 0 then [s[0]] + KeepUnstable(s[1..])
    else KeepUnstable(s[1..])
  }

  /** In a descending order the unstable streams come first. */
  lemma {:induction false} UnstableComeFirst(t: seq<StreamEntry>)
    requires ByReconnections(t)
    ensures KeepUnstable(t) == t[..CountUnstable(t)]
    ensures t != [] && t[0].reconnections == 0 ==> CountUnstable(t) == 0
  {
    if t != [] {
      UnstableComeFirst(t[1..]);
      if t[0].reconnections > 0 {
        assert t[..CountUnstable(t)] == [t[0]] + t[1..][..CountUnstable(t[1..])];
      }
    }
  }

  /** In a descending order, the first n streams hold min(n, #unstable) unstable ones. */
  lemma {:induction false} UnstableInPrefix(t: seq<StreamEntry>, n: nat)
    requires ByReconnections(t) && n <= |t|
    ensures CountUnstable(t[..n]) == if n <= CountUnstable(t) then n else CountUnstable(t)
  {
    if n > 0 {
      assert t[..n][1..] == t[1..][..n - 1];
      UnstableInPrefix(t[1..], n - 1);
      if t[0].reconnections == 0 {
        UnstableComeFirst(t);
        UnstableComeFirst(t[..n]);
      }
    }
  }

  /** One element of "top_unstable_cameras". */
  datatype UnstableCamera = UnstableCamera(
    cameraId: int,
    reconnections: nat,
    avgFps: real,
    totalFrames: nat,
    errorsCount: nat,
    stabilityScore: real)

  function UnstableOf(s: StreamEntry): UnstableCamera
  {
    UnstableCamera(s.cameraId, s.reconnections, s.avgFps, s.totalFrames, |s.errors|,
                   1.0 - s.reconnections as real * 0.1)
  }

  /** sorted(individual_streams, key=reconnections, reverse=True)[:5], filtered to reconnections > 0. */
  function TopStreams(streams: seq<StreamEntry>): (r: seq<StreamEntry>)
  {
    KeepUnstable(Prefix(SortByReconnections(streams), 5))
  }

  /**
   * The kept streams: min(5, number of reconnecting streams) of them, all
   * reconnecting, in non-increasing order, each from the report and none
   * more often than there; every stream left out has no more reconnections
   * than any kept one.
   */
  lemma TopStreamsFacts(streams: seq<StreamEntry>)
    ensures var r := TopStreams(streams);
      && |r| == (if CountUnstable(streams) < 5 then CountUnstable(streams) else 5)
      && ByReconnections(r)
      && (forall i :: 0 <= i < |r| ==> r[i].reconnections > 0 && r[i] in streams)
      && multiset(r) <= multiset(streams)
      && (forall s, i :: s in multiset(streams) - multiset(r) && 0 <= i < |r| ==>
            s.reconnections <= r[i].reconnections)
  {
    var sorted := SortByReconnections(streams);
    var top := Prefix(sorted, 5);
    PrefixByReconnections(sorted, |top|);
    UnstableInPrefix(sorted, |top|);
    UnstableComeFirst(top);
    PrefixByReconnections(top, CountUnstable(top));
    KeptFromReport(streams, sorted, top);
    var m := CountUnstable(top);
    assert top[..m] == sorted[..m];
    PrefixDominates(sorted, m);
  }

  /** A prefix of a descending order is a sub-multiset that dominates what it leaves out. */
  lemma PrefixDominates(t: seq<StreamEntry>, m: nat)
    requires ByReconnections(t) && m <= |t|
    ensures multiset(t[..m]) <= multiset(t)
    ensures forall s, i :: s in multiset(t) - multiset(t[..m]) && 0 <= i < m ==>
      s.reconnections <= t[..m][i].reconnections
  {
    assert t == t[..m] + t[m..];
    assert multiset(t) == multiset(t[..m]) + multiset(t[m..]);
    forall s, i | s in multiset(t) - multiset(t[..m]) && 0 <= i < m
      ensures s.reconnections <= t[..m][i].reconnections
    {
      assert s in t[m..];
      var k :| 0 <= k < |t[m..]| && t[m..][k] == s;
      assert t[m + k] == s;
    }
  }

  /** Every kept stream is a stream of the report. */
  lemma KeptFromReport(streams: seq<StreamEntry>, sorted: seq<StreamEntry>, top: seq<StreamEntry>)
    requires multiset(sorted) == multiset(streams)
    requires |top| <= |sorted| && top == sorted[..|top|]
    ensures forall i :: 0 <= i < |KeepUnstable(top)| ==> KeepUnstable(top)[i] in streams
  {
    forall i | 0 <= i < |KeepUnstable(top)| ensures KeepUnstable(top)[i] in streams {
      var x := KeepUnstable(top)[i];
      assert x in top;
      var k :| 0 <= k < |top| && top[k] == x;
      assert sorted[k] == x;
      assert x in multiset(sorted);
    }
  }

  /** A prefix of a descending order is descending. */
  lemma PrefixByReconnections(t: seq<StreamEntry>, n: nat)
    requires ByReconnections(t) && n <= |t|
    ensures ByReconnections(t[..n])
  {
    forall i, j | 0 <= i < j < n ensures t[..n][i].reconnections >= t[..n][j].reconnections {
      assert t[..n][i] == t[i] && t[..n][j] == t[j];
    }
  }

  function UnstableEntries(s: seq<StreamEntry>): (r: seq<UnstableCamera>)
    ensures |r| == |s|
    ensures forall i :: 0 <= i < |r| ==> r[i] == UnstableOf(s[i])
  {
    if s == [] then [] else [UnstableOf(s[0])] + UnstableEntries(s[1..])
  }

  /**
   * The entries come, one each, from streams taken out of the report (none
   * more often than it holds them), and every stream not taken has no more
   * reconnections than any taken one.
   */
  ghost predicate TopOf(streams: seq<StreamEntry>, r: seq<UnstableCamera>, kept: seq<StreamEntry>)
  {
    && |kept| == |r|
    && (forall i :: 0 <= i < |r| ==> r[i] == UnstableOf(kept[i]))
    && multiset(kept) <= multiset(streams)
    && (forall s, i :: s in multiset(streams) - multiset(kept) && 0 <= i < |kept| ==>
          s.reconnections <= kept[i].reconnections)
  }

  /**
   * "top_unstable_cameras": as many entries as min(5, number of
   * reconnecting streams), all reconnecting, in non-increasing order,
   * made from the reconnecting streams with the most reconnections.
   */
  function TopUnstable(streams: seq<StreamEntry>): (r: seq<UnstableCamera>)
    ensures |r| <= 5
    ensures |r| == if CountUnstable(streams) < 5 then CountUnstable(streams) else 5
    ensures forall i :: 0 <= i < |r| ==> r[i].reconnections > 0
    ensures forall i, j :: 0 <= i < j < |r| ==> r[i].reconnections >= r[j].reconnections
    ensures forall i :: 0 <= i < |r| ==> exists s :: s in streams && r[i] == UnstableOf(s)
    ensures exists kept :: TopOf(streams, r, kept)
  {
    TopEntries(streams);
    UnstableEntries(TopStreams(streams))
  }

  /** The entries of the top streams carry the facts TopStreamsFacts proves of the streams. */
  lemma TopEntries(streams: seq<StreamEntry>)
    ensures var kept := TopStreams(streams);
      var r := UnstableEntries(kept);
      && |r| == (if CountUnstable(streams) < 5 then CountUnstable(streams) else 5)
      && (forall i :: 0 <= i < |r| ==> r[i].reconnections > 0)
      && (forall i, j :: 0 <= i < j < |r| ==> r[i].reconnections >= r[j].reconnections)
      && (forall i :: 0 <= i < |r| ==> kept[i] in streams && r[i] == UnstableOf(kept[i]))
      && TopOf(streams, r, kept)
  {
    TopStreamsFacts(streams);
  }

  // ---------------------------------------------------------------------
  // FPS distribution
  // ---------------------------------------------------------------------

  function FpsValues(streams: seq<StreamEntry>): (r: seq<real>)
    ensures |r| == |streams|
    ensures forall i :: 0 <= i < |r| ==> r[i] == streams[i].avgFps
  {
    seq(|streams|, i requires 0 <= i < |streams| => streams[i].avgFps)
  }

  datatype FpsDistribution = FpsDistribution(
    min: real, p25: real, p50: real, p75: real, p90: real, p95: real, max: real, stdDev: real)

  /** Every value of a list lies between the first and last of its sorted copy. */
  lemma SortedBounds(xs: seq<real>, sorted: seq<real>)
    requires sorted == SortAscending(xs) && xs != []
    ensures |sorted| == |xs|
    ensures forall i :: 0 <= i < |xs| ==> sorted[0] <= xs[i] <= sorted[|sorted| - 1]
  {
    forall i | 0 <= i < |xs| ensures sorted[0] <= xs[i] <= sorted[|sorted| - 1] {
      assert xs[i] in multiset(xs);
      assert xs[i] in sorted;
      var k :| 0 <= k < |sorted| && sorted[k] == xs[i];
      assert sorted[0] <= sorted[k] by {
        if k > 0 {
          assert 0 < k;
        }
      }
      assert sorted[k] <= sorted[|sorted| - 1] by {
        if k < |sorted| - 1 {
          assert k < |sorted| - 1;
        }
      }
    }
  }

  /**
   * "fps_distribution": present only when there are streams; its quantiles
   * are ordered from min to max, min and max bound every stream's FPS, and
   * the spread is never negative.
   */
  function FpsDistributionOf(streams: seq<StreamEntry>, averageFps: real): (d: Option<FpsDistribution>)
    ensures d.None? <==> streams == []
    ensures d.Some? ==>
      var v := d.value;
      && v.min <= v.p25 <= v.p50 <= v.p75 <= v.p90 <= v.p95 <= v.max
      && v.stdDev == StdDev(FpsValues(streams), averageFps)
      && (forall i :: 0 <= i < |streams| ==> v.min <= streams[i].avgFps <= v.max)
  {
    if streams == [] then None
    else
      var xs := FpsValues(streams);
      var sorted := SortAscending(xs);
      SortedBounds(xs, sorted);
      var n := |sorted|;
      PercentileEnds(sorted);
      PercentileMonotone(sorted, 0.0, 25.0);
      PercentileMonotone(sorted, 25.0, 50.0);
      PercentileMonotone(sorted, 50.0, 75.0);
      PercentileMonotone(sorted, 75.0, 90.0);
      PercentileMonotone(sorted, 90.0, 95.0);
      PercentileMonotone(sorted, 95.0, 100.0);
      Some(FpsDistribution(
        sorted[0],
        Percentile(sorted, 25.0), Percentile(sorted, 50.0), Percentile(sorted, 75.0),
        Percentile(sorted, 90.0), Percentile(sorted, 95.0),
        sorted[n - 1],
        StdDev(xs, averageFps)))
  }

  // ---------------------------------------------------------------------
  // Resource utilisation and stream quality
  // ---------------------------------------------------------------------

  datatype Efficiency = HighEfficiency | ModerateEfficiency | LowEfficiency

  /** "high" below 70 %, "moderate" below 85 %, else "low". */
  function EfficiencyOf(averagePercent: real): (e: Efficiency)
    ensures e == HighEfficiency <==> averagePercent < 70.0
    ensures e == LowEfficiency <==> averagePercent >= 85.0
  {
    if averagePercent < 70.0 then HighEfficiency
    else if averagePercent < 85.0 then ModerateEfficiency
    else LowEfficiency
  }

  datatype ResourceUtilization = ResourceUtilization(
    peakCpuPercent: real,
    averageCpuPercent: real,
    peakMemoryPercent: real,
    averageMemoryPercent: real,
    cpuEfficiency: Efficiency,
    memoryEfficiency: Efficiency)

  function Utilization(r: SystemResources): ResourceUtilization
  {
    ResourceUtilization(r.peakCpuPercent, r.averageCpuPercent, r.peakMemoryPercent, r.averageMemoryPercent,
                        EfficiencyOf(r.averageCpuPercent), EfficiencyOf(r.averageMemoryPercent))
  }

  /** Number of streams whose status is in `among`. */
  function CountAmong(s: seq<StreamEntry>, among: set<Status>): (n: nat)
    ensures n <= |s|
  {
    if s == [] then 0 else (if s[0].status in among then 1 else 0) + CountAmong(s[1..], among)
  }

  /** Counting two disjoint status sets counts their union. */
  lemma {:induction false} CountAmongDisjoint(s: seq<StreamEntry>, a: set<Status>, b: set<Status>)
    requires a !! b
    ensures CountAmong(s, a) + CountAmong(s, b) == CountAmong(s, a + b)
  {
    if s != [] {
      CountAmongDisjoint(s[1..], a, b);
    }
  }

  function SumDurationsAmong(s: seq<StreamEntry>, among: set<Status>): real
  {
    if s == [] then 0.0
    else (if s[0].status in among then s[0].durationSeconds else 0.0) + SumDurationsAmong(s[1..], among)
  }

  function CountZeroFps(s: seq<StreamEntry>): (n: nat)
    ensures n <= |s|
  {
    if s == [] then 0 else (if s[0].avgFps == 0.0 then 1 else 0) + CountZeroFps(s[1..])
  }

  function CountHighFps(s: seq<StreamEntry>): (n: nat)
    ensures n <= |s|
  {
    if s == [] then 0 else (if s[0].avgFps > 25.0 then 1 else 0) + CountHighFps(s[1..])
  }

  /** A stream cannot be both idle and above 25 FPS. */
  lemma {:induction false} IdleAndFastDisjoint(s: seq<StreamEntry>)
    ensures CountZeroFps(s) + CountHighFps(s) <= |s|
  {
    if s != [] {
      IdleAndFastDisjoint(s[1..]);
    }
  }

  datatype StreamQuality = StreamQuality(
    connectionSuccessRate: real,
    averageStreamUptime: real,
    zeroFpsStreams: nat,
    highPerformanceStreams: nat,
    errorRate: real)

  /** Two disjoint counts out of n are percentages summing to at most 100. */
  lemma SharesWithin(a: nat, b: nat, n: nat)
    requires n > 0 && a + b <= n
    ensures 0.0 <= a as real / n as real * 100.0
    ensures 0.0 <= b as real / n as real * 100.0
    ensures a as real / n as real * 100.0 + b as real / n as real * 100.0 <= 100.0
  {
    var x, y, m := a as real / n as real, b as real / n as real, n as real;
    assert x * m == a as real && y * m == b as real;
    assert (x + y) * m == (a + b) as real;
    MulLeft(m, x + y, 1.0);
    assert x * 100.0 + y * 100.0 == (x + y) * 100.0;
    assert x >= 0.0 && y >= 0.0 by {
      MulLeft(m, 0.0, x);
      MulLeft(m, 0.0, y);
    }
  }

  const ConnectedOnly: set<Status> := {Connected}
  const Failed: set<Status> := {Error, Disconnected}

  /**
   * "stream_quality_metrics": present only when there are streams; the
   * success and error percentages are disjoint shares of the streams.
   */
  function QualityOf(streams: seq<StreamEntry>): (q: Option<StreamQuality>)
    ensures q.None? <==> streams == []
    ensures q.Some? ==>
      && 0.0 <= q.value.connectionSuccessRate
      && 0.0 <= q.value.errorRate
      && q.value.connectionSuccessRate + q.value.errorRate <= 100.0
      && q.value.zeroFpsStreams + q.value.highPerformanceStreams <= |streams|
  {
    if streams == [] then None
    else
      var n := |streams| as real;
      var connected := CountAmong(streams, ConnectedOnly);
      var failed := CountAmong(streams, Failed);
      CountAmongDisjoint(streams, ConnectedOnly, Failed);
      IdleAndFastDisjoint(streams);
      var success := connected as real / n * 100.0;
      var errors := failed as real / n * 100.0;
      SharesWithin(connected, failed, |streams|);
      var uptime := if connected > 0 then SumDurationsAmong(streams, ConnectedOnly) / connected as real else 0.0;
      Some(StreamQuality(success, uptime, CountZeroFps(streams), CountHighFps(streams), errors))
  }

  // ---------------------------------------------------------------------
  // Recommendations
  // ---------------------------------------------------------------------

  datatype DirectRecommendation =
    | InvestigateConnections(achievementRate: real)
    | CheckNetworkStability(reconnectionRate: Option<real>)
    | ScaleOrOptimise
    | InvestigateFpsVariance
    | ReviewUnstableCameras
    | CanHandle(achieved: nat)
    | MonitorProduction
    | ScaleGradually

  /** `[x] if c else []` */
  function When(c: bool, x: DirectRecommendation): (r: seq<DirectRecommendation>)
    ensures |r| <= 1
    ensures forall y :: y in r <==> c && y == x
  {
    if c then [x] else []
  }

  /** The recommendations that depend on the analysis, in the order they are appended. */
  function ConditionalRecommendations(achievementRate: real, rate: Option<real>, averageCpu: real,
                                      stdDev: real, unstableCameras: nat): (r: seq<DirectRecommendation>)
    ensures |r| <= 5
    ensures InvestigateConnections(achievementRate) in r <==> achievementRate < 90.0
    ensures CheckNetworkStability(rate) in r <==> !Stability.RateWithin(rate, 0.2)
    ensures ScaleOrOptimise in r <==> averageCpu > 80.0
    ensures InvestigateFpsVariance in r <==> stdDev > 5.0
    ensures ReviewUnstableCameras in r <==> unstableCameras > 0
  {
    When(achievementRate < 90.0, InvestigateConnections(achievementRate))
    + When(!Stability.RateWithin(rate, 0.2), CheckNetworkStability(rate))
    + When(averageCpu > 80.0, ScaleOrOptimise)
    + When(stdDev > 5.0, InvestigateFpsVariance)
    + When(unstableCameras > 0, ReviewUnstableCameras)
  }

  /**
   * The conditional entries, in order, followed by the three fixed ones:
   * the fixed entries are always the last three.
   */
  function DirectRecommendations(achievementRate: real, rate: Option<real>, averageCpu: real,
                                 stdDev: real, unstableCameras: nat, achieved: nat): (r: seq<DirectRecommendation>)
    ensures 3 <= |r| <= 8
    ensures r[..|r| - 3] == ConditionalRecommendations(achievementRate, rate, averageCpu, stdDev, unstableCameras)
    ensures r[|r| - 3..] == [CanHandle(achieved), MonitorProduction, ScaleGradually]
  {
    var conditional := ConditionalRecommendations(achievementRate, rate, averageCpu, stdDev, unstableCameras);
    var fixed := [CanHandle(achieved), MonitorProduction, ScaleGradually];
    assert (conditional + fixed)[..|conditional|] == conditional;
    assert (conditional + fixed)[|conditional|..] == fixed;
    conditional + fixed
  }

  // ---------------------------------------------------------------------
  // analyze_results and enhance_report_with_analysis
  // ---------------------------------------------------------------------

  datatype Characteristics = Characteristics(
    targetStreams: int,
    achievedStreams: nat,
    achievementRate: real,
    avgFpsPerStream: real,
    totalFramesReceived: nat,
    totalBytesReceived: nat,
    reconnectionRate: Option<real>,
    testDurationActual: real)

  datatype DirectReportAnalysis = DirectReportAnalysis(
    summary: Summary,
    characteristics: Characteristics,
    stability: StabilityAssessment,
    topUnstable: seq<UnstableCamera>,
    fpsDistribution: Option<FpsDistribution>,
    resources: ResourceUtilization,
    quality: Option<StreamQuality>,
    recommendations: seq<DirectRecommendation>)

  /** "performance_characteristics". */
  function CharacteristicsOf(target: int, report: LoadReport): (c: Characteristics)
    ensures c.achievedStreams == report.testInfo.maxConcurrentAchieved
    ensures c.achievementRate == AchievementRate(c.achievedStreams, target)
    ensures c.reconnectionRate.None? <==> report.testInfo.maxConcurrentAchieved == 0
    ensures target > 0 ==> (c.achievementRate >= 95.0 <==> 2000 * c.achievedStreams >= 1899 * target)
  {
    var achieved := report.testInfo.maxConcurrentAchieved;
    Characteristics(
      target, achieved, AchievementRate(achieved, target), report.performance.averageFps,
      report.performance.totalFramesReceived, report.performance.totalBytesReceived,
      Stability.ReconnectionRate(report.performance.totalReconnections, achieved),
      report.testInfo.durationSeconds)
  }

  /**
   * analyze_results of DirectLoadTester for a target of `target` streams:
   * overall_stable is the shared stability predicate at threshold 0.2, the
   * summary announces the rating whenever there is a target, and the
   * recommendations end with the statement of what the system handled.
   */
  function AnalyzeDirect(target: int, report: LoadReport): (a: DirectReportAnalysis)
    ensures a.stability.overallStable
        <==> Stability.IsStable(target, report.testInfo.maxConcurrentAchieved, report.performance.totalReconnections, 0.2)
    ensures target > 0 ==> a.summary.tier == a.stability.rating
    ensures |a.recommendations| >= 3
    ensures a.recommendations[|a.recommendations| - 3] == CanHandle(report.testInfo.maxConcurrentAchieved)
  {
    var characteristics := CharacteristicsOf(target, report);
    var achieved := characteristics.achievedStreams;
    var stability := AssessStability(target, achieved, report.performance.totalReconnections);
    SummaryAgreesWithRating(target, achieved, report.performance.totalReconnections);
    var top := TopUnstable(report.streams);
    var fps := FpsDistributionOf(report.streams, report.performance.averageFps);
    var resources := Utilization(report.resources);
    var stdDev := if fps.Some? then fps.value.stdDev else 0.0;
    var recommendations := DirectRecommendations(characteristics.achievementRate, characteristics.reconnectionRate,
                                                 resources.averageCpuPercent, stdDev, |top|, achieved);
    assert recommendations[|recommendations| - 3] == CanHandle(achieved);
    DirectReportAnalysis(
      Summary(SummaryTier(stability.rating, characteristics.achievementRate), achieved, target),
      characteristics, stability, top, fps, resources, QualityOf(report.streams), recommendations)
  }

  /** "direct_test_info". */
  datatype DirectTestInfo = DirectTestInfo(
    targetStreams: int,
    achievedStreams: nat,
    testDuration: int,
    successRate: real)

  /** The harness report with the direct-test block added and "analysis" replaced. */
  datatype EnhancedReport = EnhancedReport(base: LoadReport, directInfo: DirectTestInfo, analysis: DirectReportAnalysis)

  /**
   * enhance_report_with_analysis: the report is kept, and success_rate is
   * the achievement rate as a fraction (0 without a target).
   */
  function Enhance(streamCount: int, testDuration: int, report: LoadReport): (e: EnhancedReport)
    ensures e.base == report
    ensures e.directInfo.achievedStreams == e.analysis.characteristics.achievedStreams
    ensures streamCount > 0 ==>
      -0.05 <= e.analysis.characteristics.achievementRate - e.directInfo.successRate * 100.0 <= 0.05
    ensures streamCount <= 0 ==> e.directInfo.successRate == 0.0 == e.analysis.characteristics.achievementRate
    ensures e.analysis.stability.overallStable
        <==> Stability.IsStable(streamCount, report.testInfo.maxConcurrentAchieved, report.performance.totalReconnections, 0.2)
  {
    var achieved := report.testInfo.maxConcurrentAchieved;
    var success := if streamCount > 0 then achieved as real / streamCount as real else 0.0;
    EnhancedReport(report, DirectTestInfo(streamCount, achieved, testDuration, success),
                   AnalyzeDirect(streamCount, report))
  }

  // ---------------------------------------------------------------------
  // run_direct_test
  // ---------------------------------------------------------------------

  datatype DirectOutcome =
    | DirectRaised(message: string)          // an exception escapes run_direct_test
    | DirectError(message: string)           // {"error": ...}
    | DirectReport(report: EnhancedReport)

  const PrefixRejected: string := "__init__() got an unexpected keyword argument 'prefix'"

  /**
   * As written: the harness constructor is called with `prefix=`, which it
   * does not accept, and the call sits before the try block, so the
   * TypeError escapes whatever the harness would have produced.
   */
  function RunDirectTestAsWritten(streamCount: int, testDuration: int, harness: HarnessResult): (r: DirectOutcome)
    ensures r.DirectRaised?
  {
    DirectRaised(PrefixRejected)
  }

  /** No input lets the as-written run_direct_test produce a report. */
  lemma AsWrittenNeverReports(streamCount: int, testDuration: int, harness: HarnessResult)
    ensures !RunDirectTestAsWritten(streamCount, testDuration, harness).DirectReport?
    ensures harness.HarnessReport? ==>
      RunDirectTestAsWritten(streamCount, testDuration, harness) != RunDirectTest(streamCount, testDuration, harness)
  {
  }

  /**
   * As evidently intended: the harness runs; its error report is passed
   * on and a full report is enhanced with the direct-test analysis.
   */
  function RunDirectTest(streamCount: int, testDuration: int, harness: HarnessResult): (r: DirectOutcome)
    ensures !r.DirectRaised?
    ensures r.DirectError? <==> harness.HarnessError?
    ensures harness.HarnessError? ==> r.message == harness.message
    ensures harness.HarnessReport? ==> r.DirectReport? && r.report.base == harness.report
  {
    match harness
    case HarnessError(message) => DirectError(message)
    case HarnessReport(report) => DirectReport(Enhance(streamCount, testDuration, report))
  }
}
