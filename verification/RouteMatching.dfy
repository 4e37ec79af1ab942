// Matching a trip to a known route (usecase/route_matching.go): both polylines are resampled
// to equally spaced points along their length and compared point by point.
module RouteMatching {
  import opened Domain

  // ---- arc length ----

  // Length of the polyline up to its i-th point.
  function Cum(dist: Distance, pts: seq<GeoPoint>, i: nat): real
    requires i < |pts|
  {
    if i == 0 then 0.0 else Cum(dist, pts, i - 1) + dist(pts[i - 1], pts[i])
  }

  function Total(dist: Distance, pts: seq<GeoPoint>): real
    requires pts != []
  {
    Cum(dist, pts, |pts| - 1)
  }

  // The segment, searched from the j-th on, that reaches a length; the last one at the latest.
  function SearchFrom(dist: Distance, pts: seq<GeoPoint>, target: real, j: nat): (k: nat)
    requires j + 1 < |pts|
    ensures j <= k && k + 1 < |pts|
    decreases |pts| - j
  {
    if j + 1 < |pts| - 1 && Cum(dist, pts, j + 1) < target then SearchFrom(dist, pts, target, j + 1) else j
  }

  function Lerp(p: GeoPoint, q: GeoPoint, t: real): GeoPoint {
    GeoPoint(p.lat + t * (q.lat - p.lat), p.lon + t * (q.lon - p.lon))
  }

  // How far x lies between a and b.
  function Fraction(a: real, x: real, b: real): real
    requires a != b
  {
    (x - a) / (b - a)
  }

  function Sample(dist: Distance, pts: seq<GeoPoint>, j: nat, target: real): GeoPoint
    requires j + 1 < |pts|
  {
    var a, b := Cum(dist, pts, j), Cum(dist, pts, j + 1);
    if a == b then pts[j] else Lerp(pts[j], pts[j + 1], Fraction(a, target, b))
  }

  function Target(total: real, i: nat, n: nat): real
    requires n >= 2
  {
    total * i as real / (n - 1) as real
  }

  // The i-th of n samples, found by a search from the first segment.
  function SampleOf(dist: Distance, pts: seq<GeoPoint>, n: int, i: nat): GeoPoint
    requires |pts| >= 2 && n >= 2
  {
    var target := Target(Total(dist, pts), i, n);
    Sample(dist, pts, SearchFrom(dist, pts, target, 0), target)
  }

  function Resampled(dist: Distance, pts: seq<GeoPoint>, n: int): (r: seq<GeoPoint>)
    ensures |r| == if pts == [] || n <= 0 then 0 else n
  {
    if pts == [] || n <= 0 then []
    else if |pts| == 1 || n == 1 || Total(dist, pts) == 0.0 then seq(n, i => pts[0])
    else
      seq(n, i requires 0 <= i < n => SampleOf(dist, pts, n, i))
  }

  ghost predicate NonNegative(dist: Distance) {
    forall p, q :: 0.0 <= dist(p, q)
  }

  lemma {:induction false} CumGrows(dist: Distance, pts: seq<GeoPoint>, i: nat, j: nat)
    requires NonNegative(dist) && i <= j < |pts|
    ensures 0.0 <= Cum(dist, pts, i) <= Cum(dist, pts, j)
  {
    if i < j {
      CumGrows(dist, pts, i, j - 1);
    } else if i > 0 {
      CumGrows(dist, pts, i - 1, i - 1);
    }
  }

  // A search may start from where the search for a smaller length ended.
  lemma {:induction false} SearchResumes(dist: Distance, pts: seq<GeoPoint>, earlier: real, target: real, j: nat)
    requires j + 1 < |pts| && earlier <= target
    ensures SearchFrom(dist, pts, target, SearchFrom(dist, pts, earlier, j)) == SearchFrom(dist, pts, target, j)
    decreases |pts| - j
  {
    if j + 1 < |pts| - 1 && Cum(dist, pts, j + 1) < earlier {
      SearchResumes(dist, pts, earlier, target, j + 1);
    }
  }

  lemma TargetsGrow(total: real, i: nat, k: nat, n: nat)
    requires 0.0 <= total && i <= k < n && n >= 2
    ensures 0.0 <= Target(total, i, n) <= Target(total, k, n) <= total
  {
    hide *;
    TargetEnds(total, n);
    TargetRises(total, 0, i, n);
    TargetRises(total, i, k, n);
    TargetRises(total, k, n - 1, n);
  }

  lemma TargetRises(total: real, i: nat, k: nat, n: nat)
    requires 0.0 <= total && i <= k < n && n >= 2
    ensures Target(total, i, n) <= Target(total, k, n)
  {
    ShareGrows(total, i as real, k as real, (n - 1) as real);
  }

  lemma ShareGrows(total: real, a: real, b: real, steps: real)
    requires 0.0 <= total && 0.0 <= a <= b && steps > 0.0
    ensures total * a / steps <= total * b / steps
  {
    ScaleGrows(total, a, b);
    QuotientGrows(total * a, total * b, steps);
  }

  lemma TargetEnds(total: real, n: nat)
    requires n >= 2
    ensures Target(total, 0, n) == 0.0 && Target(total, n - 1, n) == total
  {
    QuotientOfProduct(total, (n - 1) as real);
  }

  lemma ScaleGrows(x: real, a: real, b: real)
    requires 0.0 <= x && 0.0 <= a <= b
    ensures 0.0 <= x * a <= x * b
  {
    assert x * (b - a) >= 0.0;
  }

  lemma QuotientGrows(a: real, b: real, c: real)
    requires a <= b && c > 0.0
    ensures a / c <= b / c
  {
  }

  lemma QuotientOfProduct(x: real, c: real)
    requires c > 0.0
    ensures x * c / c == x
  {
  }

  // Length up to every point.
  method Lengths(dist: Distance, pts: seq<GeoPoint>) returns (cum: array<real>)
    requires pts != []
    ensures fresh(cum) && cum.Length == |pts|
    ensures forall k :: 0 <= k < |pts| ==> cum[k] == Cum(dist, pts, k)
  {
    cum := new real[|pts|];
    cum[0] := 0.0;
    for i := 1 to |pts|
      invariant forall k :: 0 <= k < i ==> cum[k] == Cum(dist, pts, k)
    {
      cum[i] := cum[i - 1] + dist(pts[i - 1], pts[i]);
    }
  }

  // Move the pointer forward until its segment reaches the length.
  method Advance(dist: Distance, pts: seq<GeoPoint>, cum: array<real>, target: real, start: nat) returns (j: nat)
    requires cum.Length == |pts| && start + 1 < |pts|
    requires forall k :: 0 <= k < |pts| ==> cum[k] == Cum(dist, pts, k)
    ensures j == SearchFrom(dist, pts, target, start)
  {
    j := start;
    while j + 1 < |pts| - 1 && cum[j + 1] < target
      invariant j + 1 < |pts| && SearchFrom(dist, pts, target, j) == SearchFrom(dist, pts, target, start)
    {
      j := j + 1;
    }
  }

  // The source also guards against the pointer running past the last segment, which the
  // precondition shows it cannot.
  method SampleAt(dist: Distance, pts: seq<GeoPoint>, cum: array<real>, j: nat, target: real) returns (p: GeoPoint)
    requires cum.Length == |pts| && j + 1 < |pts|
    requires forall k :: 0 <= k < |pts| ==> cum[k] == Cum(dist, pts, k)
    ensures p == Sample(dist, pts, j, target)
  {
    var length := cum[j + 1] - cum[j];
    if length == 0.0 {
      return pts[j];
    }
    hide Lerp, Cum;
    var t := (target - cum[j]) / length;
    assert t == Fraction(Cum(dist, pts, j), target, Cum(dist, pts, j + 1));
    p := Lerp(pts[j], pts[j + 1], t);
  }

  // The loop over the outputs: one pointer, which only moves forward.
  method SampleAll(dist: Distance, pts: seq<GeoPoint>, cum: array<real>, n: int) returns (result: seq<GeoPoint>)
    requires NonNegative(dist) && |pts| >= 2 && n >= 2 && cum.Length == |pts|
    requires forall k :: 0 <= k < |pts| ==> cum[k] == Cum(dist, pts, k)
    ensures |result| == n && forall k :: 0 <= k < n ==> result[k] == SampleOf(dist, pts, n, k)
  {
    hide Lerp, Fraction, Target, Sample, SearchFrom;
    var total := cum[|pts| - 1];
    CumGrows(dist, pts, 0, |pts| - 1);
    result := [];
    var j := 0;
    for i := 0 to n
      invariant j + 1 < |pts| && |result| == i
      invariant i == 0 ==> j == 0
      invariant i > 0 ==> j == SearchFrom(dist, pts, Target(total, i - 1, n), 0)
      invariant forall k :: 0 <= k < i ==> result[k] == SampleOf(dist, pts, n, k)
    {
      var target := TargetOf(total, i, n);
      if i > 0 {
        TargetsGrow(total, i - 1, i, n);
        SearchResumes(dist, pts, Target(total, i - 1, n), target, 0);
      }
      j := Advance(dist, pts, cum, target, j);
      var p := SampleAt(dist, pts, cum, j, target);
      result := result + [p];
    }
  }

  method NormalizePolyline(dist: Distance, pts: seq<GeoPoint>, n: int) returns (result: seq<GeoPoint>)
    requires NonNegative(dist)
    ensures result == Resampled(dist, pts, n)
  {
    hide SampleOf;
    if |pts| == 0 || n <= 0 {
      return [];
    }
    if |pts| == 1 || n == 1 {
      return seq(n, i => pts[0]);
    }
    var cum := Lengths(dist, pts);
    if cum[|pts| - 1] == 0.0 {
      return seq(n, i => pts[0]);
    }
    result := SampleAll(dist, pts, cum, n);
  }

  method TargetOf(total: real, i: nat, n: nat) returns (target: real)
    requires n >= 2
    ensures target == Target(total, i, n)
  {
    target := total * i as real / (n - 1) as real;
  }

  // ---- what a sample is ----

  // The point reached after walking this far along the polyline.
  ghost predicate IsAtLength(dist: Distance, pts: seq<GeoPoint>, target: real, p: GeoPoint, j: nat, t: real) {
    && j + 1 < |pts| && 0.0 <= t <= 1.0
    && Cum(dist, pts, j) <= target <= Cum(dist, pts, j + 1)
    && target == Cum(dist, pts, j) + t * (Cum(dist, pts, j + 1) - Cum(dist, pts, j))
    && p == Lerp(pts[j], pts[j + 1], t)
  }

  lemma {:induction false} SearchBrackets(dist: Distance, pts: seq<GeoPoint>, target: real, j: nat)
    requires j + 1 < |pts| && Cum(dist, pts, j) <= target <= Total(dist, pts)
    ensures
      var k := SearchFrom(dist, pts, target, j);
      && Cum(dist, pts, k) <= target <= Cum(dist, pts, k + 1)
      && (k == j || Cum(dist, pts, k) < target)
    decreases |pts| - j
  {
    if j + 1 < |pts| - 1 && Cum(dist, pts, j + 1) < target {
      SearchBrackets(dist, pts, target, j + 1);
    }
  }

  lemma FractionIsBetween(a: real, x: real, b: real)
    requires a <= x <= b && a < b
    ensures 0.0 <= Fraction(a, x, b) <= 1.0
    ensures x == a + Fraction(a, x, b) * (b - a)
  {
    var width := b - a;
    QuotientGrows(0.0, x - a, width);
    QuotientGrows(x - a, width, width);
    QuotientOfProduct(1.0, width);
    assert (x - a) / width * width == x - a;
  }

  lemma FractionEnds(a: real, b: real)
    requires a < b
    ensures Fraction(a, a, b) == 0.0 && Fraction(a, b, b) == 1.0
  {
    QuotientOfProduct(1.0, b - a);
  }

  lemma SampleIsAtLength(dist: Distance, pts: seq<GeoPoint>, j: nat, target: real) returns (t: real)
    requires j + 1 < |pts| && Cum(dist, pts, j) <= target <= Cum(dist, pts, j + 1)
    ensures IsAtLength(dist, pts, target, Sample(dist, pts, j, target), j, t)
  {
    hide Fraction, Lerp;
    var a, b := Cum(dist, pts, j), Cum(dist, pts, j + 1);
    if a == b {
      t := 0.0;
      LerpEnds(pts[j], pts[j + 1]);
    } else {
      t := Fraction(a, target, b);
      FractionIsBetween(a, target, b);
    }
  }

  // With one pointer that only moves forward, every output is the point at its own share of
  // the length, and every fraction stays between zero and one.
  lemma {:induction false} OutputsAreEvenlySpaced(dist: Distance, pts: seq<GeoPoint>, n: int, i: nat)
    returns (j: nat, t: real)
    requires NonNegative(dist) && |pts| >= 2 && n >= 2 && Total(dist, pts) > 0.0 && i < n
    ensures IsAtLength(dist, pts, Target(Total(dist, pts), i, n), Resampled(dist, pts, n)[i], j, t)
  {
    hide Target, Sample, Lerp;
    var target := Target(Total(dist, pts), i, n);
    TargetsGrow(Total(dist, pts), i, i, n);
    SearchBrackets(dist, pts, target, 0);
    j := SearchFrom(dist, pts, target, 0);
    t := SampleIsAtLength(dist, pts, j, target);
  }

  lemma LerpEnds(p: GeoPoint, q: GeoPoint)
    ensures Lerp(p, q, 0.0) == p && Lerp(p, q, 1.0) == q
  {
  }

  lemma {:induction false} FirstOutputIsStart(dist: Distance, pts: seq<GeoPoint>, n: int)
    requires NonNegative(dist) && |pts| >= 2 && n >= 2 && Total(dist, pts) > 0.0
    ensures Resampled(dist, pts, n)[0] == pts[0]
  {
    hide Target, Lerp, Fraction;
    TargetEnds(Total(dist, pts), n);
    CumGrows(dist, pts, 0, 1);
    LerpEnds(pts[0], pts[1]);
    assert SearchFrom(dist, pts, 0.0, 0) == 0;
    if Cum(dist, pts, 1) > 0.0 {
      FractionEnds(0.0, Cum(dist, pts, 1));
    }
  }

  // From the point where the full length is reached, only segments of length zero follow.
  lemma {:induction false} NothingLeft(dist: Distance, pts: seq<GeoPoint>, j: nat, k: nat)
    requires IsMetric(dist) && j <= k < |pts| && Cum(dist, pts, j) == Total(dist, pts)
    ensures dist(pts[j], pts[k]) == 0.0
  {
    if j < k {
      hide *;
      MetricIsNonNegative(dist);
      NothingLeft(dist, pts, j, k - 1);
      CumGrows(dist, pts, j, k - 1);
      CumGrows(dist, pts, k, |pts| - 1);
      CumStep(dist, pts, k);
      Triangle(dist, pts[j], pts[k - 1], pts[k]);
    } else {
      Triangle(dist, pts[j], pts[j], pts[j]);
    }
  }

  lemma CumStep(dist: Distance, pts: seq<GeoPoint>, k: nat)
    requires 0 < k < |pts|
    ensures Cum(dist, pts, k) == Cum(dist, pts, k - 1) + dist(pts[k - 1], pts[k])
    ensures Total(dist, pts) == Cum(dist, pts, |pts| - 1)
  {
  }

  lemma Triangle(dist: Distance, p: GeoPoint, q: GeoPoint, r: GeoPoint)
    requires IsMetric(dist)
    ensures 0.0 <= dist(p, r) <= dist(p, q) + dist(q, r) && 0.0 <= dist(q, r) && dist(p, p) == 0.0
  {
  }

  // Different points are a positive distance apart. Not so on the sphere at a pole or across
  // the antimeridian, where one place has several coordinates.
  ghost predicate Separates(dist: Distance) {
    forall p, q :: dist(p, q) == 0.0 ==> p == q
  }

  lemma {:induction false} LastOutputIsEnd(dist: Distance, pts: seq<GeoPoint>, n: int)
    requires IsMetric(dist) && |pts| >= 2 && n >= 2 && Total(dist, pts) > 0.0
    ensures dist(Resampled(dist, pts, n)[n - 1], pts[|pts| - 1]) == 0.0
    ensures Separates(dist) ==> Resampled(dist, pts, n)[n - 1] == pts[|pts| - 1]
  {
    hide Target, Lerp, Fraction, IsMetric, SearchFrom, Sample, Cum;
    var total := Total(dist, pts);
    TargetEnds(total, n);
    var j := EndIsReached(dist, pts);
    assert Resampled(dist, pts, n)[n - 1] == SampleOf(dist, pts, n, n - 1);
    NothingLeft(dist, pts, j + 1, |pts| - 1);
  }

  // The sample at the full length is the end of the segment that reaches it.
  lemma EndIsReached(dist: Distance, pts: seq<GeoPoint>) returns (j: nat)
    requires IsMetric(dist) && |pts| >= 2 && Total(dist, pts) > 0.0
    ensures j == SearchFrom(dist, pts, Total(dist, pts), 0) && j + 1 < |pts|
    ensures Cum(dist, pts, j + 1) == Total(dist, pts) && Sample(dist, pts, j, Total(dist, pts)) == pts[j + 1]
  {
    hide Lerp, Fraction, IsMetric, SearchFrom;
    var total := Total(dist, pts);
    j := SearchFrom(dist, pts, total, 0);
    MetricIsNonNegative(dist);
    SearchBrackets(dist, pts, total, 0);
    CumGrows(dist, pts, j + 1, |pts| - 1);
    LerpEnds(pts[j], pts[j + 1]);
    FractionEnds(Cum(dist, pts, j), total);
  }

  lemma MetricIsNonNegative(dist: Distance)
    requires IsMetric(dist)
    ensures NonNegative(dist)
  {
  }

  // ---- matching ----

  function Power2(n: nat): (r: real)
    ensures r >= 1.0
  {
    if n == 0 then 1.0 else 2.0 * Power2(n - 1)
  }

  // math.MaxFloat64
  function MaxFloat64(): (r: real)
    ensures r >= 0.0
  {
    (Power2(53) - 1.0) * Power2(971)
  }

  function SumOfDistances(dist: Distance, a: seq<GeoPoint>, b: seq<GeoPoint>, n: nat): real
    requires n <= |a| == |b|
  {
    if n == 0 then 0.0 else SumOfDistances(dist, a, b, n - 1) + dist(a[n - 1], b[n - 1])
  }

  function AvgPointDistance(dist: Distance, a: seq<GeoPoint>, b: seq<GeoPoint>): real {
    if |a| != |b| || |a| == 0 then MaxFloat64() else SumOfDistances(dist, a, b, |a|) / |a| as real
  }

  method AveragePointDistance(dist: Distance, a: seq<GeoPoint>, b: seq<GeoPoint>) returns (average: real)
    ensures average == AvgPointDistance(dist, a, b)
  {
    if |a| != |b| || |a| == 0 {
      return MaxFloat64();
    }
    var sum := 0.0;
    for i := 0 to |a|
      invariant sum == SumOfDistances(dist, a, b, i)
    {
      sum := sum + dist(a[i], b[i]);
    }
    average := sum / |a| as real;
  }

  type RouteId = string

  datatype Route = Route(id: RouteId, end: GeoPoint, distanceM: real)

  datatype MatchedTrip = MatchedTrip(end: Option<GeoPoint>, distanceM: real)

  // No route when routeId is absent.
  datatype MatchResult = MatchResult(routeId: Option<RouteId>, score: real)

  function Abs(x: real): real {
    if x < 0.0 then -x else x
  }

  datatype Matcher = Matcher(
    dist: Distance,
    templates: map<RouteId, seq<GeoPoint>>,
    endRadiusM: real,
    distanceToleranceRatio: real,
    pathSimilarityThresholdM: real,
    minTripPoints: int,
    normalizePointsN: int)
  {
    // A trip without an end counts as ending at the origin.
    function EndOf(trip: MatchedTrip): GeoPoint {
      if trip.end.Some? then trip.end.value else GeoPoint(0.0, 0.0)
    }

    // End point, length and template of the route fit the trip.
    predicate MayMatch(trip: MatchedTrip, r: Route) {
      && dist(EndOf(trip), r.end) <= endRadiusM
      && (r.distanceM > 0.0 ==> Abs(trip.distanceM - r.distanceM) / r.distanceM <= distanceToleranceRatio)
      && r.id in templates && templates[r.id] != []
    }

    function DistanceTo(tripNorm: seq<GeoPoint>, r: Route): real
      requires r.id in templates
    {
      AvgPointDistance(dist, tripNorm, Resampled(dist, templates[r.id], normalizePointsN))
    }

    // With a threshold of zero the score is not a number, which no comparison prefers.
    predicate IsEligible(trip: MatchedTrip, tripNorm: seq<GeoPoint>, r: Route) {
      && MayMatch(trip, r)
      && DistanceTo(tripNorm, r) <= pathSimilarityThresholdM
      && pathSimilarityThresholdM != 0.0
    }

    function ScoreOf(tripNorm: seq<GeoPoint>, r: Route): real
      requires r.id in templates && pathSimilarityThresholdM != 0.0
    {
      var score := 1.0 - DistanceTo(tripNorm, r) / pathSimilarityThresholdM;
      if score >= 0.0 then score else 0.0
    }

    function Best(trip: MatchedTrip, tripNorm: seq<GeoPoint>, candidates: seq<Route>, n: nat): MatchResult
      requires n <= |candidates|
    {
      if n == 0 then MatchResult(None, -1.0)
      else
        var best, r := Best(trip, tripNorm, candidates, n - 1), candidates[n - 1];
        if IsEligible(trip, tripNorm, r) && ScoreOf(tripNorm, r) > best.score then
          MatchResult(Some(r.id), ScoreOf(tripNorm, r))
        else
          best
    }

    function BestMatch(trip: MatchedTrip, tripPoints: seq<GeoPoint>, candidates: seq<Route>): MatchResult {
      if |tripPoints| < minTripPoints then MatchResult(None, 0.0)
      else Best(trip, Resampled(dist, tripPoints, normalizePointsN), candidates, |candidates|)
    }
  }

  method FindBestMatch(m: Matcher, trip: MatchedTrip, tripPoints: seq<GeoPoint>, candidates: seq<Route>)
    returns (result: MatchResult)
    requires NonNegative(m.dist)
    ensures result == m.BestMatch(trip, tripPoints, candidates)
  {
    hide Resampled, AvgPointDistance, Abs;
    if |tripPoints| < m.minTripPoints {
      return MatchResult(None, 0.0);
    }
    var tripNorm := NormalizePolyline(m.dist, tripPoints, m.normalizePointsN);
    var end := GeoPoint(0.0, 0.0);
    if trip.end.Some? {
      end := trip.end.value;
    }
    var bestScore := -1.0;
    var bestId: Option<RouteId> := None;
    for i := 0 to |candidates|
      invariant MatchResult(bestId, bestScore) == m.Best(trip, tripNorm, candidates, i)
    {
      var r := candidates[i];
      if m.dist(end, r.end) > m.endRadiusM {
        continue;
      }
      if r.distanceM > 0.0 && Abs(trip.distanceM - r.distanceM) / r.distanceM > m.distanceToleranceRatio {
        continue;
      }
      if r.id !in m.templates || m.templates[r.id] == [] {
        continue;
      }
      var routeNorm := NormalizePolyline(m.dist, m.templates[r.id], m.normalizePointsN);
      var average := AveragePointDistance(m.dist, tripNorm, routeNorm);
      if average > m.pathSimilarityThresholdM || m.pathSimilarityThresholdM == 0.0 {
        continue;
      }
      var score := 1.0 - average / m.pathSimilarityThresholdM;
      if score < 0.0 {
        score := 0.0;
      }
      if score > bestScore {
        bestScore, bestId := score, Some(r.id);
      }
    }
    result := MatchResult(bestId, bestScore);
  }

  // ---- the best match is a true minimum ----

  lemma {:induction false} SumIsNotNegative(dist: Distance, a: seq<GeoPoint>, b: seq<GeoPoint>, n: nat)
    requires NonNegative(dist) && n <= |a| == |b|
    ensures 0.0 <= SumOfDistances(dist, a, b, n)
  {
    if n > 0 {
      SumIsNotNegative(dist, a, b, n - 1);
    }
  }

  lemma AverageIsNotNegative(dist: Distance, a: seq<GeoPoint>, b: seq<GeoPoint>)
    requires NonNegative(dist)
    ensures 0.0 <= AvgPointDistance(dist, a, b)
  {
    hide MaxFloat64;
    if |a| == |b| && |a| > 0 {
      SumIsNotNegative(dist, a, b, |a|);
      QuotientGrows(0.0, SumOfDistances(dist, a, b, |a|), |a| as real);
    }
  }

  // An eligible route scores between 0 and 1, and nearer routes score higher.
  lemma ScoresAreOrdered(m: Matcher, trip: MatchedTrip, tripNorm: seq<GeoPoint>, r: Route, q: Route)
    requires NonNegative(m.dist) && m.pathSimilarityThresholdM > 0.0
    requires m.IsEligible(trip, tripNorm, r) && m.IsEligible(trip, tripNorm, q)
    ensures 0.0 <= m.ScoreOf(tripNorm, r) <= 1.0
    ensures m.ScoreOf(tripNorm, r) > m.ScoreOf(tripNorm, q) <==> m.DistanceTo(tripNorm, r) < m.DistanceTo(tripNorm, q)
  {
    var c, a, b := m.pathSimilarityThresholdM, m.DistanceTo(tripNorm, r), m.DistanceTo(tripNorm, q);
    AverageIsNotNegative(m.dist, tripNorm, Resampled(m.dist, m.templates[r.id], m.normalizePointsN));
    AverageIsNotNegative(m.dist, tripNorm, Resampled(m.dist, m.templates[q.id], m.normalizePointsN));
    hide Resampled, AvgPointDistance, Abs;
    QuotientOfProduct(1.0, c);
    QuotientGrows(0.0, a, c);
    QuotientGrows(a, c, c);
    QuotientGrows(0.0, b, c);
    QuotientGrows(b, c, c);
    QuotientIsStrict(a, b, c);
    QuotientIsStrict(b, a, c);
  }

  lemma QuotientIsStrict(a: real, b: real, c: real)
    requires c > 0.0
    ensures a < b <==> a / c < b / c
  {
  }

  // The k-th candidate is the first eligible one of least distance among the first n.
  ghost predicate IsFirstLeast(m: Matcher, trip: MatchedTrip, tripNorm: seq<GeoPoint>, candidates: seq<Route>, n: nat,
                               k: nat) {
    && k < n <= |candidates| && m.IsEligible(trip, tripNorm, candidates[k])
    && (forall i :: 0 <= i < n && m.IsEligible(trip, tripNorm, candidates[i]) ==>
          && m.DistanceTo(tripNorm, candidates[k]) <= m.DistanceTo(tripNorm, candidates[i])
          && (i < k ==> m.DistanceTo(tripNorm, candidates[k]) < m.DistanceTo(tripNorm, candidates[i])))
  }

  lemma {:induction false} BestIsFirstLeast(m: Matcher, trip: MatchedTrip, tripNorm: seq<GeoPoint>,
                                            candidates: seq<Route>, n: nat)
    returns (k: nat)
    requires NonNegative(m.dist) && m.pathSimilarityThresholdM > 0.0 && n <= |candidates|
    ensures
      var best := m.Best(trip, tripNorm, candidates, n);
      if best.routeId.None? then
        best.score == -1.0 && forall i :: 0 <= i < n ==> !m.IsEligible(trip, tripNorm, candidates[i])
      else
        && IsFirstLeast(m, trip, tripNorm, candidates, n, k)
        && best == MatchResult(Some(candidates[k].id), m.ScoreOf(tripNorm, candidates[k]))
  {
    hide Resampled, AvgPointDistance, Abs, NonNegative;
    k := 0;
    if n > 0 {
      k := BestIsFirstLeast(m, trip, tripNorm, candidates, n - 1);
      var best, r := m.Best(trip, tripNorm, candidates, n - 1), candidates[n - 1];
      if m.IsEligible(trip, tripNorm, r) {
        ScoresAreOrdered(m, trip, tripNorm, r, r);
        if best.routeId.Some? {
          ScoresAreOrdered(m, trip, tripNorm, r, candidates[k]);
        }
        if m.ScoreOf(tripNorm, r) > best.score {
          k := n - 1;
        }
      }
    }
  }

  // With enough points and a positive threshold, a route is named exactly when some candidate
  // passes every filter, and then the first one of least average distance, with a score
  // between 0 and 1.
  lemma {:induction false} BestMatchIsTrue(m: Matcher, trip: MatchedTrip, tripPoints: seq<GeoPoint>,
                                           candidates: seq<Route>) returns (k: nat)
    requires NonNegative(m.dist) && m.pathSimilarityThresholdM > 0.0 && |tripPoints| >= m.minTripPoints
    ensures
      var tripNorm, best := Resampled(m.dist, tripPoints, m.normalizePointsN),
          m.BestMatch(trip, tripPoints, candidates);
      && (best.routeId.Some? <==> exists i :: 0 <= i < |candidates| && m.IsEligible(trip, tripNorm, candidates[i]))
      && (best.routeId.Some? ==>
            && IsFirstLeast(m, trip, tripNorm, candidates, |candidates|, k)
            && best.routeId == Some(candidates[k].id) && 0.0 <= best.score <= 1.0)
      && (best.routeId.None? ==> best.score == -1.0)
  {
    var tripNorm := Resampled(m.dist, tripPoints, m.normalizePointsN);
    k := BestIsFirstLeast(m, trip, tripNorm, candidates, |candidates|);
    if m.BestMatch(trip, tripPoints, candidates).routeId.Some? {
      ScoresAreOrdered(m, trip, tripNorm, candidates[k], candidates[k]);
    }
    hide Resampled;
  }

  lemma {:induction false} SumToItself(dist: Distance, a: seq<GeoPoint>, n: nat)
    requires IsMetric(dist) && n <= |a|
    ensures SumOfDistances(dist, a, a, n) == 0.0
  {
    if n > 0 {
      SumToItself(dist, a, n - 1);
    }
  }

  // A trip along the route's own template is at distance zero from it and passes every filter.
  lemma TwinIsEligible(m: Matcher, trip: MatchedTrip, r: Route)
    requires IsMetric(m.dist) && m.pathSimilarityThresholdM > 0.0 && m.normalizePointsN > 0
    requires m.endRadiusM >= 0.0 && m.distanceToleranceRatio >= 0.0
    requires r.id in m.templates && m.templates[r.id] != []
    requires trip.end == Some(r.end) && trip.distanceM == r.distanceM
    ensures
      var tripNorm := Resampled(m.dist, m.templates[r.id], m.normalizePointsN);
      m.DistanceTo(tripNorm, r) == 0.0 && m.IsEligible(trip, tripNorm, r)
  {
    hide Resampled, IsMetric;
    var tripNorm := Resampled(m.dist, m.templates[r.id], m.normalizePointsN);
    SumToItself(m.dist, tripNorm, |tripNorm|);
    NothingApart(m.dist, tripNorm);
    Triangle(m.dist, r.end, r.end, r.end);
    NoExcess(trip.distanceM, r.distanceM);
    hide AvgPointDistance, Abs;
  }

  lemma NothingApart(dist: Distance, a: seq<GeoPoint>)
    requires a != [] && SumOfDistances(dist, a, a, |a|) == 0.0
    ensures AvgPointDistance(dist, a, a) == 0.0
  {
  }

  lemma NoExcess(a: real, b: real)
    requires a == b
    ensures b > 0.0 ==> Abs(a - b) / b == 0.0
  {
  }

  // A trip that repeats a candidate's own template, end and length scores exactly 1.
  lemma {:induction false} IdenticalTripScoresOne(m: Matcher, trip: MatchedTrip, candidates: seq<Route>, i: nat)
    requires IsMetric(m.dist) && m.pathSimilarityThresholdM > 0.0 && m.normalizePointsN > 0
    requires m.endRadiusM >= 0.0 && m.distanceToleranceRatio >= 0.0
    requires i < |candidates| && candidates[i].id in m.templates && m.templates[candidates[i].id] != []
    requires |m.templates[candidates[i].id]| >= m.minTripPoints
    requires trip.end == Some(candidates[i].end) && trip.distanceM == candidates[i].distanceM
    ensures m.BestMatch(trip, m.templates[candidates[i].id], candidates).score == 1.0
    ensures m.BestMatch(trip, m.templates[candidates[i].id], candidates).routeId.Some?
  {
    var tripNorm := Resampled(m.dist, m.templates[candidates[i].id], m.normalizePointsN);
    TwinIsEligible(m, trip, candidates[i]);
    hide Resampled, AvgPointDistance, IsMetric, Abs;
    MetricIsNonNegative(m.dist);
    var k := BestIsFirstLeast(m, trip, tripNorm, candidates, |candidates|);
    LeastIsZero(m, trip, tripNorm, candidates, i, k);
  }

  lemma LeastIsZero(m: Matcher, trip: MatchedTrip, tripNorm: seq<GeoPoint>, candidates: seq<Route>, i: nat, k: nat)
    requires NonNegative(m.dist) && m.pathSimilarityThresholdM > 0.0
    requires IsFirstLeast(m, trip, tripNorm, candidates, |candidates|, k)
    requires i < |candidates| && m.IsEligible(trip, tripNorm, candidates[i])
        && m.DistanceTo(tripNorm, candidates[i]) == 0.0
    ensures m.ScoreOf(tripNorm, candidates[k]) == 1.0
  {
    AverageIsNotNegative(m.dist, tripNorm, Resampled(m.dist, m.templates[candidates[k].id], m.normalizePointsN));
    hide Resampled, AvgPointDistance, NonNegative;
    assert m.DistanceTo(tripNorm, candidates[k]) == 0.0;
  }

  // ---- near and far trips ----

  lemma {:induction false} SumIsBetween(dist: Distance, a: seq<GeoPoint>, b: seq<GeoPoint>, n: nat, lo: real, hi: real)
    requires n <= |a| == |b| && forall i :: 0 <= i < n ==> lo <= dist(a[i], b[i]) <= hi
    ensures lo * n as real <= SumOfDistances(dist, a, b, n) <= hi * n as real
  {
    if n > 0 {
      SumIsBetween(dist, a, b, n - 1, lo, hi);
      assert lo * n as real == lo * (n - 1) as real + lo;
      assert hi * n as real == hi * (n - 1) as real + hi;
    }
  }

  // The average distance of two lists lies between the least and the greatest of theirs.
  lemma {:induction false} AverageIsBetween(dist: Distance, a: seq<GeoPoint>, b: seq<GeoPoint>, lo: real, hi: real)
    requires |a| == |b| > 0 && forall i :: 0 <= i < |a| ==> lo <= dist(a[i], b[i]) <= hi
    ensures lo <= AvgPointDistance(dist, a, b) <= hi
  {
    var n := |a| as real;
    SumIsBetween(dist, a, b, |a|, lo, hi);
    QuotientOfProduct(lo, n);
    QuotientOfProduct(hi, n);
    QuotientGrows(lo * n, SumOfDistances(dist, a, b, |a|), n);
    QuotientGrows(SumOfDistances(dist, a, b, |a|), hi * n, n);
  }

  // The trip ends near the route's end, is about as long, and the route has a template.
  predicate EndsAndLengthFit(m: Matcher, trip: MatchedTrip, r: Route) {
    && trip.end.Some? && m.dist(trip.end.value, r.end) <= m.endRadiusM
    && (r.distanceM > 0.0 ==>
          -m.distanceToleranceRatio <= (trip.distanceM - r.distanceM) / r.distanceM <= m.distanceToleranceRatio)
    && r.id in m.templates && m.templates[r.id] != []
  }

  // Every sample of the trip is between lo and hi away from the route's.
  ghost predicate RunsBeside(m: Matcher, tripPoints: seq<GeoPoint>, r: Route, lo: real, hi: real)
    requires r.id in m.templates
  {
    var a, b := Resampled(m.dist, tripPoints, m.normalizePointsN),
        Resampled(m.dist, m.templates[r.id], m.normalizePointsN);
    |a| == |b| && forall i :: 0 <= i < |a| ==> lo <= m.dist(a[i], b[i]) <= hi
  }

  lemma ToleranceIs(m: Matcher, trip: MatchedTrip, r: Route)
    requires EndsAndLengthFit(m, trip, r)
    ensures m.MayMatch(trip, r)
  {
    if r.distanceM > 0.0 {
      MagnitudeOfQuotient(trip.distanceM - r.distanceM, r.distanceM);
    }
  }

  lemma MagnitudeOfQuotient(a: real, b: real)
    requires b > 0.0
    ensures Abs(a) / b == Abs(a / b)
  {
  }

  // A trip beside a candidate at no more than d, where d is within the threshold, is matched,
  // with a score no lower than that distance earns.
  lemma {:induction false} NearbyTripIsMatched(m: Matcher, trip: MatchedTrip, tripPoints: seq<GeoPoint>,
                                               candidates: seq<Route>, i: nat, d: real)
    requires NonNegative(m.dist) && |tripPoints| >= m.minTripPoints && tripPoints != [] && m.normalizePointsN > 0
    requires 0.0 <= d <= m.pathSimilarityThresholdM && m.pathSimilarityThresholdM > 0.0
    requires i < |candidates| && EndsAndLengthFit(m, trip, candidates[i])
    requires RunsBeside(m, tripPoints, candidates[i], 0.0, d)
    ensures
      var best := m.BestMatch(trip, tripPoints, candidates);
      best.routeId.Some? && best.score >= 1.0 - d / m.pathSimilarityThresholdM
  {
    hide *;
    var tripNorm := Resampled(m.dist, tripPoints, m.normalizePointsN);
    BesideIsEligible(m, trip, tripPoints, candidates[i], d);
    BestIs(m, trip, tripPoints, candidates);
    var k := BestIsFirstLeast(m, trip, tripNorm, candidates, |candidates|);
    if m.BestMatch(trip, tripPoints, candidates).routeId.Some? {
      FirstLeastIs(m, trip, tripNorm, candidates, i, k);
      NearerScoresMore(m, trip, tripNorm, candidates[k], d);
    }
  }

  lemma BestIs(m: Matcher, trip: MatchedTrip, tripPoints: seq<GeoPoint>, candidates: seq<Route>)
    requires |tripPoints| >= m.minTripPoints
    ensures m.BestMatch(trip, tripPoints, candidates)
            == m.Best(trip, Resampled(m.dist, tripPoints, m.normalizePointsN), candidates, |candidates|)
  {
    hide Resampled;
  }

  lemma FirstLeastIs(m: Matcher, trip: MatchedTrip, tripNorm: seq<GeoPoint>, candidates: seq<Route>, i: nat, k: nat)
    requires IsFirstLeast(m, trip, tripNorm, candidates, |candidates|, k)
    requires i < |candidates| && m.IsEligible(trip, tripNorm, candidates[i])
    ensures k < |candidates| && m.IsEligible(trip, tripNorm, candidates[k])
    ensures m.DistanceTo(tripNorm, candidates[k]) <= m.DistanceTo(tripNorm, candidates[i])
  {
    hide Resampled, AvgPointDistance, Abs;
  }

  lemma BesideIsEligible(m: Matcher, trip: MatchedTrip, tripPoints: seq<GeoPoint>, r: Route, d: real)
    requires tripPoints != [] && m.normalizePointsN > 0 && EndsAndLengthFit(m, trip, r)
    requires 0.0 <= d <= m.pathSimilarityThresholdM && m.pathSimilarityThresholdM > 0.0
    requires RunsBeside(m, tripPoints, r, 0.0, d)
    ensures
      var tripNorm := Resampled(m.dist, tripPoints, m.normalizePointsN);
      m.IsEligible(trip, tripNorm, r) && m.DistanceTo(tripNorm, r) <= d
  {
    var tripNorm := Resampled(m.dist, tripPoints, m.normalizePointsN);
    AverageIsBetween(m.dist, tripNorm, Resampled(m.dist, m.templates[r.id], m.normalizePointsN), 0.0, d);
    ToleranceIs(m, trip, r);
    hide Resampled, AvgPointDistance, Abs;
  }

  lemma NearerScoresMore(m: Matcher, trip: MatchedTrip, tripNorm: seq<GeoPoint>, r: Route, d: real)
    requires m.pathSimilarityThresholdM > 0.0 && m.IsEligible(trip, tripNorm, r) && m.DistanceTo(tripNorm, r) <= d
    ensures m.ScoreOf(tripNorm, r) >= 1.0 - d / m.pathSimilarityThresholdM
  {
    hide Resampled, AvgPointDistance, Abs;
    QuotientGrows(m.DistanceTo(tripNorm, r), d, m.pathSimilarityThresholdM);
  }

  // A trip that runs beside every candidate at more than the threshold matches none.
  lemma {:induction false} FarTripIsNotMatched(m: Matcher, trip: MatchedTrip, tripPoints: seq<GeoPoint>,
                                               candidates: seq<Route>, d: real, far: real)
    requires NonNegative(m.dist) && |tripPoints| >= m.minTripPoints && tripPoints != [] && m.normalizePointsN > 0
    requires d > m.pathSimilarityThresholdM > 0.0
    requires forall i :: 0 <= i < |candidates| && candidates[i].id in m.templates
                         && m.templates[candidates[i].id] != [] ==>
               RunsBeside(m, tripPoints, candidates[i], d, far)
    ensures m.BestMatch(trip, tripPoints, candidates) == MatchResult(None, -1.0)
  {
    var tripNorm := Resampled(m.dist, tripPoints, m.normalizePointsN);
    forall i | 0 <= i < |candidates| ensures !m.IsEligible(trip, tripNorm, candidates[i]) {
      if candidates[i].id in m.templates && m.templates[candidates[i].id] != [] {
        AverageIsBetween(m.dist, tripNorm, Resampled(m.dist, m.templates[candidates[i].id], m.normalizePointsN),
                         d, far);
      }
    }
    hide Resampled, AvgPointDistance, Abs, RunsBeside;
    var k := BestMatchIsTrue(m, trip, tripPoints, candidates);
  }

  // A route is only ever named when the trip ends near its end and is about as long.
  lemma {:induction false} NamedRouteFits(m: Matcher, trip: MatchedTrip, tripPoints: seq<GeoPoint>,
                                          candidates: seq<Route>) returns (k: nat)
    requires NonNegative(m.dist) && m.pathSimilarityThresholdM > 0.0 && |tripPoints| >= m.minTripPoints
    requires trip.end.Some? && m.BestMatch(trip, tripPoints, candidates).routeId.Some?
    ensures k < |candidates| && m.BestMatch(trip, tripPoints, candidates).routeId == Some(candidates[k].id)
    ensures EndsAndLengthFit(m, trip, candidates[k])
  {
    var tripNorm := Resampled(m.dist, tripPoints, m.normalizePointsN);
    k := BestMatchIsTrue(m, trip, tripPoints, candidates);
    var r := candidates[k];
    hide Resampled, AvgPointDistance;
    assert m.MayMatch(trip, r);
    if r.distanceM > 0.0 {
      MagnitudeOfQuotient(trip.distanceM - r.distanceM, r.distanceM);
    }
  }
}
