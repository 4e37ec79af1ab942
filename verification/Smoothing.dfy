// The smoother of the noise pipeline (usecase/noise/pipeline.go): an average of the last
// filtered positions and the new one, weighted by accuracy. It never leaves the box its inputs
// span, so filtered coordinates stay valid latitudes and longitudes.
module Smoothing {
  import opened Domain
  import opened Sorting
  import opened Noise
  import opened NoiseOutput

  function Weight(accuracyM: real): (w: real)
    ensures w > 0.0
  {
    1.0 / Max(accuracyM, 1.0)
  }

  datatype Sums = Sums(lat: real, lon: real, weight: real)

  function Plus(sum: real, x: real, w: real): real {
    sum + x * w
  }

  function AddWeighted(s: Sums, p: GeoPoint, w: real): Sums {
    Sums(Plus(s.lat, p.lat, w), Plus(s.lon, p.lon, w), s.weight + w)
  }

  // The last points of the history that the average covers.
  function Recent(points: int, history: seq<ProcessedPoint>): seq<ProcessedPoint> {
    var limit := if points - 1 < 0 then 0 else points - 1;
    if |history| > limit then history[|history| - limit..] else history
  }

  function SumUp(history: seq<ProcessedPoint>, current: RawPoint): Sums {
    if history == [] then AddWeighted(Sums(0.0, 0.0, 0.0), current.position, Weight(current.accuracyM))
    else
      var s, p := SumUp(history[..|history| - 1], current), history[|history| - 1];
      if p.filtered.None? then s else AddWeighted(s, p.filtered.value, Weight(p.accuracyM))
  }

  lemma {:induction false} WeightIsPositive(history: seq<ProcessedPoint>, current: RawPoint)
    ensures SumUp(history, current).weight > 0.0
  {
    if history != [] {
      WeightIsPositive(history[..|history| - 1], current);
    }
  }

  function Average(history: seq<ProcessedPoint>, current: RawPoint): GeoPoint {
    var s := SumUp(history, current);
    WeightIsPositive(history, current);
    GeoPoint(s.lat / s.weight, s.lon / s.weight)
  }

  function WeightedMovingAverage(points: int): Smoother {
    (history: seq<ProcessedPoint>, current: RawPoint) => Average(Recent(points, history), current)
  }

  lemma SumOneMore(history: seq<ProcessedPoint>, current: RawPoint, i: nat)
    requires i < |history|
    ensures
      var before, p := SumUp(history[..i], current), history[i];
      SumUp(history[..i + 1], current)
      == if p.filtered.None? then before
         else AddWeighted(before, p.filtered.value, Weight(p.accuracyM))
  {
    assert history[..i + 1][..i] == history[..i];
  }

  method Smooth(points: int, history: seq<ProcessedPoint>, current: RawPoint) returns (p: GeoPoint)
    ensures p == WeightedMovingAverage(points)(history, current)
  {
    var limit := points - 1;
    if limit < 0 {
      limit := 0;
    }
    var recent := history;
    if |history| > limit {
      recent := history[|history| - limit..];
    }
    assert recent == Recent(points, history);
    p := AverageOf(recent, current);
  }

  method AverageOf(recent: seq<ProcessedPoint>, current: RawPoint) returns (p: GeoPoint)
    ensures p == Average(recent, current)
  {
    hide Plus;
    var weight := 1.0 / Max(current.accuracyM, 1.0);
    var latSum, lonSum, weightSum := Plus(0.0, current.position.lat, weight),
        Plus(0.0, current.position.lon, weight), weight;
    for i := 0 to |recent|
      invariant Sums(latSum, lonSum, weightSum) == SumUp(recent[..i], current)
    {
      SumOneMore(recent, current, i);
      hide SumUp;
      var point := recent[i];
      if point.filtered.None? {
        continue;
      }
      var pointWeight := 1.0 / Max(point.accuracyM, 1.0);
      latSum := Plus(latSum, point.filtered.value.lat, pointWeight);
      lonSum := Plus(lonSum, point.filtered.value.lon, pointWeight);
      weightSum := weightSum + pointWeight;
    }
    assert recent[..|recent|] == recent;
    WeightIsPositive(recent, current);
    p := GeoPoint(latSum / weightSum, lonSum / weightSum);
  }

  // ---- the average stays in the box ----

  datatype Box = Box(south: real, north: real, west: real, east: real)
  {
    predicate Holds(p: GeoPoint) {
      south <= p.lat <= north && west <= p.lon <= east
    }
  }

  const WORLD := Box(-90.0, 90.0, -180.0, 180.0)

  ghost predicate AllIn(box: Box, points: seq<ProcessedPoint>) {
    forall i :: 0 <= i < |points| && points[i].filtered.Some? ==> box.Holds(points[i].filtered.value)
  }

  // A weighted sum lies between the weighted bounds.
  predicate Between(lo: real, sum: real, hi: real, weight: real) {
    weight > 0.0 && lo * weight <= sum <= hi * weight
  }

  ghost predicate SumsFit(box: Box, s: Sums) {
    Between(box.south, s.lat, box.north, s.weight) && Between(box.west, s.lon, box.east, s.weight)
  }

  lemma AxisStarts(lo: real, x: real, hi: real, w: real)
    requires lo <= x <= hi && w > 0.0
    ensures Between(lo, Plus(0.0, x, w), hi, w)
  {
    assert (x - lo) * w >= 0.0 && (hi - x) * w >= 0.0;
  }

  lemma SplitProduct(x: real, a: real, b: real)
    ensures x * (a + b) == x * a + x * b
  {
  }

  lemma AxisAdds(lo: real, sum: real, hi: real, weight: real, x: real, w: real)
    requires Between(lo, sum, hi, weight) && lo <= x <= hi && w > 0.0
    ensures Between(lo, Plus(sum, x, w), hi, weight + w)
  {
    AxisStarts(lo, x, hi, w);
    SplitProduct(lo, weight, w);
    SplitProduct(hi, weight, w);
  }

  lemma AxisAverage(lo: real, sum: real, hi: real, weight: real)
    requires Between(lo, sum, hi, weight)
    ensures lo <= sum / weight <= hi
  {
    var q := sum / weight;
    assert q * weight == sum;
    assert (q - lo) * weight == sum - lo * weight && (hi - q) * weight == hi * weight - sum;
    SignOf(q - lo, weight);
    SignOf(hi - q, weight);
  }

  lemma SignOf(x: real, w: real)
    requires w > 0.0 && x * w >= 0.0
    ensures x >= 0.0
  {
  }

  lemma AddFits(box: Box, s: Sums, p: GeoPoint, w: real)
    requires SumsFit(box, s) && box.Holds(p) && w > 0.0
    ensures SumsFit(box, AddWeighted(s, p, w))
  {
    hide Between, Plus;
    AxisAdds(box.south, s.lat, box.north, s.weight, p.lat, w);
    AxisAdds(box.west, s.lon, box.east, s.weight, p.lon, w);
  }

  lemma {:induction false} SumUpFits(box: Box, history: seq<ProcessedPoint>, current: RawPoint)
    requires AllIn(box, history) && box.Holds(current.position)
    ensures SumsFit(box, SumUp(history, current))
  {
    hide Weight, AddWeighted, SumsFit;
    if history == [] {
      FirstFits(box, current);
    } else {
      var front, p := history[..|history| - 1], history[|history| - 1];
      SumUpFits(box, front, current);
      if p.filtered.Some? {
        AddFits(box, SumUp(front, current), p.filtered.value, Weight(p.accuracyM));
      }
    }
  }

  lemma FirstFits(box: Box, current: RawPoint)
    requires box.Holds(current.position)
    ensures SumsFit(box, AddWeighted(Sums(0.0, 0.0, 0.0), current.position, Weight(current.accuracyM)))
  {
    hide Between, Weight, Plus;
    var p, w := current.position, Weight(current.accuracyM);
    AxisStarts(box.south, p.lat, box.north, w);
    AxisStarts(box.west, p.lon, box.east, w);
  }

  lemma {:induction false} AverageStaysInBox(points: int, box: Box, history: seq<ProcessedPoint>, current: RawPoint)
    requires AllIn(box, history) && box.Holds(current.position)
    ensures box.Holds(WeightedMovingAverage(points)(history, current))
  {
    var recent := Recent(points, history);
    SumsAverage(box, recent, current);
    hide Average;
  }

  lemma SumsAverage(box: Box, recent: seq<ProcessedPoint>, current: RawPoint)
    requires AllIn(box, recent) && box.Holds(current.position)
    ensures box.Holds(Average(recent, current))
  {
    hide SumUp, Between;
    var s := SumUp(recent, current);
    SumUpFits(box, recent, current);
    AxisAverage(box.south, s.lat, box.north, s.weight);
    AxisAverage(box.west, s.lon, box.east, s.weight);
  }

  // ---- filtered positions of a whole batch ----

  lemma DroppingKeepsBox(box: Box, points: seq<ProcessedPoint>, cutoff: Time)
    requires AllIn(box, points)
    ensures AllIn(box, DropBefore(points, cutoff))
  {
    DropIsSuffix(points, cutoff);
  }

  // A filtered position comes from a valid raw one and from earlier filtered ones.
  lemma ProcessOneStaysInWorld(s: Setup, points: int, history: seq<ProcessedPoint>, raw: RawPoint,
                               next: Option<RawPoint>, through: Option<Time>)
    requires s.smooth == WeightedMovingAverage(points) && AllIn(WORLD, history)
    ensures
      var out := ProcessOne(s, history, raw, next, through);
      out.filtered.Some? ==> WORLD.Holds(out.filtered.value)
  {
    var recent := Trim(history, raw.recordedAt, s.cfg.segmentMaxGapSec);
    DroppingKeepsBox(WORLD, history, raw.recordedAt - Seconds(s.cfg.segmentMaxGapSec));
    if Validate(s.cfg, raw) == NoNoise {
      AverageStaysInBox(points, WORLD, recent, raw);
    }
    hide WeightedMovingAverage, DetectStationary, DetectOutlier, DropBefore, Clamp;
  }

  lemma StepStaysInWorld(s: Setup, points: int, g: Progress, raw: RawPoint, next: Option<RawPoint>,
                         through: Option<Time>)
    requires s.smooth == WeightedMovingAverage(points) && AllIn(WORLD, g.window) && AllIn(WORLD, g.processed)
    ensures
      var after := Step(s, g, raw, next, through);
      AllIn(WORLD, after.window) && AllIn(WORLD, after.processed)
  {
    hide ProcessOne, DropBefore, WeightedMovingAverage;
    ProcessOneStaysInWorld(s, points, g.window, raw, next, through);
    var out := ProcessOne(s, g.window, raw, next, through);
    DroppingKeepsBox(WORLD, g.window + [out], raw.recordedAt - Seconds(s.cfg.stationaryWindowSec));
  }

  lemma {:induction false} StepsStayInWorld(s: Setup, points: int, history: seq<ProcessedPoint>, raw: seq<RawPoint>,
                                            through: Option<Time>, n: nat)
    requires s.smooth == WeightedMovingAverage(points) && AllIn(WORLD, AcceptedOnly(history)) && n <= |raw|
    ensures
      var g := Steps(s, history, raw, through, n);
      AllIn(WORLD, g.window) && AllIn(WORLD, g.processed)
  {
    hide Step, AllIn, AcceptedOnly, WeightedMovingAverage;
    if n > 0 {
      StepsStayInWorld(s, points, history, raw, through, n - 1);
      StepStaysInWorld(s, points, Steps(s, history, raw, through, n - 1), raw[n - 1], NextOf(raw, n - 1), through);
    } else {
      NothingIsOutside();
    }
  }

  lemma NothingIsOutside()
    ensures AllIn(WORLD, [])
  {
  }

  // With the weighted moving average, every filtered position the pipeline returns is a valid
  // latitude and longitude, as long as those it was given are.
  lemma {:induction false} FilteredPositionsAreValid(s: Setup, points: int, history: seq<ProcessedPoint>,
                                                     raw: seq<RawPoint>, through: Option<Time>)
    requires s.smooth == WeightedMovingAverage(points) && AllIn(WORLD, AcceptedOnly(history))
    ensures AllIn(WORLD, Pipeline(s, history, raw, through).processed)
  {
    StepsStayInWorld(s, points, history, Sort(RawBefore, raw), through, |Sort(RawBefore, raw)|);
  }

  // Of two positions the more accurate one counts for more, in inverse proportion.
  lemma {:induction false} AccurateCountsMore(points: int, p: ProcessedPoint, current: RawPoint)
    requires points >= 2 && p.filtered.Some? && p.accuracyM >= 1.0 && current.accuracyM >= 1.0
    ensures
      var r, a, b := WeightedMovingAverage(points)([p], current), p.accuracyM, current.accuracyM;
      && r.lat == (current.position.lat * a + p.filtered.value.lat * b) / (a + b)
      && r.lon == (current.position.lon * a + p.filtered.value.lon * b) / (a + b)
  {
    assert Recent(points, [p]) == [p] && [p][..0] == [];
    var q := p.filtered.value;
    assert SumUp([], current) == AddWeighted(Sums(0.0, 0.0, 0.0), current.position, Weight(current.accuracyM));
    InverseWeights(current.position.lat, q.lat, p.accuracyM, current.accuracyM);
    InverseWeights(current.position.lon, q.lon, p.accuracyM, current.accuracyM);
  }

  lemma InverseWeights(x: real, y: real, a: real, b: real)
    requires a >= 1.0 && b >= 1.0
    ensures 1.0 / b + 1.0 / a > 0.0
    ensures (0.0 + x * (1.0 / b) + y * (1.0 / a)) / (1.0 / b + 1.0 / a) == (x * a + y * b) / (a + b)
  {
    var u, v := 1.0 / a, 1.0 / b;
    assert u * a == 1.0 && v * b == 1.0;
    var sum, weight := x * v + y * u, v + u;
    assert weight * (a * b) == a + b;
    assert sum * (a * b) == x * a + y * b;
    SameRatio(sum, weight, a * b);
  }

  lemma SameRatio(sum: real, weight: real, k: real)
    requires weight > 0.0 && k > 0.0
    ensures weight * k > 0.0 && sum / weight == (sum * k) / (weight * k)
  {
  }

  // Only the latest points of the history count: with as many as the average covers, whatever
  // came before them makes no difference.
  lemma {:induction false} OnlyTheLatestCount(points: int, older: seq<ProcessedPoint>, latest: seq<ProcessedPoint>,
                                              current: RawPoint)
    requires |latest| >= points - 1
    ensures WeightedMovingAverage(points)(older + latest, current) == WeightedMovingAverage(points)(latest, current)
  {
    hide Average;
    assert Recent(points, older + latest) == Recent(points, latest);
  }
}
