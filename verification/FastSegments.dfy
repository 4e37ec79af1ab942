// Fastest sections of a track (usecase/tracking_query.go): speed edges, an interpolated
// percentile as threshold, and the maximal runs of chained fast edges.
module FastSegments {
  import opened Domain
  import opened Sorting
  import opened TripRows

  datatype SourcePoint = SourcePoint(
    deviceId: string, eventId: EventId, recordedAt: Time, position: GeoPoint, segmentId: int)

  datatype Edge = Edge(start: SourcePoint, end: SourcePoint, distanceM: real, duration: int, speedMps: real)

  datatype TrackPoint = TrackPoint(position: GeoPoint, recordedAt: Time)

  datatype Segment = Segment(
    rank: int,
    deviceId: string,
    startedAt: Time,
    endedAt: Time,
    durationSec: int,
    distanceM: real,
    avgSpeedMps: real,
    baselineSpeedMps: real,
    upliftPercent: real,
    points: seq<TrackPoint>)

  // ---- edges ----

  function EdgeBetween(dist: Distance, p: SourcePoint, q: SourcePoint): Edge
    requires q.recordedAt > p.recordedAt
  {
    var duration, distance := q.recordedAt - p.recordedAt, dist(p.position, q.position);
    Edge(p, q, distance, duration, distance / InSeconds(duration))
  }

  predicate Connects(p: SourcePoint, q: SourcePoint) {
    p.deviceId == q.deviceId && p.segmentId == q.segmentId && q.recordedAt > p.recordedAt
  }

  // The edges between the first n points.
  function EdgesOf(dist: Distance, points: seq<SourcePoint>, n: nat): seq<Edge>
    requires n <= |points|
  {
    if n < 2 then []
    else
      EdgesOf(dist, points, n - 1) +
      if Connects(points[n - 2], points[n - 1]) then [EdgeBetween(dist, points[n - 2], points[n - 1])] else []
  }

  method BuildSpeedEdges(dist: Distance, points: seq<SourcePoint>) returns (edges: seq<Edge>)
    ensures edges == EdgesOf(dist, points, |points|)
  {
    edges := [];
    var i := 1;
    while i < |points|
      invariant i <= |points| || |points| == 0
      invariant edges == EdgesOf(dist, points, if i <= |points| then i else |points|)
    {
      var p, q := points[i - 1], points[i];
      i := i + 1;
      if p.deviceId != q.deviceId || p.segmentId != q.segmentId {
        continue;
      }
      var duration := q.recordedAt - p.recordedAt;
      if duration <= 0 {
        continue;
      }
      var distance := dist(p.position, q.position);
      edges := edges + [Edge(p, q, distance, duration, distance / InSeconds(duration))];
    }
  }

  // ---- runs ----

  predicate Chained(e: Edge, f: Edge) {
    e.end.eventId == f.start.eventId && e.end.deviceId == f.start.deviceId && e.end.segmentId == f.start.segmentId
  }

  predicate Fast(e: Edge, threshold: real) {
    e.speedMps >= threshold
  }

  // A stretch of edges, from lo up to but not including hi.
  datatype Interval = Interval(lo: nat, hi: nat)

  // The k-th edge prolongs the run of the one before it.
  predicate Prolongs(edges: seq<Edge>, threshold: real, k: int) {
    0 < k < |edges| && Fast(edges[k - 1], threshold) && Fast(edges[k], threshold) && Chained(edges[k - 1], edges[k])
  }

  ghost predicate IsRun(edges: seq<Edge>, threshold: real, r: Interval) {
    && r.lo < r.hi <= |edges|
    && (forall k :: r.lo <= k < r.hi ==> Fast(edges[k], threshold))
    && (forall k :: r.lo < k < r.hi ==> Chained(edges[k - 1], edges[k]))
  }

  // A run that cannot be prolonged at either end.
  ghost predicate IsMaximalRun(edges: seq<Edge>, threshold: real, r: Interval) {
    IsRun(edges, threshold, r) && !Prolongs(edges, threshold, r.lo) && !Prolongs(edges, threshold, r.hi)
  }

  // Where the run still open after the first n edges began; n when none is open.
  function RunStart(edges: seq<Edge>, threshold: real, n: nat): (lo: nat)
    requires n <= |edges|
    ensures lo <= n
  {
    if n == 0 || !Fast(edges[n - 1], threshold) then n
    else if Prolongs(edges, threshold, n - 1) then RunStart(edges, threshold, n - 1)
    else n - 1
  }

  function OpenRun(edges: seq<Edge>, threshold: real, n: nat): seq<Interval>
    requires n <= |edges|
  {
    if RunStart(edges, threshold, n) < n then [Interval(RunStart(edges, threshold, n), n)] else []
  }

  // The runs closed while reading the first n edges.
  function ClosedRuns(edges: seq<Edge>, threshold: real, n: nat): seq<Interval>
    requires n <= |edges|
  {
    if n == 0 then []
    else
      ClosedRuns(edges, threshold, n - 1) +
      if Prolongs(edges, threshold, n - 1) then [] else OpenRun(edges, threshold, n - 1)
  }

  function AllRuns(edges: seq<Edge>, threshold: real): seq<Interval> {
    ClosedRuns(edges, threshold, |edges|) + OpenRun(edges, threshold, |edges|)
  }

  // ---- segments ----

  function TotalDistance(run: seq<Edge>): real {
    if run == [] then 0.0 else TotalDistance(run[..|run| - 1]) + run[|run| - 1].distanceM
  }

  function PointOf(p: SourcePoint): TrackPoint {
    TrackPoint(p.position, p.recordedAt)
  }

  function PointsOf(run: seq<Edge>): seq<TrackPoint>
    requires run != []
  {
    [PointOf(run[0].start)] + seq(|run|, i requires 0 <= i < |run| => PointOf(run[i].end))
  }

  function Span(run: seq<Edge>): int
    requires run != []
  {
    run[|run| - 1].end.recordedAt - run[0].start.recordedAt
  }

  function Uplift(avg: real, baseline: real): real {
    if baseline > 0.0 then (avg / baseline - 1.0) * 100.0 else 0.0
  }

  // Dividing by a span of zero, which only a minimum duration of zero or less would allow, is
  // left out of the model.
  function SegmentOf(run: seq<Edge>, baseline: real): Segment
    requires run != [] && Span(run) > 0
  {
    var distance := TotalDistance(run);
    var avg := distance / InSeconds(Span(run));
    Segment(0, run[0].start.deviceId, run[0].start.recordedAt, run[|run| - 1].end.recordedAt,
            RoundedSeconds(Span(run)), distance, avg, baseline, Uplift(avg, baseline), PointsOf(run))
  }

  predicate LongEnough(edges: seq<Edge>, r: Interval, minDuration: int) {
    r.lo < r.hi <= |edges| && Span(edges[r.lo..r.hi]) >= minDuration
  }

  function SegmentsOf(edges: seq<Edge>, runs: seq<Interval>, baseline: real, minDuration: int): seq<Segment>
    requires minDuration > 0
  {
    if runs == [] then []
    else
      var front, r := SegmentsOf(edges, runs[..|runs| - 1], baseline, minDuration), runs[|runs| - 1];
      if LongEnough(edges, r, minDuration) then front + [SegmentOf(edges[r.lo..r.hi], baseline)] else front
  }

  method Summarise(run: seq<Edge>, baseline: real) returns (segment: Segment)
    requires run != [] && Span(run) > 0
    ensures segment == SegmentOf(run, baseline)
  {
    var duration := run[|run| - 1].end.recordedAt - run[0].start.recordedAt;
    var distance := 0.0;
    var points := [TrackPoint(run[0].start.position, run[0].start.recordedAt)];
    for i := 0 to |run|
      invariant distance == TotalDistance(run[..i])
      invariant points == [PointOf(run[0].start)] + seq(i, k requires 0 <= k < i => PointOf(run[k].end))
    {
      assert run[..i + 1][..i] == run[..i];
      distance := distance + run[i].distanceM;
      points := points + [TrackPoint(run[i].end.position, run[i].end.recordedAt)];
    }
    assert run[..|run|] == run;
    var avg := distance / InSeconds(duration);
    var uplift := 0.0;
    if baseline > 0.0 {
      uplift := (avg / baseline - 1.0) * 100.0;
    }
    segment := Segment(0, run[0].start.deviceId, run[0].start.recordedAt, run[|run| - 1].end.recordedAt,
                       RoundedSeconds(duration), distance, avg, baseline, uplift, points);
  }

  function FlushedRun(run: seq<Edge>, baseline: real, minDuration: int): seq<Segment>
    requires minDuration > 0
  {
    if run != [] && Span(run) >= minDuration then [SegmentOf(run, baseline)] else []
  }

  method FlushRun(run: seq<Edge>, baseline: real, minDuration: int) returns (found: seq<Segment>)
    requires minDuration > 0
    ensures found == FlushedRun(run, baseline, minDuration)
  {
    if run == [] || run[|run| - 1].end.recordedAt - run[0].start.recordedAt < minDuration {
      return [];
    }
    var segment := Summarise(run, baseline);
    return [segment];
  }

  lemma OneMoreSegment(edges: seq<Edge>, runs: seq<Interval>, r: Interval, baseline: real, minDuration: int)
    requires minDuration > 0
    ensures SegmentsOf(edges, runs + [r], baseline, minDuration)
            == SegmentsOf(edges, runs, baseline, minDuration) +
               if LongEnough(edges, r, minDuration) then [SegmentOf(edges[r.lo..r.hi], baseline)] else []
  {
    assert (runs + [r])[..|runs|] == runs;
  }

  // Closing the open run adds its segment, if it lasted long enough.
  lemma FlushingCloses(edges: seq<Edge>, threshold: real, baseline: real, minDuration: int, n: nat)
    requires minDuration > 0 && n <= |edges|
    ensures SegmentsOf(edges, ClosedRuns(edges, threshold, n) + OpenRun(edges, threshold, n), baseline, minDuration)
            == SegmentsOf(edges, ClosedRuns(edges, threshold, n), baseline, minDuration) +
               FlushedRun(edges[RunStart(edges, threshold, n)..n], baseline, minDuration)
  {
    hide SegmentsOf, SegmentOf, RunStart, ClosedRuns;
    var closed, lo := ClosedRuns(edges, threshold, n), RunStart(edges, threshold, n);
    if lo < n {
      OneMoreSegment(edges, closed, Interval(lo, n), baseline, minDuration);
    } else {
      assert closed + [] == closed;
    }
  }

  // An edge keeps the run open when it is fast and follows its last edge.
  predicate KeepsOpen(run: seq<Edge>, edge: Edge, threshold: real) {
    Fast(edge, threshold) && (run == [] || Chained(run[|run| - 1], edge))
  }

  // The loop body: what the edge closes, and the run that is open after it.
  method ReadEdge(run: seq<Edge>, edge: Edge, threshold: real, baseline: real, minDuration: int)
    returns (found: seq<Segment>, open: seq<Edge>)
    requires minDuration > 0
    ensures found == if KeepsOpen(run, edge, threshold) then [] else FlushedRun(run, baseline, minDuration)
    ensures open == (if KeepsOpen(run, edge, threshold) then run else []) + if Fast(edge, threshold) then [edge] else []
  {
    found, open := [], run;
    var continues := |run| == 0 || Chained(run[|run| - 1], edge);
    if edge.speedMps < threshold || !continues {
      found := FlushRun(run, baseline, minDuration);
      open := [];
    }
    if edge.speedMps >= threshold {
      open := open + [edge];
    }
  }

  method CollectFastSegments(edges: seq<Edge>, threshold: real, baseline: real, minDuration: int)
    returns (segments: seq<Segment>)
    requires minDuration > 0
    ensures segments == SegmentsOf(edges, AllRuns(edges, threshold), baseline, minDuration)
  {
    segments := [];
    var run: seq<Edge> := [];
    for i := 0 to |edges|
      invariant run == edges[RunStart(edges, threshold, i)..i]
      invariant segments == SegmentsOf(edges, ClosedRuns(edges, threshold, i), baseline, minDuration)
    {
      ReadingCloses(edges, threshold, baseline, minDuration, i);
      hide *;
      var found: seq<Segment>;
      found, run := ReadEdge(run, edges[i], threshold, baseline, minDuration);
      segments := segments + found;
    }
    FlushingCloses(edges, threshold, baseline, minDuration, |edges|);
    var found := FlushRun(run, baseline, minDuration);
    segments := segments + found;
  }

  lemma ReadingCloses(edges: seq<Edge>, threshold: real, baseline: real, minDuration: int, i: nat)
    requires minDuration > 0 && i < |edges|
    ensures
      var run, edge := edges[RunStart(edges, threshold, i)..i], edges[i];
      && edges[RunStart(edges, threshold, i + 1)..i + 1]
         == (if KeepsOpen(run, edge, threshold) then run else []) + (if Fast(edge, threshold) then [edge] else [])
      && SegmentsOf(edges, ClosedRuns(edges, threshold, i + 1), baseline, minDuration)
         == SegmentsOf(edges, ClosedRuns(edges, threshold, i), baseline, minDuration) +
            if KeepsOpen(run, edge, threshold) then [] else FlushedRun(run, baseline, minDuration)
  {
    hide *;
    ReadingOpens(edges, threshold, i);
    ReadingFlushes(edges, threshold, baseline, minDuration, i);
  }

  lemma ReadingOpens(edges: seq<Edge>, threshold: real, i: nat)
    requires i < |edges|
    ensures
      var run, edge := edges[RunStart(edges, threshold, i)..i], edges[i];
      edges[RunStart(edges, threshold, i + 1)..i + 1]
      == (if KeepsOpen(run, edge, threshold) then run else []) + (if Fast(edge, threshold) then [edge] else [])
  {
    hide RunStart, ClosedRuns, Fast, Chained;
    ClosingRun(edges, threshold, i);
    var lo := RunStart(edges, threshold, i);
    SliceOneMore(edges, lo, i);
    SliceOneMore(edges, i, i);
    assert edges[i + 1..i + 1] == [] && edges[i..i] == [];
  }

  lemma SliceOneMore<T>(s: seq<T>, lo: nat, i: nat)
    requires lo <= i < |s|
    ensures s[lo..i + 1] == s[lo..i] + [s[i]]
  {
  }

  lemma ReadingFlushes(edges: seq<Edge>, threshold: real, baseline: real, minDuration: int, i: nat)
    requires minDuration > 0 && i < |edges|
    ensures
      var run, edge := edges[RunStart(edges, threshold, i)..i], edges[i];
      SegmentsOf(edges, ClosedRuns(edges, threshold, i + 1), baseline, minDuration)
      == SegmentsOf(edges, ClosedRuns(edges, threshold, i), baseline, minDuration) +
         if KeepsOpen(run, edge, threshold) then [] else FlushedRun(run, baseline, minDuration)
  {
    hide RunStart, ClosedRuns, Fast, Chained, SegmentsOf, SegmentOf, Span;
    ClosingRun(edges, threshold, i);
    var closed, lo := ClosedRuns(edges, threshold, i), RunStart(edges, threshold, i);
    assert closed + [] == closed;
    if KeepsOpen(edges[lo..i], edges[i], threshold) {
      assert lo == i ==> OpenRun(edges, threshold, i) == [];
      assert ClosedRuns(edges, threshold, i + 1) == closed;
    } else {
      FlushingCloses(edges, threshold, baseline, minDuration, i);
    }
  }

  // What reading the i-th edge does to the closed and the open run.
  lemma ClosingRun(edges: seq<Edge>, threshold: real, i: nat)
    requires i < |edges|
    ensures
      var lo, closed := RunStart(edges, threshold, i), ClosedRuns(edges, threshold, i);
      var stays := lo < i && Fast(edges[i], threshold) && Chained(edges[i - 1], edges[i]);
      && ClosedRuns(edges, threshold, i + 1) == closed + (if stays then [] else OpenRun(edges, threshold, i))
      && RunStart(edges, threshold, i + 1) == (if !Fast(edges[i], threshold) then i + 1 else if stays then lo else i)
  {
  }

  // ---- exactly the maximal runs ----

  lemma {:induction false} OpenRunIsRun(edges: seq<Edge>, threshold: real, n: nat)
    requires n <= |edges|
    ensures
      var lo := RunStart(edges, threshold, n);
      lo < n ==> IsRun(edges, threshold, Interval(lo, n)) && !Prolongs(edges, threshold, lo)
  {
    hide Fast, Chained;
    if n > 0 && Fast(edges[n - 1], threshold) && Prolongs(edges, threshold, n - 1) {
      OpenRunIsRun(edges, threshold, n - 1);
    }
  }

  // A run that cannot be prolonged downwards is the one open at its end.
  lemma {:induction false} RunStartOf(edges: seq<Edge>, threshold: real, r: Interval)
    requires IsRun(edges, threshold, r) && !Prolongs(edges, threshold, r.lo)
    ensures RunStart(edges, threshold, r.hi) == r.lo
    decreases r.hi
  {
    hide Fast, Chained;
    if r.lo < r.hi - 1 {
      RunStartOf(edges, threshold, Interval(r.lo, r.hi - 1));
    }
  }

  ghost predicate InOrder(runs: seq<Interval>) {
    forall i, j :: 0 <= i < j < |runs| ==> runs[i].hi <= runs[j].lo
  }

  lemma {:induction false} ClosedRunsAreMaximal(edges: seq<Edge>, threshold: real, n: nat)
    requires n <= |edges|
    ensures
      var runs := ClosedRuns(edges, threshold, n);
      && InOrder(runs)
      && forall i :: 0 <= i < |runs| ==>
           IsMaximalRun(edges, threshold, runs[i]) && runs[i].hi <= RunStart(edges, threshold, n)
  {
    if n > 0 {
      ClosedRunsAreMaximal(edges, threshold, n - 1);
      OpenRunIsRun(edges, threshold, n - 1);
      hide IsRun, Fast, Chained, Prolongs;
      StartAdvances(edges, threshold, n - 1);
    }
  }

  lemma StartAdvances(edges: seq<Edge>, threshold: real, n: nat)
    requires n < |edges|
    ensures RunStart(edges, threshold, n) <= RunStart(edges, threshold, n + 1)
    ensures !Prolongs(edges, threshold, n) ==> n <= RunStart(edges, threshold, n + 1)
  {
    hide Fast, Chained;
  }

  lemma {:induction false} ClosedStaysClosed(edges: seq<Edge>, threshold: real, m: nat, n: nat)
    requires m <= n <= |edges|
    ensures forall r :: r in ClosedRuns(edges, threshold, m) ==> r in ClosedRuns(edges, threshold, n)
  {
    hide OpenRun, Prolongs;
    if m < n {
      ClosedStaysClosed(edges, threshold, m, n - 1);
    }
  }

  lemma MaximalIsFound(edges: seq<Edge>, threshold: real, r: Interval)
    requires IsMaximalRun(edges, threshold, r)
    ensures r in AllRuns(edges, threshold)
  {
    RunStartOf(edges, threshold, r);
    assert OpenRun(edges, threshold, r.hi) == [r];
    if r.hi < |edges| {
      assert r in ClosedRuns(edges, threshold, r.hi + 1);
      ClosedStaysClosed(edges, threshold, r.hi + 1, |edges|);
    }
  }

  // The runs found are exactly the maximal ones, from left to right, and never overlap.
  lemma {:induction false} RunsAreMaximal(edges: seq<Edge>, threshold: real)
    ensures forall r :: r in AllRuns(edges, threshold) <==> IsMaximalRun(edges, threshold, r)
    ensures InOrder(AllRuns(edges, threshold))
  {
    ClosedRunsAreMaximal(edges, threshold, |edges|);
    OpenRunIsRun(edges, threshold, |edges|);
    forall r ensures r in AllRuns(edges, threshold) <==> IsMaximalRun(edges, threshold, r) {
      if IsMaximalRun(edges, threshold, r) {
        MaximalIsFound(edges, threshold, r);
      }
    }
  }

  // ---- percentiles ----

  function Ceiling(x: real): int {
    if x.Floor as real == x then x.Floor else x.Floor + 1
  }

  lemma PositionIsInside(p: real, n: int)
    requires 0.0 <= p <= 1.0 && n >= 1
    ensures 0.0 <= p * (n - 1) as real <= (n - 1) as real
  {
    var top := (n - 1) as real;
    assert 0.0 <= p * top;
    assert p * top <= 1.0 * top;
  }

  // Linear interpolation between the two nearest ranks.
  function Interpolate(sorted: seq<real>, position: real): real
    requires |sorted| > 0 && 0.0 <= position <= (|sorted| - 1) as real
  {
    var lower, upper := position.Floor, Ceiling(position);
    if lower == upper then sorted[lower]
    else sorted[lower] + (sorted[upper] - sorted[lower]) * (position - lower as real)
  }

  function Percentile(sorted: seq<real>, p: real): real
    requires 0.0 <= p <= 1.0
  {
    if |sorted| == 0 then 0.0
    else if |sorted| == 1 then sorted[0]
    else
      PositionIsInside(p, |sorted|);
      Interpolate(sorted, p * (|sorted| - 1) as real)
  }

  predicate Ascending(s: seq<real>) {
    forall i, j :: 0 <= i < j < |s| ==> s[i] <= s[j]
  }

  lemma ScaleMore(step: real, a: real, b: real)
    requires step >= 0.0 && 0.0 <= a <= b
    ensures 0.0 <= step * a <= step * b
  {
    assert step * (b - a) >= 0.0;
  }

  lemma FloorGrows(x: real, y: real)
    requires x <= y
    ensures x.Floor <= y.Floor && (x.Floor < y.Floor ==> Ceiling(x) <= y.Floor)
  {
  }

  // The interpolated value lies between its two neighbours.
  lemma InterpolationIsBetween(sorted: seq<real>, x: real)
    requires Ascending(sorted) && |sorted| > 0 && 0.0 <= x <= (|sorted| - 1) as real
    ensures 0 <= x.Floor <= Ceiling(x) < |sorted|
    ensures sorted[x.Floor] <= Interpolate(sorted, x) <= sorted[Ceiling(x)]
  {
    var lower, upper := x.Floor, Ceiling(x);
    if lower < upper {
      ScaleMore(sorted[upper] - sorted[lower], x - lower as real, 1.0);
    }
  }

  lemma SameStepGrows(sorted: seq<real>, x: real, y: real)
    requires Ascending(sorted) && |sorted| > 0 && 0.0 <= x <= y <= (|sorted| - 1) as real && x.Floor == y.Floor
    ensures Interpolate(sorted, x) <= Interpolate(sorted, y)
  {
    var lower := x.Floor;
    if Ceiling(y) > lower {
      var step := sorted[lower + 1] - sorted[lower];
      ScaleMore(step, x - lower as real, y - lower as real);
      assert Interpolate(sorted, y) == sorted[lower] + step * (y - lower as real);
      if Ceiling(x) > lower {
        assert Interpolate(sorted, x) == sorted[lower] + step * (x - lower as real);
      }
    } else {
      assert x == y;
    }
  }

  lemma InterpolationGrows(sorted: seq<real>, x: real, y: real)
    requires Ascending(sorted) && |sorted| > 0 && 0.0 <= x <= y <= (|sorted| - 1) as real
    ensures Interpolate(sorted, x) <= Interpolate(sorted, y)
  {
    FloorGrows(x, y);
    if x.Floor == y.Floor {
      SameStepGrows(sorted, x, y);
    } else {
      InterpolationIsBetween(sorted, x);
      InterpolationIsBetween(sorted, y);
      hide Interpolate;
      assert sorted[Ceiling(x)] <= sorted[y.Floor];
    }
  }

  // A higher percentile is never a smaller value, across floor and ceiling.
  lemma {:induction false} PercentileGrows(sorted: seq<real>, p: real, q: real)
    requires 0.0 <= p <= q <= 1.0 && Ascending(sorted)
    ensures Percentile(sorted, p) <= Percentile(sorted, q)
  {
    hide Interpolate;
    if |sorted| > 1 {
      PositionIsInside(p, |sorted|);
      PositionIsInside(q, |sorted|);
      ScaleMore((|sorted| - 1) as real, p, q);
      InterpolationGrows(sorted, p * (|sorted| - 1) as real, q * (|sorted| - 1) as real);
    }
  }

  // ---- edges of real tracks ----

  // An event id names one point of its device.
  ghost predicate UniqueEvents(points: seq<SourcePoint>) {
    forall i, j :: 0 <= i < j < |points| && points[i].deviceId == points[j].deviceId ==>
      points[i].eventId != points[j].eventId
  }

  ghost predicate TimeSorted(points: seq<SourcePoint>) {
    forall i, j :: 0 <= i < j < |points| && points[i].deviceId == points[j].deviceId ==>
      points[i].recordedAt <= points[j].recordedAt
  }

  predicate EdgeFits(e: Edge) {
    && e.start.deviceId == e.end.deviceId && e.start.segmentId == e.end.segmentId
    && e.duration == e.end.recordedAt - e.start.recordedAt > 0
    && 0.0 <= e.distanceM && 0.0 <= e.speedMps && e.distanceM == e.speedMps * InSeconds(e.duration)
  }

  // Later edges of a device start where or after earlier ones end, and chained edges share a point.
  ghost predicate EdgesFit(edges: seq<Edge>) {
    && (forall k :: 0 <= k < |edges| ==> EdgeFits(edges[k]))
    && (forall i, j :: 0 <= i < j < |edges| ==> EdgesMeet(edges[i], edges[j]))
  }

  predicate EdgesMeet(e: Edge, f: Edge) {
    && (e.start.deviceId == f.start.deviceId ==> e.end.recordedAt <= f.start.recordedAt)
    && (Chained(e, f) ==> e.end == f.start)
  }

  // Which pairs of neighbouring points gave the edges.
  function Positions(points: seq<SourcePoint>, n: nat): seq<nat>
    requires n <= |points|
  {
    if n < 2 then []
    else Positions(points, n - 1) + if Connects(points[n - 2], points[n - 1]) then [n - 2] else []
  }

  lemma {:induction false} EdgesAreAt(dist: Distance, points: seq<SourcePoint>, n: nat)
    requires n <= |points|
    ensures
      var edges, at := EdgesOf(dist, points, n), Positions(points, n);
      && |edges| == |at|
      && (forall k :: 0 <= k < |at| ==>
            && at[k] + 1 < n && Connects(points[at[k]], points[at[k] + 1])
            && edges[k] == EdgeBetween(dist, points[at[k]], points[at[k] + 1]))
      && (forall i, j :: 0 <= i < j < |at| ==> at[i] < at[j])
  {
    if n >= 2 {
      hide EdgeBetween, Connects;
      EdgesAreAt(dist, points, n - 1);
    }
  }

  lemma EdgeBetweenFits(dist: Distance, p: SourcePoint, q: SourcePoint)
    requires Connects(p, q) && 0.0 <= dist(p.position, q.position)
    ensures EdgeFits(EdgeBetween(dist, p, q))
  {
    var e := EdgeBetween(dist, p, q);
    assert e.speedMps * InSeconds(e.duration) == e.distanceM;
  }

  lemma {:induction false} EdgesOfPointsFit(dist: Distance, points: seq<SourcePoint>)
    requires UniqueEvents(points) && TimeSorted(points) && (forall p, q :: 0.0 <= dist(p, q))
    ensures EdgesFit(EdgesOf(dist, points, |points|))
  {
    var edges, at := EdgesOf(dist, points, |points|), Positions(points, |points|);
    EdgesAreAt(dist, points, |points|);
    forall k | 0 <= k < |edges| ensures EdgeFits(edges[k]) {
      EdgeBetweenFits(dist, points[at[k]], points[at[k] + 1]);
    }
    hide EdgeFits;
    forall i, j | 0 <= i < j < |edges| ensures EdgesMeet(edges[i], edges[j]) {
      assert edges[i].end == points[at[i] + 1] && edges[j].start == points[at[j]];
      assert at[i] + 1 <= at[j];
    }
  }

  lemma {:induction false} FilterKeepsEdges(edges: seq<Edge>, keep: Edge -> bool)
    requires EdgesFit(edges)
    ensures EdgesFit(Filter(keep, edges))
  {
    if edges != [] {
      var front, e := edges[..|edges| - 1], edges[|edges| - 1];
      FilterKeepsEdges(front, keep);
      hide EdgeFits, EdgesMeet;
      forall i | 0 <= i < |Filter(keep, front)| ensures EdgesMeet(Filter(keep, front)[i], e) {
        assert Filter(keep, front)[i] in front;
      }
    }
  }

  // ---- a fast run is fast on average ----

  lemma SpeedAdds(speed: real, a: int, b: int)
    ensures speed * InSeconds(a) + speed * InSeconds(b) == speed * InSeconds(a + b)
  {
    var x, y := InSeconds(a), InSeconds(b);
    assert x + y == InSeconds(a + b);
    assert speed * x + speed * y == speed * (x + y);
  }

  lemma SpeedGrows(slow: real, quick: real, duration: int)
    requires slow <= quick && duration > 0
    ensures slow * InSeconds(duration) <= quick * InSeconds(duration)
  {
    assert (quick - slow) * InSeconds(duration) >= 0.0;
  }

  // Durations telescope along a run, so its distance is at least the threshold speed held
  // over its whole span.
  lemma {:induction false} RunIsFast(edges: seq<Edge>, threshold: real, r: Interval)
    requires EdgesFit(edges) && IsRun(edges, threshold, r)
    ensures Span(edges[r.lo..r.hi]) > 0
    ensures TotalDistance(edges[r.lo..r.hi]) >= threshold * InSeconds(Span(edges[r.lo..r.hi]))
    decreases r.hi
  {
    hide Chained, Fast, EdgeFits, EdgesFit, IsRun, InSeconds, TotalDistance;
    RunIsInside(edges, threshold, r);
    var run, last := edges[r.lo..r.hi], edges[r.hi - 1];
    LastEdgeIsFast(edges, threshold, r);
    if r.lo == r.hi - 1 {
      assert run == [last];
      OneEdge(last);
    } else {
      var front := edges[r.lo..r.hi - 1];
      assert run == front + [last];
      ShorterRun(edges, threshold, r);
      RunIsFast(edges, threshold, Interval(r.lo, r.hi - 1));
      LastEdgeMeets(edges, threshold, r);
      RunGrows(front, last, threshold);
    }
  }

  lemma RunGrows(front: seq<Edge>, last: Edge, threshold: real)
    requires front != [] && Span(front) > 0 && front[|front| - 1].end.recordedAt == last.start.recordedAt
    requires TotalDistance(front) >= threshold * InSeconds(Span(front))
    requires last.duration == last.end.recordedAt - last.start.recordedAt > 0
    requires last.distanceM >= threshold * InSeconds(last.duration)
    ensures Span(front + [last]) > 0
    ensures TotalDistance(front + [last]) >= threshold * InSeconds(Span(front + [last]))
  {
    hide TotalDistance, InSeconds;
    TotalOneMore(front, last);
    SpeedAdds(threshold, Span(front), last.duration);
  }

  lemma RunIsInside(edges: seq<Edge>, threshold: real, r: Interval)
    requires IsRun(edges, threshold, r)
    ensures r.lo < r.hi <= |edges|
  {
    hide Chained, Fast;
  }

  lemma OneEdge(e: Edge)
    ensures TotalDistance([e]) == e.distanceM
  {
    assert [e][..0] == [];
    assert TotalDistance([e][..0]) == 0.0;
  }

  lemma TotalOneMore(run: seq<Edge>, e: Edge)
    ensures TotalDistance(run + [e]) == TotalDistance(run) + e.distanceM
  {
    assert (run + [e])[..|run|] == run;
  }

  lemma ShorterRun(edges: seq<Edge>, threshold: real, r: Interval)
    requires IsRun(edges, threshold, r) && r.lo < r.hi - 1
    ensures IsRun(edges, threshold, Interval(r.lo, r.hi - 1))
  {
    hide Chained, Fast;
  }

  // The last edge begins where the others end.
  lemma LastEdgeMeets(edges: seq<Edge>, threshold: real, r: Interval)
    requires EdgesFit(edges) && IsRun(edges, threshold, r) && r.lo < r.hi - 1
    ensures edges[r.hi - 2].end.recordedAt == edges[r.hi - 1].start.recordedAt
  {
    assert Chained(edges[r.hi - 2], edges[r.hi - 1]) && EdgesMeet(edges[r.hi - 2], edges[r.hi - 1]);
  }

  lemma LastEdgeIsFast(edges: seq<Edge>, threshold: real, r: Interval)
    requires EdgesFit(edges) && IsRun(edges, threshold, r)
    ensures
      var e := edges[r.hi - 1];
      e.duration == e.end.recordedAt - e.start.recordedAt > 0 && e.distanceM >= threshold * InSeconds(e.duration)
  {
    var e := edges[r.hi - 1];
    assert EdgeFits(e) && Fast(e, threshold);
    SpeedGrows(threshold, e.speedMps, e.duration);
  }

  lemma AverageOf(distance: real, threshold: real, duration: int)
    requires duration > 0 && distance >= threshold * InSeconds(duration)
    ensures distance / InSeconds(duration) >= threshold
  {
    var t := InSeconds(duration);
    var avg := distance / t;
    assert avg * t == distance;
    assert (avg - threshold) * t == distance - threshold * t;
    SignOf(avg - threshold, t);
  }

  // The segment of a fast run: as fast as the threshold on average, so never below the
  // baseline; one point more than edges; all in one segment of one device.
  ghost predicate SegmentFits(edges: seq<Edge>, threshold: real, baseline: real, r: Interval, s: Segment) {
    && IsMaximalRun(edges, threshold, r) && Span(edges[r.lo..r.hi]) > 0 && s == SegmentOf(edges[r.lo..r.hi], baseline)
    && s.avgSpeedMps >= threshold >= baseline && s.upliftPercent >= 0.0
    && |s.points| == r.hi - r.lo + 1 && s.startedAt < s.endedAt
    && forall k :: r.lo <= k < r.hi ==>
         edges[k].start.deviceId == s.deviceId && edges[k].end.segmentId == edges[r.lo].start.segmentId
  }

  lemma RatioIsAtLeastOne(a: real, b: real)
    requires a >= b > 0.0
    ensures a / b >= 1.0
  {
    var ratio := a / b;
    assert ratio * b == a;
    assert (ratio - 1.0) * b == a - b;
    SignOf(ratio - 1.0, b);
  }

  lemma SignOf(x: real, b: real)
    requires b > 0.0 && x * b >= 0.0
    ensures x >= 0.0
  {
  }

  lemma UpliftIsNotNegative(avg: real, baseline: real)
    requires avg >= baseline
    ensures Uplift(avg, baseline) >= 0.0
  {
    if baseline > 0.0 {
      RatioIsAtLeastOne(avg, baseline);
    }
  }

  lemma {:induction false} RunStaysInSegment(edges: seq<Edge>, threshold: real, r: Interval, k: nat)
    requires EdgesFit(edges) && IsRun(edges, threshold, r) && r.lo <= k < r.hi
    ensures edges[k].start.deviceId == edges[r.lo].start.deviceId
        && edges[k].end.segmentId == edges[r.lo].start.segmentId
  {
    assert EdgeFits(edges[k]);
    if k > r.lo {
      RunStaysInSegment(edges, threshold, r, k - 1);
      assert Chained(edges[k - 1], edges[k]) && EdgeFits(edges[k - 1]);
    }
  }

  lemma {:induction false} MaximalRunFits(edges: seq<Edge>, threshold: real, baseline: real, r: Interval)
    requires EdgesFit(edges) && IsMaximalRun(edges, threshold, r) && threshold >= baseline
    ensures Span(edges[r.lo..r.hi]) > 0
    ensures SegmentFits(edges, threshold, baseline, r, SegmentOf(edges[r.lo..r.hi], baseline))
  {
    var run := edges[r.lo..r.hi];
    RunIsFast(edges, threshold, r);
    AverageOf(TotalDistance(run), threshold, Span(run));
    var avg := TotalDistance(run) / InSeconds(Span(run));
    UpliftIsNotNegative(avg, baseline);
    forall k | r.lo <= k < r.hi
      ensures edges[k].start.deviceId == run[0].start.deviceId && edges[k].end.segmentId == edges[r.lo].start.segmentId
    {
      RunStaysInSegment(edges, threshold, r, k);
    }
    hide EdgesFit, IsMaximalRun, InSeconds, TotalDistance, Uplift, RoundedSeconds;
  }

  // Two runs of one device cover disjoint stretches of time.
  lemma {:induction false} RunsDoNotOverlap(edges: seq<Edge>, a: Interval, b: Interval)
    requires EdgesFit(edges) && a.lo < a.hi <= b.lo < b.hi <= |edges|
    requires forall k :: 0 <= k < |edges| ==> edges[k].start.deviceId == edges[0].start.deviceId
    ensures edges[a.hi - 1].end.recordedAt <= edges[b.lo].start.recordedAt
  {
    assert EdgesMeet(edges[a.hi - 1], edges[b.lo]);
  }

  // ---- the query ----

  datatype Preset = Soft | Normal | Strict | OtherPreset

  datatype QueryError = FromRequired | ToRequired | InvalidRange | RangeTooLarge | InvalidPreset | InvalidLimit

  const MAX_RANGE: int := 31 * 24 * 3600 * SECOND

  // The zero instant is the unset time.
  function ValidateRange(since: Time, to: Time): Option<QueryError> {
    if since == 0 then Some(FromRequired)
    else if to == 0 then Some(ToRequired)
    else if since >= to then Some(InvalidRange)
    else if to - since > MAX_RANGE then Some(RangeTooLarge)
    else None
  }

  datatype PresetConfig = PresetConfig(percentile: real, minDuration: int)

  function ConfigOf(preset: Preset): (c: Option<PresetConfig>)
    ensures c.Some? ==> 0.5 <= c.value.percentile <= 1.0 && c.value.minDuration > 0
  {
    match preset
    case Soft => Some(PresetConfig(0.75, 15 * SECOND))
    case Normal => Some(PresetConfig(0.85, 20 * SECOND))
    case Strict => Some(PresetConfig(0.95, 30 * SECOND))
    case OtherPreset => None
  }

  // The devices in the order of their first edges; the source's map gives them in any order.
  function DevicesOf(edges: seq<Edge>): seq<string> {
    if edges == [] then []
    else
      var front, d := DevicesOf(edges[..|edges| - 1]), edges[|edges| - 1].start.deviceId;
      if d in front then front else front + [d]
  }

  function DeviceEdges(edges: seq<Edge>, d: string): seq<Edge> {
    Filter((e: Edge) => e.start.deviceId == d, edges)
  }

  predicate Less(a: real, b: real) {
    a < b
  }

  function Speeds(edges: seq<Edge>): seq<real> {
    seq(|edges|, i requires 0 <= i < |edges| => edges[i].speedMps)
  }

  function SortedSpeeds(edges: seq<Edge>): seq<real> {
    Sort(Less, Speeds(edges))
  }

  function Baseline(edges: seq<Edge>): real {
    Percentile(SortedSpeeds(edges), 0.5)
  }

  function Threshold(edges: seq<Edge>, cfg: PresetConfig): real
    requires 0.0 <= cfg.percentile <= 1.0
  {
    Percentile(SortedSpeeds(edges), cfg.percentile)
  }

  function SegmentsOfDevice(edges: seq<Edge>, cfg: PresetConfig): seq<Segment>
    requires 0.0 <= cfg.percentile <= 1.0 && cfg.minDuration > 0
  {
    SegmentsOf(edges, AllRuns(edges, Threshold(edges, cfg)), Baseline(edges), cfg.minDuration)
  }

  function SegmentsOfDevices(edges: seq<Edge>, devices: seq<string>, cfg: PresetConfig): seq<Segment>
    requires 0.0 <= cfg.percentile <= 1.0 && cfg.minDuration > 0
  {
    if devices == [] then []
    else
      SegmentsOfDevices(edges, devices[..|devices| - 1], cfg)
      + SegmentsOfDevice(DeviceEdges(edges, devices[|devices| - 1]), cfg)
  }

  // Greater uplift first, then greater speed, then the earlier start.
  predicate Outranks(a: Segment, b: Segment) {
    if a.upliftPercent != b.upliftPercent then a.upliftPercent > b.upliftPercent
    else if a.avgSpeedMps != b.avgSpeedMps then a.avgSpeedMps > b.avgSpeedMps
    else a.startedAt < b.startedAt
  }

  function Ranked(segments: seq<Segment>, limit: nat): seq<Segment> {
    var best := Sort(Outranks, segments);
    var top := if |best| > limit then best[..limit] else best;
    seq(|top|, i requires 0 <= i < |top| => top[i].(rank := i + 1))
  }

  method GetFastSegments(dist: Distance, points: seq<SourcePoint>, since: Time, to: Time, preset: Preset, limit: int)
    returns (segments: seq<Segment>, error: Option<QueryError>)
    ensures error == (if since == 0 then Some(FromRequired)
                      else if to == 0 then Some(ToRequired)
                      else if to <= since then Some(InvalidRange)
                      else if to - since > MAX_RANGE then Some(RangeTooLarge)
                      else if preset.OtherPreset? then Some(InvalidPreset)
                      else if limit != 5 && limit != 10 && limit != 20 then Some(InvalidLimit)
                      else None)
    ensures error.Some? ==> segments == []
    ensures error.None? ==>
              var edges := EdgesOf(dist, points, |points|);
              segments == Ranked(SegmentsOfDevices(edges, DevicesOf(edges), ConfigOf(preset).value), limit)
  {
    hide EdgesOf, SegmentsOfDevices, DevicesOf, Ranked;
    error := ValidateRange(since, to);
    if error.Some? {
      return [], error;
    }
    var cfg := ConfigOf(preset);
    if cfg.None? {
      return [], Some(InvalidPreset);
    }
    if limit != 5 && limit != 10 && limit != 20 {
      return [], Some(InvalidLimit);
    }
    var edges := BuildSpeedEdges(dist, points);
    var found := CollectAll(edges, cfg.value);
    segments := RankSegments(found, limit);
  }

  method CollectAll(edges: seq<Edge>, cfg: PresetConfig) returns (found: seq<Segment>)
    requires 0.0 <= cfg.percentile <= 1.0 && cfg.minDuration > 0
    ensures found == SegmentsOfDevices(edges, DevicesOf(edges), cfg)
  {
    hide Percentile, SegmentsOf, DeviceEdges, SortedSpeeds, AllRuns, DevicesOf;
    var devices := DevicesOf(edges);
    found := [];
    for i := 0 to |devices|
      invariant found == SegmentsOfDevices(edges, devices[..i], cfg)
    {
      assert devices[..i + 1][..i] == devices[..i];
      var own := DeviceEdges(edges, devices[i]);
      var more := CollectFastSegments(own, Threshold(own, cfg), Baseline(own), cfg.minDuration);
      found := found + more;
    }
    assert devices[..|devices|] == devices;
  }

  method RankSegments(found: seq<Segment>, limit: nat) returns (segments: seq<Segment>)
    ensures segments == Ranked(found, limit)
  {
    segments := Sort(Outranks, found);
    if |segments| > limit {
      segments := segments[..limit];
    }
    ghost var top := segments;
    for i := 0 to |segments|
      invariant |segments| == |top|
      invariant forall k :: 0 <= k < i ==> segments[k] == top[k].(rank := k + 1)
      invariant forall k :: i <= k < |top| ==> segments[k] == top[k]
    {
      segments := segments[i := segments[i].(rank := i + 1)];
    }
  }

  // ---- what the query returns ----

  lemma SpeedsAscend(edges: seq<Edge>)
    ensures Ascending(SortedSpeeds(edges))
  {
    SortSorts(Less, Speeds(edges));
    assert forall i, j :: 0 <= i < j < |SortedSpeeds(edges)| ==> !Less(SortedSpeeds(edges)[j], SortedSpeeds(edges)[i]);
  }

  // The segment comes from a maximal fast run of this device's edges that lasted long enough.
  ghost predicate FastestOf(edges: seq<Edge>, cfg: PresetConfig, d: string, r: Interval, s: Segment)
    requires 0.5 <= cfg.percentile <= 1.0
  {
    var own := DeviceEdges(edges, d);
    && SegmentFits(own, Threshold(own, cfg), Baseline(own), r, s)
    && LongEnough(own, r, cfg.minDuration)
  }

  ghost predicate IsFastest(edges: seq<Edge>, cfg: PresetConfig, s: Segment)
    requires 0.5 <= cfg.percentile <= 1.0
  {
    exists d, r :: FastestOf(edges, cfg, d, r, s)
  }

  lemma {:induction false} SegmentsFromRuns(edges: seq<Edge>, runs: seq<Interval>, threshold: real, baseline: real,
                                            minDuration: int, s: Segment)
    returns (r: Interval)
    requires EdgesFit(edges) && threshold >= baseline && minDuration > 0
    requires forall i :: 0 <= i < |runs| ==> IsMaximalRun(edges, threshold, runs[i])
    requires s in SegmentsOf(edges, runs, baseline, minDuration)
    ensures SegmentFits(edges, threshold, baseline, r, s) && LongEnough(edges, r, minDuration)
  {
    var last := runs[|runs| - 1];
    hide EdgesFit, IsMaximalRun, SegmentFits, SegmentOf;
    if s in SegmentsOf(edges, runs[..|runs| - 1], baseline, minDuration) {
      r := SegmentsFromRuns(edges, runs[..|runs| - 1], threshold, baseline, minDuration, s);
    } else {
      r := last;
      MaximalRunFits(edges, threshold, baseline, last);
    }
  }

  lemma DeviceSegmentsAreFastest(edges: seq<Edge>, cfg: PresetConfig, d: string, s: Segment)
    requires EdgesFit(edges) && 0.5 <= cfg.percentile <= 1.0 && cfg.minDuration > 0
    requires s in SegmentsOfDevice(DeviceEdges(edges, d), cfg)
    ensures IsFastest(edges, cfg, s)
  {
    hide EdgesFit, Percentile, SegmentFits, Sort, SegmentsOf, IsMaximalRun, AllRuns;
    var own := DeviceEdges(edges, d);
    FilterKeepsEdges(edges, (e: Edge) => e.start.deviceId == d);
    SpeedsAscend(own);
    PercentileGrows(SortedSpeeds(own), 0.5, cfg.percentile);
    RunsAreMaximal(own, Threshold(own, cfg));
    var runs := AllRuns(own, Threshold(own, cfg));
    assert forall i :: 0 <= i < |runs| ==> runs[i] in runs;
    var r := SegmentsFromRuns(own, runs, Threshold(own, cfg), Baseline(own), cfg.minDuration, s);
    assert FastestOf(edges, cfg, d, r, s);
  }

  lemma {:induction false} AllSegmentsAreFastest(edges: seq<Edge>, devices: seq<string>, cfg: PresetConfig, s: Segment)
    requires EdgesFit(edges) && 0.5 <= cfg.percentile <= 1.0 && cfg.minDuration > 0
    requires s in SegmentsOfDevices(edges, devices, cfg)
    ensures IsFastest(edges, cfg, s)
  {
    hide EdgesFit, IsFastest, SegmentsOfDevice;
    var d := devices[|devices| - 1];
    if s in SegmentsOfDevice(DeviceEdges(edges, d), cfg) {
      DeviceSegmentsAreFastest(edges, cfg, d, s);
    } else {
      AllSegmentsAreFastest(edges, devices[..|devices| - 1], cfg, s);
    }
  }

  lemma OutranksIsPreorder()
    ensures IsPreorder(Outranks)
  {
  }

  // Every segment the query returns is a maximal run of edges at or above its device's
  // threshold, no slower on average than the device's baseline, and of the preset's minimum
  // length; ranks count from one in the order of uplift.
  lemma {:induction false} FastSegmentsAreFast(dist: Distance, points: seq<SourcePoint>, preset: Preset, limit: nat)
    requires UniqueEvents(points) && TimeSorted(points) && (forall p, q :: 0.0 <= dist(p, q))
    requires !preset.OtherPreset?
    ensures
      var edges, cfg := EdgesOf(dist, points, |points|), ConfigOf(preset).value;
      var result := Ranked(SegmentsOfDevices(edges, DevicesOf(edges), cfg), limit);
      && |result| <= limit
      && (forall k :: 0 <= k < |result| ==> result[k].rank == k + 1 && IsFastest(edges, cfg, result[k].(rank := 0)))
      && (forall i, j :: 0 <= i < j < |result| ==> !Outranks(result[j], result[i]))
  {
    hide EdgesOf, SegmentsOfDevices, DevicesOf, Ranked, IsFastest, EdgesFit, Outranks, UniqueEvents, TimeSorted;
    var edges, cfg := EdgesOf(dist, points, |points|), ConfigOf(preset).value;
    var all := SegmentsOfDevices(edges, DevicesOf(edges), cfg);
    EdgesOfPointsFit(dist, points);
    RankedIsBest(all, limit);
    forall k | 0 <= k < |Ranked(all, limit)| ensures IsFastest(edges, cfg, Ranked(all, limit)[k].(rank := 0)) {
      RankedIsKnown(edges, cfg, all, limit, k);
    }
  }

  lemma RankedIsKnown(edges: seq<Edge>, cfg: PresetConfig, all: seq<Segment>, limit: nat, k: nat)
    requires EdgesFit(edges) && 0.5 <= cfg.percentile <= 1.0 && cfg.minDuration > 0
    requires all == SegmentsOfDevices(edges, DevicesOf(edges), cfg) && k < |Ranked(all, limit)|
    ensures IsFastest(edges, cfg, Ranked(all, limit)[k].(rank := 0))
  {
    var best := Sort(Outranks, all);
    SameElements(best, all);
    hide SegmentsOfDevices, DevicesOf, IsFastest, EdgesFit, Outranks, Sort;
    assert best[k] in best;
    AllSegmentsAreFastest(edges, DevicesOf(edges), cfg, best[k]);
    FastestIsUnranked(edges, cfg, best[k]);
  }

  lemma RankedIsBest(all: seq<Segment>, limit: nat)
    ensures
      var result := Ranked(all, limit);
      && |result| <= limit
      && (forall k :: 0 <= k < |result| ==> result[k].rank == k + 1)
      && (forall i, j :: 0 <= i < j < |result| ==> !Outranks(result[j], result[i]))
  {
    var result, best := Ranked(all, limit), Sort(Outranks, all);
    OutranksIsPreorder();
    SortSorts(Outranks, all);
    hide Sort, Outranks;
    forall i, j | 0 <= i < j < |result| ensures !Outranks(result[j], result[i]) {
      assert !Outranks(best[j], best[i]);
      RankDoesNotMatter(best[j], best[i], j + 1, i + 1);
    }
  }

  lemma RankDoesNotMatter(a: Segment, b: Segment, i: int, j: int)
    ensures Outranks(a.(rank := i), b.(rank := j)) == Outranks(a, b)
  {
  }

  lemma FastestIsUnranked(edges: seq<Edge>, cfg: PresetConfig, s: Segment)
    requires 0.5 <= cfg.percentile <= 1.0 && IsFastest(edges, cfg, s)
    ensures s.rank == 0
  {
    hide Percentile, IsMaximalRun, TotalDistance, DeviceEdges, Sort, Uplift;
    var d, r :| FastestOf(edges, cfg, d, r, s);
  }

  // ---- and what it does not leave out ----

  lemma {:induction false} RunContributes(edges: seq<Edge>, runs: seq<Interval>, baseline: real, minDuration: int,
                                          r: Interval)
    requires minDuration > 0 && r in runs && LongEnough(edges, r, minDuration)
    ensures SegmentOf(edges[r.lo..r.hi], baseline) in SegmentsOf(edges, runs, baseline, minDuration)
  {
    hide SegmentOf;
    if r != runs[|runs| - 1] {
      RunContributes(edges, runs[..|runs| - 1], baseline, minDuration, r);
    }
  }

  lemma {:induction false} DeviceIsListed(edges: seq<Edge>, e: Edge)
    requires e in edges
    ensures e.start.deviceId in DevicesOf(edges)
  {
    if e != edges[|edges| - 1] {
      DeviceIsListed(edges[..|edges| - 1], e);
    }
  }

  lemma {:induction false} DeviceContributes(edges: seq<Edge>, devices: seq<string>, cfg: PresetConfig, d: string,
                                             s: Segment)
    requires 0.0 <= cfg.percentile <= 1.0 && cfg.minDuration > 0
    requires d in devices && s in SegmentsOfDevice(DeviceEdges(edges, d), cfg)
    ensures s in SegmentsOfDevices(edges, devices, cfg)
  {
    hide SegmentsOfDevice;
    if d != devices[|devices| - 1] {
      DeviceContributes(edges, devices[..|devices| - 1], cfg, d, s);
    }
  }

  lemma FastestIsFound(edges: seq<Edge>, cfg: PresetConfig, d: string, r: Interval, s: Segment)
    requires 0.5 <= cfg.percentile <= 1.0 && cfg.minDuration > 0 && FastestOf(edges, cfg, d, r, s)
    ensures s in SegmentsOfDevices(edges, DevicesOf(edges), cfg)
  {
    hide Percentile, Sort, SegmentOf, AllRuns, DevicesOf, SegmentsOfDevices, SegmentsOf, Span, IsMaximalRun;
    var own := DeviceEdges(edges, d);
    RunsAreMaximal(own, Threshold(own, cfg));
    RunContributes(own, AllRuns(own, Threshold(own, cfg)), Baseline(own), cfg.minDuration, r);
    assert own[r.lo] in own;
    DeviceIsListed(edges, own[r.lo]);
    DeviceContributes(edges, DevicesOf(edges), cfg, d, s);
  }

  // The listed segment is s, but for its rank.
  ghost predicate Lists(result: seq<Segment>, s: Segment) {
    exists k :: 0 <= k < |result| && result[k].(rank := s.rank) == s
  }

  lemma RankedKeepsTheBest(all: seq<Segment>, limit: nat, s: Segment)
    requires s in all
    ensures
      var result := Ranked(all, limit);
      Lists(result, s) || (|result| == limit && forall k :: 0 <= k < |result| ==> !Outranks(s, result[k]))
  {
    var result, best := Ranked(all, limit), Sort(Outranks, all);
    OutranksIsPreorder();
    SortSorts(Outranks, all);
    SameElements(best, all);
    var i :| 0 <= i < |best| && best[i] == s;
    hide Sort, Outranks;
    if i < |result| {
      assert result[i].(rank := s.rank) == s;
    } else {
      forall k | 0 <= k < |result| ensures !Outranks(s, result[k]) {
        assert !Outranks(best[i], best[k]);
        RankDoesNotMatter(s, best[k], s.rank, k + 1);
      }
    }
  }

  // Nothing is missed: the segment of any maximal fast run that lasted long enough, on any
  // device, is listed, unless the list is full of segments that it does not outrank.
  lemma {:induction false} NoFastSegmentIsMissed(edges: seq<Edge>, cfg: PresetConfig, limit: nat, d: string,
                                                 r: Interval, s: Segment)
    requires 0.5 <= cfg.percentile <= 1.0 && cfg.minDuration > 0
    ensures
      var result := Ranked(SegmentsOfDevices(edges, DevicesOf(edges), cfg), limit);
      FastestOf(edges, cfg, d, r, s) ==>
        Lists(result, s) || (|result| == limit && forall k :: 0 <= k < |result| ==> !Outranks(s, result[k]))
  {
    hide *;
    if FastestOf(edges, cfg, d, r, s) {
      FastestIsFound(edges, cfg, d, r, s);
      RankedKeepsTheBest(SegmentsOfDevices(edges, DevicesOf(edges), cfg), limit, s);
    }
  }

  // ---- segments of one device never overlap ----

  predicate Disjoint(a: Segment, b: Segment) {
    a.deviceId == b.deviceId ==> a.endedAt <= b.startedAt || b.endedAt <= a.startedAt
  }

  ghost predicate OfDevice(edges: seq<Edge>, d: string) {
    forall k :: 0 <= k < |edges| ==> edges[k].start.deviceId == d
  }

  ghost predicate InSequence(segments: seq<Segment>, d: string, bound: Time) {
    && (forall i, j :: 0 <= i < j < |segments| ==> segments[i].endedAt <= segments[j].startedAt)
    && (forall i :: 0 <= i < |segments| ==> segments[i].deviceId == d && segments[i].endedAt <= bound)
  }

  lemma SegmentEnds(run: seq<Edge>, baseline: real)
    requires run != [] && Span(run) > 0
    ensures
      var s := SegmentOf(run, baseline);
      && s.startedAt == run[0].start.recordedAt && s.endedAt == run[|run| - 1].end.recordedAt
      && s.deviceId == run[0].start.deviceId
  {
  }

  lemma RunEndsLater(edges: seq<Edge>, r: Interval)
    requires EdgesFit(edges) && r.lo < r.hi <= |edges| && OfDevice(edges, edges[r.lo].start.deviceId)
    ensures edges[r.lo].start.recordedAt <= edges[r.hi - 1].end.recordedAt
  {
    assert EdgeFits(edges[r.lo]) && EdgeFits(edges[r.hi - 1]);
    if r.lo < r.hi - 1 {
      assert EdgesMeet(edges[r.lo], edges[r.hi - 1]);
    }
  }

  lemma EarlierEdgesEnd(edges: seq<Edge>, i: nat, j: nat, d: string)
    requires EdgesFit(edges) && i < j < |edges| && OfDevice(edges, d)
    ensures edges[i].end.recordedAt <= edges[j].start.recordedAt
  {
    assert EdgesMeet(edges[i], edges[j]);
  }

  // Segments come in the order of their runs, each over before the next begins.
  lemma {:induction false} SegmentsFollow(edges: seq<Edge>, runs: seq<Interval>, baseline: real, minDuration: int,
                                          d: string, bound: Time)
    requires EdgesFit(edges) && OfDevice(edges, d) && InOrder(runs) && minDuration > 0
    requires forall i :: 0 <= i < |runs| ==> runs[i].lo < runs[i].hi <= |edges|
    requires runs != [] ==> edges[runs[|runs| - 1].hi - 1].end.recordedAt <= bound
    ensures InSequence(SegmentsOf(edges, runs, baseline, minDuration), d, bound)
  {
    hide EdgesFit, SegmentOf, OfDevice, InOrder, Span;
    if runs != [] {
      var front, r := runs[..|runs| - 1], runs[|runs| - 1];
      var starts := edges[r.lo].start.recordedAt;
      LastRunFollows(edges, runs, d);
      SegmentsFollow(edges, front, baseline, minDuration, d, starts);
      LastSegment(edges, r, baseline, minDuration);
      OneMoreFollows(SegmentsOf(edges, front, baseline, minDuration), SegmentsOf(edges, runs, baseline, minDuration), d,
                     starts, bound);
      hide InSequence, LongEnough;
    }
  }

  lemma LastSegment(edges: seq<Edge>, r: Interval, baseline: real, minDuration: int)
    requires minDuration > 0
    ensures LongEnough(edges, r, minDuration) ==>
              var s := SegmentOf(edges[r.lo..r.hi], baseline);
              && s.startedAt == edges[r.lo].start.recordedAt && s.endedAt == edges[r.hi - 1].end.recordedAt
              && s.deviceId == edges[r.lo].start.deviceId
  {
    if LongEnough(edges, r, minDuration) {
      SegmentEnds(edges[r.lo..r.hi], baseline);
    }
    hide SegmentOf;
  }

  lemma LastRunFollows(edges: seq<Edge>, runs: seq<Interval>, d: string)
    requires EdgesFit(edges) && OfDevice(edges, d) && InOrder(runs) && runs != []
    requires forall i :: 0 <= i < |runs| ==> runs[i].lo < runs[i].hi <= |edges|
    ensures
      var front, r := runs[..|runs| - 1], runs[|runs| - 1];
      && InOrder(front) && edges[r.lo].start.deviceId == d
      && edges[r.lo].start.recordedAt <= edges[r.hi - 1].end.recordedAt
      && (front != [] ==> edges[front[|front| - 1].hi - 1].end.recordedAt <= edges[r.lo].start.recordedAt)
  {
    var front, r := runs[..|runs| - 1], runs[|runs| - 1];
    hide EdgesFit;
    RunEndsLater(edges, r);
    if front != [] {
      EarlierEdgesEnd(edges, front[|front| - 1].hi - 1, r.lo, d);
    }
  }

  lemma OneMoreFollows(segments: seq<Segment>, more: seq<Segment>, d: string, starts: Time, bound: Time)
    requires InSequence(segments, d, starts) && starts <= bound
    requires |more| <= |segments| + 1 && segments <= more
    requires |more| > |segments| ==>
               var s := more[|segments|];
               s.startedAt == starts && s.endedAt <= bound && s.deviceId == d
    ensures InSequence(more, d, bound)
  {
  }

  lemma DeviceSegmentsFollow(edges: seq<Edge>, cfg: PresetConfig, d: string)
    requires EdgesFit(edges) && 0.0 <= cfg.percentile <= 1.0 && cfg.minDuration > 0
    ensures
      var segments := SegmentsOfDevice(DeviceEdges(edges, d), cfg);
      && Pairwise(Disjoint, segments)
      && (forall i :: 0 <= i < |segments| ==> segments[i].deviceId == d)
  {
    var own := DeviceEdges(edges, d);
    FilterKeepsEdges(edges, (e: Edge) => e.start.deviceId == d);
    OwnEdgesAreOfDevice(edges, d);
    hide EdgesFit, Percentile, Sort, SegmentsOf, AllRuns, DeviceEdges, OfDevice, Baseline, Threshold, IsMaximalRun;
    var runs := AllRuns(own, Threshold(own, cfg));
    RunsAreReal(own, Threshold(own, cfg));
    var bound := if runs == [] then 0 else own[runs[|runs| - 1].hi - 1].end.recordedAt;
    SegmentsFollow(own, runs, Baseline(own), cfg.minDuration, d, bound);
  }

  lemma OwnEdgesAreOfDevice(edges: seq<Edge>, d: string)
    ensures OfDevice(DeviceEdges(edges, d), d)
  {
    var own := DeviceEdges(edges, d);
    forall k | 0 <= k < |own| ensures own[k].start.deviceId == d {
      assert own[k] in own;
    }
  }

  lemma RunsAreReal(edges: seq<Edge>, threshold: real)
    ensures
      var runs := AllRuns(edges, threshold);
      InOrder(runs) && forall i :: 0 <= i < |runs| ==> runs[i].lo < runs[i].hi <= |edges|
  {
    RunsAreMaximal(edges, threshold);
    hide AllRuns, InOrder;
    var runs := AllRuns(edges, threshold);
    forall i | 0 <= i < |runs| ensures runs[i].lo < runs[i].hi <= |edges| {
      assert runs[i] in runs;
    }
  }

  ghost predicate NoRepeats(devices: seq<string>) {
    forall i, j :: 0 <= i < j < |devices| ==> devices[i] != devices[j]
  }

  lemma {:induction false} DevicesDiffer(edges: seq<Edge>)
    ensures NoRepeats(DevicesOf(edges))
  {
    if edges != [] {
      DevicesDiffer(edges[..|edges| - 1]);
    }
  }

  lemma {:induction false} DevicesKeepApart(edges: seq<Edge>, devices: seq<string>, cfg: PresetConfig)
    requires EdgesFit(edges) && 0.0 <= cfg.percentile <= 1.0 && cfg.minDuration > 0 && NoRepeats(devices)
    ensures Pairwise(Disjoint, SegmentsOfDevices(edges, devices, cfg))
    ensures AllOf(SegmentsOfDevices(edges, devices, cfg), devices)
  {
    hide *;
    if devices == [] {
      NoDevices(edges, cfg);
    } else {
      var front, d := devices[..|devices| - 1], devices[|devices| - 1];
      var more := SegmentsOfDevice(DeviceEdges(edges, d), cfg);
      FrontDiffers(devices);
      DevicesKeepApart(edges, front, cfg);
      DeviceSegmentsFollow(edges, cfg, d);
      SegmentsOfOneMore(edges, devices, cfg);
      OneMoreDevice(SegmentsOfDevices(edges, front, cfg), more, front, d);
    }
  }

  ghost predicate AllOf(segments: seq<Segment>, devices: seq<string>) {
    forall i :: 0 <= i < |segments| ==> segments[i].deviceId in devices
  }

  lemma NoDevices(edges: seq<Edge>, cfg: PresetConfig)
    requires 0.0 <= cfg.percentile <= 1.0 && cfg.minDuration > 0
    ensures Pairwise(Disjoint, SegmentsOfDevices(edges, [], cfg)) && AllOf(SegmentsOfDevices(edges, [], cfg), [])
  {
  }

  lemma FrontDiffers(devices: seq<string>)
    requires NoRepeats(devices) && devices != []
    ensures
      var front, d := devices[..|devices| - 1], devices[|devices| - 1];
      NoRepeats(front) && d !in front && devices == front + [d]
  {
  }

  lemma SegmentsOfOneMore(edges: seq<Edge>, devices: seq<string>, cfg: PresetConfig)
    requires devices != [] && 0.0 <= cfg.percentile <= 1.0 && cfg.minDuration > 0
    ensures SegmentsOfDevices(edges, devices, cfg)
            == SegmentsOfDevices(edges, devices[..|devices| - 1], cfg)
               + SegmentsOfDevice(DeviceEdges(edges, devices[|devices| - 1]), cfg)
  {
    hide SegmentsOfDevice, DeviceEdges;
  }

  lemma OneMoreDevice(segments: seq<Segment>, more: seq<Segment>, devices: seq<string>, d: string)
    requires Pairwise(Disjoint, segments) && Pairwise(Disjoint, more) && d !in devices
    requires AllOf(segments, devices) && forall i :: 0 <= i < |more| ==> more[i].deviceId == d
    ensures Pairwise(Disjoint, segments + more) && AllOf(segments + more, devices + [d])
  {
  }

  // No two segments that the query returns for one device overlap in time.
  lemma {:induction false} SegmentsDoNotOverlap(dist: Distance, points: seq<SourcePoint>, preset: Preset, limit: nat)
    requires UniqueEvents(points) && TimeSorted(points) && (forall p, q :: 0.0 <= dist(p, q))
    requires !preset.OtherPreset?
    ensures
      var edges, cfg := EdgesOf(dist, points, |points|), ConfigOf(preset).value;
      Pairwise(Disjoint, Ranked(SegmentsOfDevices(edges, DevicesOf(edges), cfg), limit))
  {
    var edges, cfg := EdgesOf(dist, points, |points|), ConfigOf(preset).value;
    EdgesOfPointsFit(dist, points);
    DevicesDiffer(edges);
    hide EdgesOf, SegmentsOfDevices, DevicesOf, Ranked, EdgesFit, UniqueEvents, TimeSorted, Pairwise;
    DevicesKeepApart(edges, DevicesOf(edges), cfg);
    RankingKeepsApart(SegmentsOfDevices(edges, DevicesOf(edges), cfg), limit);
  }

  lemma RankingKeepsApart(segments: seq<Segment>, limit: nat)
    requires Pairwise(Disjoint, segments)
    ensures Pairwise(Disjoint, Ranked(segments, limit))
  {
    SortKeepsPairs(Outranks, Disjoint, segments);
    hide Sort;
    var best, result := Sort(Outranks, segments), Ranked(segments, limit);
    forall i, j | 0 <= i < j < |result| ensures Disjoint(result[i], result[j]) {
      assert Disjoint(best[i], best[j]);
    }
  }
}
