// What the percentiles say about the speeds themselves: ranks, values between ranks, and how
// many edges of a track count as fast.
module Thresholds {
  import opened Domain
  import opened Sorting
  import opened FastSegments

  // ---- counting ----

  function AtMost(v: real): real -> bool {
    (x: real) => x <= v
  }

  function AtLeast(v: real): real -> bool {
    (x: real) => x >= v
  }

  function NoFaster(edges: seq<Edge>, v: real): nat {
    |Filter(AtMost(v), Speeds(edges))|
  }

  function NoSlower(edges: seq<Edge>, v: real): nat {
    |Filter(AtLeast(v), Speeds(edges))|
  }

  lemma {:induction false} FilterCounts<T(!new)>(keep: T -> bool, s: seq<T>, x: T)
    ensures multiset(Filter(keep, s))[x] == if keep(x) then multiset(s)[x] else 0
  {
    if s != [] {
      FilterCounts(keep, s[..|s| - 1], x);
      assert s == s[..|s| - 1] + [s[|s| - 1]];
    }
  }

  // How many elements are kept does not depend on their order.
  lemma CountIgnoresOrder<T(!new)>(keep: T -> bool, a: seq<T>, b: seq<T>)
    requires multiset(a) == multiset(b)
    ensures |Filter(keep, a)| == |Filter(keep, b)|
  {
    var kept, also := Filter(keep, a), Filter(keep, b);
    forall x: T ensures multiset(kept)[x] == multiset(also)[x] {
      FilterCounts(keep, a, x);
      FilterCounts(keep, b, x);
    }
    assert multiset(kept) == multiset(also);
    SameElements(kept, also);
  }

  lemma CountOfFront<T(!new)>(keep: T -> bool, s: seq<T>, m: nat)
    requires m <= |s| && forall i :: 0 <= i < m ==> keep(s[i])
    ensures |Filter(keep, s)| >= m
    ensures (forall i :: m <= i < |s| ==> !keep(s[i])) ==> |Filter(keep, s)| == m
  {
    assert s == s[..m] + s[m..];
    FilterAppend(keep, s[..m], s[m..]);
    FilterAll(keep, s[..m]);
    if forall i :: m <= i < |s| ==> !keep(s[i]) {
      FilterNone(keep, s[m..]);
    }
  }

  lemma CountOfBack<T(!new)>(keep: T -> bool, s: seq<T>, m: nat)
    requires m <= |s| && forall i :: m <= i < |s| ==> keep(s[i])
    ensures |Filter(keep, s)| >= |s| - m
    ensures (forall i :: 0 <= i < m ==> !keep(s[i])) ==> |Filter(keep, s)| == |s| - m
  {
    assert s == s[..m] + s[m..];
    FilterAppend(keep, s[..m], s[m..]);
    FilterAll(keep, s[m..]);
    if forall i :: 0 <= i < m ==> !keep(s[i]) {
      FilterNone(keep, s[..m]);
    }
  }

  lemma SortedCounts(edges: seq<Edge>, v: real)
    ensures |SortedSpeeds(edges)| == |edges| && Ascending(SortedSpeeds(edges))
    ensures NoFaster(edges, v) == |Filter(AtMost(v), SortedSpeeds(edges))|
    ensures NoSlower(edges, v) == |Filter(AtLeast(v), SortedSpeeds(edges))|
  {
    SpeedsAscend(edges);
    SameElements(SortedSpeeds(edges), Speeds(edges));
    CountIgnoresOrder(AtMost(v), SortedSpeeds(edges), Speeds(edges));
    CountIgnoresOrder(AtLeast(v), SortedSpeeds(edges), Speeds(edges));
    hide Sort, Filter;
  }

  // ---- ranks ----

  lemma ShareIsInside(a: real, n: int)
    requires n >= 2 && 0.0 <= a <= (n - 1) as real
    ensures 0.0 <= a / (n - 1) as real <= 1.0 && a / (n - 1) as real * (n - 1) as real == a
  {
    ShareOfTop(a, (n - 1) as real);
  }

  lemma ShareOfTop(a: real, top: real)
    requires 0.0 <= a <= top && top > 0.0
    ensures 0.0 <= a / top <= 1.0 && a / top * top == a
  {
  }

  // At k of n - 1 steps the value is the k-th smallest speed, counting from zero: one of the
  // speeds, with k more no faster and all the others no slower.
  lemma {:induction false} ValueAtRank(edges: seq<Edge>, k: nat)
    requires k < |edges| && |edges| >= 2
    ensures 0.0 <= k as real / (|edges| - 1) as real <= 1.0
    ensures
      var v := Percentile(SortedSpeeds(edges), k as real / (|edges| - 1) as real);
      v in Speeds(edges) && NoFaster(edges, v) >= k + 1 && NoSlower(edges, v) >= |edges| - k
  {
    hide *;
    var sorted, share := SortedSpeeds(edges), k as real / (|edges| - 1) as real;
    ShareIsInside(k as real, |edges|);
    SortedCounts(edges, 0.0);
    SortedCounts(edges, sorted[k]);
    SpeedIsListed(edges, k);
    PercentileAtRank(sorted, k, share);
    RankSplits(sorted, k);
  }

  lemma SpeedIsListed(edges: seq<Edge>, k: nat)
    requires k < |edges| == |SortedSpeeds(edges)|
    ensures SortedSpeeds(edges)[k] in Speeds(edges)
  {
    SameElements(SortedSpeeds(edges), Speeds(edges));
    hide Sort, Speeds;
  }

  lemma PercentileAtRank(sorted: seq<real>, k: nat, share: real)
    requires k < |sorted| && |sorted| >= 2 && 0.0 <= share <= 1.0 && share * (|sorted| - 1) as real == k as real
    ensures Percentile(sorted, share) == sorted[k]
  {
  }

  lemma RankSplits(sorted: seq<real>, k: nat)
    requires Ascending(sorted) && k < |sorted|
    ensures |Filter(AtMost(sorted[k]), sorted)| >= k + 1 && |Filter(AtLeast(sorted[k]), sorted)| >= |sorted| - k
  {
    hide Filter;
    CountOfFront(AtMost(sorted[k]), sorted, k + 1);
    CountOfBack(AtLeast(sorted[k]), sorted, k);
  }

  lemma StepToNext(sorted: seq<real>, k: nat, t: real)
    requires k + 1 < |sorted| && 0.0 <= t <= 1.0
    ensures Interpolate(sorted, k as real + t) == sorted[k] + t * (sorted[k + 1] - sorted[k])
  {
    var x := k as real + t;
    if t == 1.0 {
      assert x.Floor == k + 1;
    } else {
      assert x.Floor == k;
    }
  }

  // Between two neighbouring ranks the value moves evenly from one speed to the next.
  lemma {:induction false} ValueBetweenRanks(sorted: seq<real>, k: nat, t: real)
    requires k + 1 < |sorted| && 0.0 <= t <= 1.0
    ensures 0.0 <= (k as real + t) / (|sorted| - 1) as real <= 1.0
    ensures Percentile(sorted, (k as real + t) / (|sorted| - 1) as real)
            == (1.0 - t) * sorted[k] + t * sorted[k + 1]
  {
    hide *;
    var x, top := k as real + t, (|sorted| - 1) as real;
    ShareIsInside(x, |sorted|);
    PercentileOfShare(sorted, x / top, x);
    StepToNext(sorted, k, t);
    Blend(sorted[k], sorted[k + 1], t);
  }

  lemma PercentileOfShare(sorted: seq<real>, share: real, x: real)
    requires |sorted| >= 2 && 0.0 <= share <= 1.0 && share * (|sorted| - 1) as real == x
    requires 0.0 <= x <= (|sorted| - 1) as real
    ensures Percentile(sorted, share) == Interpolate(sorted, x)
  {
    hide Interpolate;
  }

  lemma Blend(a: real, b: real, t: real)
    ensures a + t * (b - a) == (1.0 - t) * a + t * b
  {
  }

  // ---- how many edges are on either side ----

  // Where p falls among n values, from 0 to n - 1.
  function Position(p: real, n: nat): (x: real)
    requires 0.0 <= p <= 1.0 && n >= 1
    ensures 0.0 <= x <= (n - 1) as real
  {
    PositionIsInside(p, n);
    p * (n - 1) as real
  }

  lemma PercentileAt(sorted: seq<real>, p: real)
    requires 0.0 <= p <= 1.0 && |sorted| >= 1
    ensures Percentile(sorted, p) == Interpolate(sorted, Position(p, |sorted|))
  {
    if |sorted| == 1 {
      assert Position(p, 1) == 0.0;
    }
  }

  // At least the floor of the position and one more are no faster than the value, and at least
  // all from its ceiling on no slower.
  lemma {:induction false} ValueSplitsSpeeds(edges: seq<Edge>, p: real)
    requires edges != [] && 0.0 <= p <= 1.0
    ensures
      var v, x := Percentile(SortedSpeeds(edges), p), Position(p, |edges|);
      NoFaster(edges, v) >= x.Floor + 1 && NoSlower(edges, v) >= |edges| - Ceiling(x)
  {
    hide *;
    var sorted := SortedSpeeds(edges);
    SortedCounts(edges, Percentile(sorted, p));
    SortedSplits(sorted, p);
  }

  lemma SortedSplits(sorted: seq<real>, p: real)
    requires Ascending(sorted) && sorted != [] && 0.0 <= p <= 1.0
    ensures
      var v, x := Percentile(sorted, p), Position(p, |sorted|);
      |Filter(AtMost(v), sorted)| >= x.Floor + 1 && |Filter(AtLeast(v), sorted)| >= |sorted| - Ceiling(x)
  {
    var v, x := Percentile(sorted, p), Position(p, |sorted|);
    hide Filter, Percentile, Interpolate, Position;
    PercentileAt(sorted, p);
    InterpolationIsBetween(sorted, x);
    CountOfFront(AtMost(v), sorted, x.Floor + 1);
    CountOfBack(AtLeast(v), sorted, Ceiling(x));
  }

  // Half the edges and more are no faster than the baseline, and half and more no slower.
  lemma {:induction false} BaselineIsMedian(edges: seq<Edge>)
    requires edges != []
    ensures 2 * NoFaster(edges, Baseline(edges)) >= |edges| && 2 * NoSlower(edges, Baseline(edges)) >= |edges|
  {
    ValueSplitsSpeeds(edges, 0.5);
    HalfwayIs(|edges|);
    hide NoFaster, NoSlower, Percentile, SortedSpeeds, Position;
  }

  lemma HalfwayIs(n: nat)
    requires n >= 1
    ensures 2 * (Position(0.5, n).Floor + 1) >= n && 2 * (n - Ceiling(Position(0.5, n))) >= n
  {
    var x := Position(0.5, n);
    assert 2.0 * x == (n - 1) as real;
    hide Position;
    var lower, upper := x.Floor, Ceiling(x);
    assert lower as real <= x < (lower + 1) as real;
    assert (upper - 1) as real < x <= upper as real;
    assert (2 * lower + 2) as real == 2.0 * (lower + 1) as real > (n - 1) as real;
    assert (2 * upper - 2) as real == 2.0 * (upper - 1) as real < (n - 1) as real;
  }

  ghost predicate DistinctSpeeds(edges: seq<Edge>) {
    forall i, j :: 0 <= i < j < |edges| ==> edges[i].speedMps != edges[j].speedMps
  }

  lemma {:induction false} OnceIfDistinct(s: seq<real>)
    requires forall i, j :: 0 <= i < j < |s| ==> s[i] != s[j]
    ensures forall x :: multiset(s)[x] <= 1
  {
    if s != [] {
      OnceIfDistinct(s[..|s| - 1]);
      assert s == s[..|s| - 1] + [s[|s| - 1]];
      assert s[|s| - 1] !in s[..|s| - 1];
    }
  }

  lemma TwiceIfEqual(s: seq<real>, i: nat, j: nat)
    requires i < j < |s|
    ensures s[i] == s[j] ==> multiset(s)[s[i]] >= 2
  {
    var front, back := s[..j], s[j..];
    assert s == front + back;
    assert s[i] == front[i] && s[j] == back[0];
    assert multiset(s) == multiset(front) + multiset(back);
    assert front[i] in multiset(front) && back[0] in multiset(back);
  }

  lemma SortedAreDistinct(edges: seq<Edge>)
    requires DistinctSpeeds(edges)
    ensures
      var sorted := SortedSpeeds(edges);
      |sorted| == |edges| && forall i, j :: 0 <= i < j < |sorted| ==> sorted[i] < sorted[j]
  {
    var sorted := SortedSpeeds(edges);
    SortedCounts(edges, 0.0);
    OnceIfDistinct(Speeds(edges));
    assert multiset(sorted) == multiset(Speeds(edges));
    hide Sort, Filter, SortedSpeeds;
    assert forall x :: multiset(sorted)[x] <= 1;
    forall i, j | 0 <= i < j < |sorted| ensures sorted[i] < sorted[j] {
      TwiceIfEqual(sorted, i, j);
      assert sorted[i] <= sorted[j];
    }
  }

  lemma InterpolationIsStrict(sorted: seq<real>, x: real, i: nat)
    requires forall i, j :: 0 <= i < j < |sorted| ==> sorted[i] < sorted[j]
    requires |sorted| > 0 && 0.0 <= x <= (|sorted| - 1) as real && i < Ceiling(x)
    ensures sorted[i] < Interpolate(sorted, x)
  {
    var lower, upper := x.Floor, Ceiling(x);
    if lower < upper {
      var step, part := sorted[upper] - sorted[lower], x - lower as real;
      assert upper == lower + 1 && part > 0.0 && step > 0.0;
      PositiveProduct(step, part);
      assert Interpolate(sorted, x) == sorted[lower] + step * part;
    }
  }

  lemma PositiveProduct(a: real, b: real)
    requires a > 0.0 && b > 0.0
    ensures a * b > 0.0
  {
  }

  // With distinct speeds, all edges but as many as the ceiling of the position count as fast.
  lemma {:induction false} FastEdgesAreCounted(edges: seq<Edge>, cfg: PresetConfig)
    requires edges != [] && 0.0 <= cfg.percentile <= 1.0 && DistinctSpeeds(edges)
    ensures NoSlower(edges, Threshold(edges, cfg)) == |edges| - Ceiling(Position(cfg.percentile, |edges|))
  {
    hide *;
    ThresholdIs(edges, cfg);
    SortedCounts(edges, Threshold(edges, cfg));
    SortedAreDistinct(edges);
    DistinctSplits(SortedSpeeds(edges), cfg.percentile);
  }

  lemma ThresholdIs(edges: seq<Edge>, cfg: PresetConfig)
    requires 0.0 <= cfg.percentile <= 1.0
    ensures Threshold(edges, cfg) == Percentile(SortedSpeeds(edges), cfg.percentile)
  {
    hide Percentile, SortedSpeeds;
  }

  lemma DistinctSplits(sorted: seq<real>, p: real)
    requires sorted != [] && 0.0 <= p <= 1.0
    requires forall i, j :: 0 <= i < j < |sorted| ==> sorted[i] < sorted[j]
    ensures |Filter(AtLeast(Percentile(sorted, p)), sorted)| == |sorted| - Ceiling(Position(p, |sorted|))
  {
    var v, x := Percentile(sorted, p), Position(p, |sorted|);
    hide Filter, Percentile, Interpolate, Position;
    PercentileAt(sorted, p);
    InterpolationIsBetween(sorted, x);
    forall i | 0 <= i < Ceiling(x) ensures sorted[i] < v {
      InterpolationIsStrict(sorted, x, i);
    }
    CountOfBack(AtLeast(v), sorted, Ceiling(x));
  }

  // An edge is in a fast run only if it counts as fast: the runs of a track hold no edges but
  // those the threshold leaves.
  lemma {:induction false} FastIsNoSlower(edges: seq<Edge>, threshold: real)
    ensures NoSlower(edges, threshold) == |Filter((e: Edge) => Fast(e, threshold), edges)|
  {
    if edges != [] {
      var front, e := edges[..|edges| - 1], edges[|edges| - 1];
      FastIsNoSlower(front, threshold);
      assert Speeds(edges) == Speeds(front) + [e.speedMps];
      assert Speeds(edges)[..|edges| - 1] == Speeds(front);
    }
  }

  // ---- what a returned segment says ----

  // The uplift is what the average is above the baseline, in percent.
  lemma {:induction false} UpliftIsExact(run: seq<Edge>, baseline: real)
    requires run != [] && Span(run) > 0 && baseline > 0.0
    ensures
      var s := SegmentOf(run, baseline);
      s.avgSpeedMps == baseline * (1.0 + s.upliftPercent / 100.0) && s.distanceM == s.avgSpeedMps * InSeconds(Span(run))
  {
    hide TotalDistance, PointsOf;
  }

  // Higher uplift first, then higher average, then the earlier start.
  lemma {:induction false} RanksDescend(segments: seq<Segment>, limit: nat, i: nat, j: nat)
    requires i < j < |Ranked(segments, limit)|
    ensures
      var a, b := Ranked(segments, limit)[i], Ranked(segments, limit)[j];
      && a.upliftPercent >= b.upliftPercent
      && (a.upliftPercent == b.upliftPercent ==> a.avgSpeedMps >= b.avgSpeedMps)
      && (a.upliftPercent == b.upliftPercent && a.avgSpeedMps == b.avgSpeedMps ==> a.startedAt <= b.startedAt)
  {
    RankedIsBest(segments, limit);
    hide Ranked;
  }

  // ---- runs in plain terms ----

  // Edges at or above a speed, each starting where the one before it ends, that cannot be
  // prolonged.
  ghost predicate WholeRun(edges: seq<Edge>, v: real, r: Interval) {
    && r.lo < r.hi <= |edges|
    && (forall k :: r.lo <= k < r.hi ==> edges[k].speedMps >= v)
    && (forall k :: r.lo < k < r.hi ==> edges[k - 1].end == edges[k].start)
    && !(r.lo > 0 && edges[r.lo - 1].speedMps >= v && edges[r.lo - 1].end == edges[r.lo].start)
    && !(r.hi < |edges| && edges[r.hi].speedMps >= v && edges[r.hi - 1].end == edges[r.hi].start)
  }

  lemma ChainedIsJoined(edges: seq<Edge>, k: nat)
    requires EdgesFit(edges) && 0 < k < |edges|
    ensures Chained(edges[k - 1], edges[k]) <==> edges[k - 1].end == edges[k].start
  {
    assert EdgesMeet(edges[k - 1], edges[k]);
  }

  lemma WholeRunIsMaximal(edges: seq<Edge>, v: real, r: Interval)
    requires EdgesFit(edges)
    ensures WholeRun(edges, v, r) <==> IsMaximalRun(edges, v, r)
  {
    forall k | 0 < k < |edges| ensures Chained(edges[k - 1], edges[k]) <==> edges[k - 1].end == edges[k].start {
      ChainedIsJoined(edges, k);
    }
    hide EdgesFit, Chained;
  }

  lemma LongEnoughIs(edges: seq<Edge>, r: Interval, minDuration: int)
    requires r.lo < r.hi <= |edges|
    ensures LongEnough(edges, r, minDuration)
            <==> edges[r.hi - 1].end.recordedAt - edges[r.lo].start.recordedAt >= minDuration
  {
    var run := edges[r.lo..r.hi];
    assert run[0] == edges[r.lo] && run[|run| - 1] == edges[r.hi - 1];
  }

  // A run of one device that lasts long enough from its first point to its last is in the
  // answer, with its times and its average, unless the answer is full of better ones.
  lemma {:induction false} LongRunIsListed(dist: Distance, points: seq<SourcePoint>, preset: Preset, limit: nat,
                                           d: string, r: Interval) returns (s: Segment)
    requires UniqueEvents(points) && TimeSorted(points) && (forall p, q :: 0.0 <= dist(p, q))
    requires !preset.OtherPreset?
    requires
      var cfg, own := ConfigOf(preset).value, DeviceEdges(EdgesOf(dist, points, |points|), d);
      && WholeRun(own, Threshold(own, cfg), r)
      && own[r.hi - 1].end.recordedAt - own[r.lo].start.recordedAt >= cfg.minDuration
    ensures
      var edges, cfg := EdgesOf(dist, points, |points|), ConfigOf(preset).value;
      var own, result := DeviceEdges(edges, d), Ranked(SegmentsOfDevices(edges, DevicesOf(edges), cfg), limit);
      && s.deviceId == d && s.startedAt == own[r.lo].start.recordedAt && s.endedAt == own[r.hi - 1].end.recordedAt
      && (Lists(result, s) || (|result| == limit && forall k :: 0 <= k < |result| ==> !Outranks(s, result[k])))
  {
    hide *;
    PresetIsKnown(preset);
    var edges, cfg := EdgesOf(dist, points, |points|), ConfigOf(preset).value;
    var own := DeviceEdges(edges, d);
    EdgesOfPointsFit(dist, points);
    OwnEdgesFit(edges, d);
    WholeRunIsMaximal(own, Threshold(own, cfg), r);
    RunIsInOwn(own, d, Threshold(own, cfg), r);
    LongEnoughIs(own, r, cfg.minDuration);
    ThresholdIsHigher(own, cfg);
    MaximalRunFits(own, Threshold(own, cfg), Baseline(own), r);
    SegmentTimes(own, Baseline(own), r);
    s := SegmentOf(own[r.lo..r.hi], Baseline(own));
    FastestFromParts(edges, cfg, d, r, s);
    NoFastSegmentIsMissed(edges, cfg, limit, d, r, s);
  }

  lemma PresetIsKnown(preset: Preset)
    requires !preset.OtherPreset?
    ensures ConfigOf(preset).Some?
  {
  }

  lemma OwnEdgesFit(edges: seq<Edge>, d: string)
    requires EdgesFit(edges)
    ensures EdgesFit(DeviceEdges(edges, d))
    ensures forall k :: 0 <= k < |DeviceEdges(edges, d)| ==> DeviceEdges(edges, d)[k].start.deviceId == d
  {
    FilterKeepsEdges(edges, (e: Edge) => e.start.deviceId == d);
    OwnEdgesAreOfDevice(edges, d);
    hide EdgesFit, DeviceEdges;
  }

  lemma RunIsInOwn(own: seq<Edge>, d: string, v: real, r: Interval)
    requires WholeRun(own, v, r) && forall k :: 0 <= k < |own| ==> own[k].start.deviceId == d
    ensures r.lo < r.hi <= |own| && own[r.lo].start.deviceId == d
  {
  }

  lemma ThresholdIsHigher(own: seq<Edge>, cfg: PresetConfig)
    requires 0.5 <= cfg.percentile <= 1.0
    ensures Threshold(own, cfg) >= Baseline(own)
  {
    SpeedsAscend(own);
    PercentileGrows(SortedSpeeds(own), 0.5, cfg.percentile);
    hide Percentile, SortedSpeeds;
  }

  lemma SegmentTimes(own: seq<Edge>, baseline: real, r: Interval)
    requires r.lo < r.hi <= |own| && Span(own[r.lo..r.hi]) > 0
    ensures
      var s := SegmentOf(own[r.lo..r.hi], baseline);
      && s.deviceId == own[r.lo].start.deviceId && s.startedAt == own[r.lo].start.recordedAt
      && s.endedAt == own[r.hi - 1].end.recordedAt
  {
    hide TotalDistance, Uplift, PointsOf;
    var run := own[r.lo..r.hi];
    assert run[0] == own[r.lo] && run[|run| - 1] == own[r.hi - 1];
  }

  lemma FastestFromParts(edges: seq<Edge>, cfg: PresetConfig, d: string, r: Interval, s: Segment)
    requires 0.5 <= cfg.percentile <= 1.0
    requires
      var own := DeviceEdges(edges, d);
      && SegmentFits(own, Threshold(own, cfg), Baseline(own), r, s) && LongEnough(own, r, cfg.minDuration)
    ensures FastestOf(edges, cfg, d, r, s)
  {
    hide DeviceEdges, Threshold, Baseline, SegmentFits, LongEnough;
  }

  // And whatever is in the answer lasted that long.
  lemma {:induction false} ReturnedSegmentsAreLong(dist: Distance, points: seq<SourcePoint>, preset: Preset, limit: nat,
                                                   k: nat)
    requires UniqueEvents(points) && TimeSorted(points) && (forall p, q :: 0.0 <= dist(p, q))
    requires !preset.OtherPreset?
    requires
      var edges, cfg := EdgesOf(dist, points, |points|), ConfigOf(preset).value;
      k < |Ranked(SegmentsOfDevices(edges, DevicesOf(edges), cfg), limit)|
    ensures
      var edges, cfg := EdgesOf(dist, points, |points|), ConfigOf(preset).value;
      var s := Ranked(SegmentsOfDevices(edges, DevicesOf(edges), cfg), limit)[k];
      s.endedAt - s.startedAt >= cfg.minDuration
  {
    hide *;
    PresetIsKnown(preset);
    var edges, cfg := EdgesOf(dist, points, |points|), ConfigOf(preset).value;
    var s := Ranked(SegmentsOfDevices(edges, DevicesOf(edges), cfg), limit)[k];
    FastSegmentsAreFast(dist, points, preset, limit);
    FastestIsLong(edges, cfg, s.(rank := 0));
  }

  lemma FastestIsLong(edges: seq<Edge>, cfg: PresetConfig, s: Segment)
    requires 0.5 <= cfg.percentile <= 1.0 && IsFastest(edges, cfg, s)
    ensures s.endedAt - s.startedAt >= cfg.minDuration
  {
    hide Threshold, Baseline, DeviceEdges, IsMaximalRun, TotalDistance, Uplift, PointsOf;
    var d, r :| FastestOf(edges, cfg, d, r, s);
    var own := DeviceEdges(edges, d);
    LongEnoughIs(own, r, cfg.minDuration);
    SegmentTimes(own, Baseline(own), r);
  }

  // An edge for each pair of neighbours of one device and segment with time between them.
  lemma {:induction false} NeighboursMakeEdges(dist: Distance, points: seq<SourcePoint>, n: nat, i: nat)
    requires i + 1 < n <= |points|
    ensures
      var p, q := points[i], points[i + 1];
      p.deviceId == q.deviceId && p.segmentId == q.segmentId && p.recordedAt < q.recordedAt ==>
        exists e: Edge :: e in EdgesOf(dist, points, n) && e.start == p && e.end == q
                    && e.distanceM == dist(p.position, q.position)
                    && e.speedMps == e.distanceM / InSeconds(q.recordedAt - p.recordedAt)
  {
    if i + 2 < n {
      NeighboursMakeEdges(dist, points, n - 1, i);
    } else if Connects(points[i], points[i + 1]) {
      assert EdgeBetween(dist, points[i], points[i + 1]) in EdgesOf(dist, points, n);
    }
  }
}
