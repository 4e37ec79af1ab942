// Which raw points the noise pipeline accepts, and when a window counts as a standstill, in
// terms of positions, times, accuracies and speeds alone.
module NoiseVerdicts {
  import opened Domain
  import opened Sorting
  import opened Noise
  import opened NoiseOutput
  import opened NoiseBoundary
  import opened NoiseCut

  // Known time and place, and accurate enough.
  predicate GoodFix(cfg: NoiseConfig, p: RawPoint) {
    && p.recordedAt != 0 && -90.0 <= p.position.lat <= 90.0 && -180.0 <= p.position.lon <= 180.0
    && 0.0 <= p.accuracyM <= cfg.usableAccuracyM && p.accuracyM <= cfg.garbageAccuracyM
  }

  // The fastest a device may go, by what it says it does.
  function Ceiling(cfg: NoiseConfig, activity: string): real {
    match activity
    case "running" => cfg.runningMaxSpeedMps
    case "bicycle" => cfg.bikeMaxSpeedMps
    case "bike" => cfg.bikeMaxSpeedMps
    case "vehicle" => cfg.vehicleMaxSpeedMps
    case "automotive" => cfg.vehicleMaxSpeedMps
    case _ => cfg.walkingMaxSpeedMps
  }

  // Later than the previous point, and no faster from there than its activity allows, or than a
  // vehicle unless the next point is nearer to the previous one again.
  predicate Plausible(s: Setup, from: GeoPoint, at: Time, p: RawPoint, next: Option<RawPoint>) {
    && p.recordedAt > at
    && var speed := s.dist(from, p.position) / InSeconds(p.recordedAt - at);
       || speed <= Ceiling(s.cfg, p.activityType)
       || (&& speed <= s.cfg.vehicleMaxSpeedMps
           && (next.None? || s.dist(from, next.value.position) >= s.dist(from, p.position)))
  }

  predicate Acceptable(s: Setup, previous: Option<ProcessedPoint>, p: RawPoint, next: Option<RawPoint>,
                       through: Option<Time>)
  {
    && (through.Some? ==> p.recordedAt > through.value) && GoodFix(s.cfg, p)
    && (previous.Some? ==> Plausible(s, previous.value.raw, previous.value.recordedAt, p, next))
  }

  lemma AcceptedExactly(s: Setup, window: seq<ProcessedPoint>, raw: RawPoint, next: Option<RawPoint>,
                        through: Option<Time>)
    ensures ProcessOne(s, window, raw, next, through).isAccepted
            <==> Acceptable(s, Last(window), raw, next, through)
  {
    hide DetectStationary, Trim, Clamp, AnchorIndex;
  }

  lemma SameFixSameVerdict(s: Setup, p: ProcessedPoint, q: ProcessedPoint, raw: RawPoint, next: Option<RawPoint>,
                           through: Option<Time>)
    requires Unmarked(p) == Unmarked(q)
    ensures Acceptable(s, Some(p), raw, next, through) == Acceptable(s, Some(q), raw, next, through)
  {
    assert Unmarked(p).raw == Unmarked(q).raw && Unmarked(p).recordedAt == Unmarked(q).recordedAt;
    hide GoodFix, Plausible;
  }

  lemma LastVerdict(s: Setup, history: seq<ProcessedPoint>, points: seq<RawPoint>, through: Option<Time>, i: nat)
    requires InputFits(s, history) && i < |points|
    ensures
      var g := Steps(s, history, points, through, i);
      && |Steps(s, history, points, through, i + 1).processed| == i + 1
      && (Steps(s, history, points, through, i + 1).processed[i].isAccepted
          <==> Acceptable(s, Last(Track(history, g.accepted)), points[i], NextOf(points, i), through))
  {
    hide *;
    var g := Steps(s, history, points, through, i);
    ProcessedCount(s, history, points, through, i);
    StepsOneOn(s, history, points, through, i);
    StepVerdict(s, g, points[i], NextOf(points, i), through);
    InputIsSane(s, history);
    StepsWindowFits(s, history, points, through, i);
    WindowHoldsLast(s, history, g);
    AcceptedExactly(s, g.window, points[i], NextOf(points, i), through);
    var track := Track(history, g.accepted);
    LastIs(g.window);
    LastIs(track);
    if track != [] {
      SameFixSameVerdict(s, g.window[|g.window| - 1], track[|track| - 1], points[i], NextOf(points, i), through);
    }
  }

  lemma LastIs(points: seq<ProcessedPoint>)
    ensures Last(points) == if points == [] then None else Some(points[|points| - 1])
  {
  }

  lemma InputIsSane(s: Setup, history: seq<ProcessedPoint>)
    requires InputFits(s, history)
    ensures s.cfg.stationaryWindowSec >= 0
  {
    hide AcceptedOnly, NonDecreasing;
  }

  lemma StepsOneOn(s: Setup, history: seq<ProcessedPoint>, points: seq<RawPoint>, through: Option<Time>, i: nat)
    requires i < |points|
    ensures Steps(s, history, points, through, i + 1)
            == Step(s, Steps(s, history, points, through, i), points[i], NextOf(points, i), through)
  {
    hide Step;
  }

  lemma StepVerdict(s: Setup, g: Progress, raw: RawPoint, next: Option<RawPoint>, through: Option<Time>)
    ensures
      var after := Step(s, g, raw, next, through);
      && |after.processed| == |g.processed| + 1
      && after.processed[|g.processed|].isAccepted == ProcessOne(s, g.window, raw, next, through).isAccepted
  {
    hide ProcessOne, Trim;
  }

  // Of any batch the i-th point in time order is accepted exactly when it is new, good, and
  // plausible after the last point accepted before it.
  lemma {:induction false} VerdictsAreExact(s: Setup, history: seq<ProcessedPoint>, raw: seq<RawPoint>,
                                            through: Option<Time>, i: nat)
    requires InputFits(s, history) && i < |Sort(RawBefore, raw)|
    ensures
      var points := Sort(RawBefore, raw);
      var previous := Last(Track(history, Steps(s, history, points, through, i).accepted));
      && |Pipeline(s, history, raw, through).processed| == |points|
      && (Pipeline(s, history, raw, through).processed[i].isAccepted
          <==> Acceptable(s, previous, points[i], NextOf(points, i), through))
  {
    hide Acceptable, Steps, Sort, Track;
    var points := Sort(RawBefore, raw);
    LastVerdict(s, history, points, through, i);
    VerdictsStay(s, history, points, through, i + 1, |points|, i);
    ProcessedCount(s, history, points, through, |points|);
  }

  // Enough points over enough time, none on foot or too fast, all within the radius of the
  // first.
  lemma StandstillIs(s: Setup, window: seq<ProcessedPoint>)
    requires window != []
    ensures DetectStationary(s, window)
            <==> && |window| >= s.cfg.stationaryMinPoints
                 && window[|window| - 1].recordedAt - window[0].recordedAt >= Seconds(s.cfg.stationaryMinDurationSec)
                 && forall i :: 0 <= i < |window| ==>
                      && window[0].filtered.Some? && window[i].filtered.Some?
                      && s.dist(window[0].filtered.value, window[i].filtered.value) <= s.cfg.stationaryRadiusM
                      && window[i].activityType != "walking" && window[i].activityType != "running"
                      && (if window[i].speedMps.Some? then window[i].speedMps.value else window[i].impliedSpeedMps)
                         <= s.cfg.stationaryMaxSpeedMps
  {
  }
}
