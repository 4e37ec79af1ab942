// The noise pipeline (usecase/noise/pipeline.go): what it computes, and its loops proved
// to compute it.
module Noise {
  import opened Domain
  import opened Sorting

  type Smoother = (seq<ProcessedPoint>, RawPoint) -> GeoPoint

  // What is fixed for a pipeline: thresholds, the distance formula and the smoother.
  datatype Setup = Setup(cfg: NoiseConfig, dist: Distance, smooth: Smoother)

  // Byte order on event ids.
  predicate IdBefore(a: EventId, b: EventId) {
    b != [] && (a == [] || a[0] < b[0] || (a[0] == b[0] && IdBefore(a[1..], b[1..])))
  }

  predicate RawBefore(p: RawPoint, q: RawPoint) {
    if p.recordedAt == q.recordedAt then IdBefore(p.eventId, q.eventId)
    else p.recordedAt < q.recordedAt
  }

  function AcceptedOnly(points: seq<ProcessedPoint>): seq<ProcessedPoint> {
    Filter((p: ProcessedPoint) => p.isAccepted, points)
  }

  // Drop the leading points recorded before the cutoff.
  function DropBefore(points: seq<ProcessedPoint>, cutoff: Time): seq<ProcessedPoint> {
    if points == [] || points[0].recordedAt >= cutoff then points
    else DropBefore(points[1..], cutoff)
  }

  function Trim(points: seq<ProcessedPoint>, at: Time, seconds: int): seq<ProcessedPoint> {
    DropBefore(points, at - Seconds(seconds))
  }

  predicate Anchors(p: ProcessedPoint) {
    p.noiseReason != Jitter && p.noiseReason != Stationary
  }

  // Position of the most recent point that is neither jitter nor stationary, or -1.
  function LastAnchor(history: seq<ProcessedPoint>): (i: int)
    ensures -1 <= i < |history|
  {
    if history == [] then -1
    else if Anchors(history[|history| - 1]) then |history| - 1
    else LastAnchor(history[..|history| - 1])
  }

  function Max(a: real, b: real): real { if a >= b then a else b }
  function Min(a: real, b: real): real { if a <= b then a else b }

  function Clamp(value: real, lo: real, hi: real): real {
    Max(lo, Min(hi, value))
  }

  // The zero instant is the unset time.
  function Validate(cfg: NoiseConfig, p: RawPoint): NoiseReason {
    if p.recordedAt == 0 || p.position.lat < -90.0 || p.position.lat > 90.0 ||
       p.position.lon < -180.0 || p.position.lon > 180.0 || p.accuracyM < 0.0 then InvalidPoint
    else if p.accuracyM > cfg.garbageAccuracyM then GarbageAccuracy
    else if p.accuracyM > cfg.usableAccuracyM then PoorAccuracy
    else NoNoise
  }

  function MaxSpeed(cfg: NoiseConfig, activity: string): real {
    if activity == "running" then cfg.runningMaxSpeedMps
    else if activity == "bicycle" || activity == "bike" then cfg.bikeMaxSpeedMps
    else if activity == "vehicle" || activity == "automotive" then cfg.vehicleMaxSpeedMps
    else cfg.walkingMaxSpeedMps
  }

  datatype Verdict = Verdict(impliedSpeed: real, outlier: bool)

  function DetectOutlier(s: Setup, previous: Option<ProcessedPoint>, current: RawPoint,
                         next: Option<RawPoint>): Verdict {
    if previous.None? then Verdict(0.0, false)
    else
      var elapsed := InSeconds(current.recordedAt - previous.value.recordedAt);
      if elapsed <= 0.0 then Verdict(0.0, true)
      else
        var covered := s.dist(previous.value.raw, current.position);
        var speed := covered / elapsed;
        if speed <= MaxSpeed(s.cfg, current.activityType) then Verdict(speed, false)
        else if speed > s.cfg.vehicleMaxSpeedMps then Verdict(speed, true)
        else if next.None? then Verdict(speed, false)
        else Verdict(speed, s.dist(previous.value.raw, next.value.position) < covered)
  }

  // One point of a window that a stationary device could have produced.
  predicate Still(s: Setup, center: GeoPoint, p: ProcessedPoint) {
    && p.filtered.Some?
    && s.dist(center, p.filtered.value) <= s.cfg.stationaryRadiusM
    && !p.OnFoot()
    && p.Speed() <= s.cfg.stationaryMaxSpeedMps
  }

  // An empty window never reaches the centre: the source reads window[len-1] only after
  // comparing the length with the configured minimum, which must therefore be positive.
  predicate DetectStationary(s: Setup, window: seq<ProcessedPoint>) {
    && |window| >= s.cfg.stationaryMinPoints
    && window != []
    && window[|window| - 1].recordedAt - window[0].recordedAt >= Seconds(s.cfg.stationaryMinDurationSec)
    && window[0].filtered.Some?
    && forall i :: 0 <= i < |window| ==> Still(s, window[0].filtered.value, window[i])
  }

  // The record of a point before any decision about it.
  function Fresh(raw: RawPoint): ProcessedPoint {
    ProcessedPoint(raw.eventId, raw.recordedAt, raw.position, None, raw.accuracyM, raw.speedMps,
                   0.0, 0.0, raw.activityType, raw.activityConfidence,
                   false, false, false, NoNoise, None)
  }

  function Last(history: seq<ProcessedPoint>): Option<ProcessedPoint> {
    if history == [] then None else Some(history[|history| - 1])
  }

  // The point distance is measured against: the last anchor, else the previous point.
  function AnchorIndex(history: seq<ProcessedPoint>): (i: nat)
    requires history != []
    ensures i < |history|
  {
    if LastAnchor(history) >= 0 then LastAnchor(history) else |history| - 1
  }

  // Distance and jitter against the anchor, or a segment break after a long gap.
  function Measured(s: Setup, history: seq<ProcessedPoint>, raw: RawPoint, out: ProcessedPoint): ProcessedPoint {
    if history == [] then out
    else if raw.recordedAt - history[|history| - 1].recordedAt > Seconds(s.cfg.segmentMaxGapSec) then
      out.(noiseReason := SegmentBreak)
    else
      var anchor := history[AnchorIndex(history)];
      var distance := s.dist(anchor.raw, raw.position);
      var radius := Clamp((anchor.accuracyM + raw.accuracyM) / 2.0, s.cfg.noiseMinRadiusM, s.cfg.noiseMaxRadiusM);
      if distance < radius then out.(noiseReason := Jitter) else out.(distanceDeltaM := distance)
  }

  function MarkedStationary(p: ProcessedPoint, since: Time): ProcessedPoint {
    p.(isStationary := true, distanceDeltaM := 0.0, noiseReason := Stationary, stationarySince := Some(since))
  }

  function Settled(s: Setup, history: seq<ProcessedPoint>, out: ProcessedPoint): ProcessedPoint {
    var window := Trim(history + [out], out.recordedAt, s.cfg.stationaryWindowSec);
    if DetectStationary(s, window) then MarkedStationary(out, window[0].recordedAt) else out
  }

  function ProcessOne(s: Setup, history: seq<ProcessedPoint>, raw: RawPoint, next: Option<RawPoint>,
                      processedThrough: Option<Time>): ProcessedPoint
  {
    var out := Fresh(raw);
    if processedThrough.Some? && raw.recordedAt <= processedThrough.value then
      out.(noiseReason := LateArrival)
    else if Validate(s.cfg, raw) != NoNoise then
      out.(noiseReason := Validate(s.cfg, raw))
    else
      var verdict := DetectOutlier(s, Last(history), raw, next);
      var judged := out.(impliedSpeedMps := verdict.impliedSpeed);
      if verdict.outlier then judged.(isOutlier := true, noiseReason := Teleport)
      else
        var smoothed := s.smooth(Trim(history, raw.recordedAt, s.cfg.segmentMaxGapSec), raw);
        Settled(s, history, Measured(s, history, raw, judged.(filtered := Some(smoothed), isAccepted := true)))
  }

  // markStationaryWindow, point by point.
  function MarkFrom(points: seq<ProcessedPoint>, since: Time): seq<ProcessedPoint> {
    seq(|points|, i requires 0 <= i < |points| =>
      if points[i].recordedAt < since then points[i] else MarkedStationary(points[i], since))
  }

  function MarkAcceptedFrom(points: seq<ProcessedPoint>, since: Time): seq<ProcessedPoint> {
    seq(|points|, i requires 0 <= i < |points| =>
      if points[i].recordedAt < since || !points[i].isAccepted then points[i]
      else MarkedStationary(points[i], since))
  }

  // A batch in progress: the sliding window and the two result lists.
  datatype Progress = Progress(window: seq<ProcessedPoint>, processed: seq<ProcessedPoint>,
      accepted: seq<ProcessedPoint>)

  function Step(s: Setup, g: Progress, raw: RawPoint, next: Option<RawPoint>,
                processedThrough: Option<Time>): Progress {
    var out := ProcessOne(s, g.window, raw, next, processedThrough);
    var processed := g.processed + [out];
    if !out.isAccepted then g.(processed := processed)
    else
      var window := Trim(g.window + [out], raw.recordedAt, s.cfg.stationaryWindowSec);
      var accepted := g.accepted + [out];
      if out.isStationary && window != [] then  // a stationary window is never empty
        var since := window[0].recordedAt;
        Progress(window, MarkAcceptedFrom(processed, since), MarkFrom(accepted, since))
      else Progress(window, processed, accepted)
  }

  function NextOf(points: seq<RawPoint>, i: nat): Option<RawPoint> {
    if i + 1 < |points| then Some(points[i + 1]) else None
  }

  // The first n points of a sorted batch.
  function Steps(s: Setup, history: seq<ProcessedPoint>, points: seq<RawPoint>, processedThrough: Option<Time>,
                 n: nat): Progress
    requires n <= |points|
  {
    if n == 0 then Progress(AcceptedOnly(history), [], [])
    else Step(s, Steps(s, history, points, processedThrough, n - 1), points[n - 1], NextOf(points, n - 1),
        processedThrough)
  }

  function Pipeline(s: Setup, history: seq<ProcessedPoint>, raw: seq<RawPoint>,
                    processedThrough: Option<Time>): Progress {
    var points := Sort(RawBefore, raw);
    assert |points| == |multiset(points)|;
    Steps(s, history, points, processedThrough, |points|)
  }

  method TrimWindow(points: seq<ProcessedPoint>, at: Time, seconds: int) returns (rest: seq<ProcessedPoint>)
    ensures rest == Trim(points, at, seconds)
  {
    var cutoff := at - Seconds(seconds);
    var index := 0;
    while index < |points| && points[index].recordedAt < cutoff
      invariant index <= |points|
      invariant DropBefore(points, cutoff) == DropBefore(points[index..], cutoff)
    {
      assert points[index..][1..] == points[index + 1..];
      index := index + 1;
    }
    rest := points[index..];
  }

  method FindLastAnchor(history: seq<ProcessedPoint>) returns (found: int)
    ensures found == LastAnchor(history)
  {
    found := |history| - 1;
    assert history[..found + 1] == history;
    while found >= 0 && !Anchors(history[found])
      invariant -1 <= found < |history|
      invariant LastAnchor(history) == LastAnchor(history[..found + 1])
    {
      assert history[..found + 1][..found] == history[..found];
      found := found - 1;
    }
  }

  method KeepAccepted(points: seq<ProcessedPoint>) returns (out: seq<ProcessedPoint>)
    ensures out == AcceptedOnly(points)
  {
    out := [];
    for i := 0 to |points|
      invariant out == AcceptedOnly(points[..i])
    {
      assert points[..i + 1][..i] == points[..i];
      if points[i].isAccepted {
        out := out + [points[i]];
      }
    }
    assert points[..|points|] == points;
  }

  method IsStationaryWindow(s: Setup, window: seq<ProcessedPoint>) returns (stationary: bool)
    ensures stationary == DetectStationary(s, window)
  {
    if |window| < s.cfg.stationaryMinPoints || window == [] {
      return false;
    }
    if window[|window| - 1].recordedAt - window[0].recordedAt < Seconds(s.cfg.stationaryMinDurationSec) ||
       window[0].filtered.None? {
      return false;
    }
    var center := window[0].filtered.value;
    for i := 0 to |window|
      invariant forall k :: 0 <= k < i ==> Still(s, center, window[k])
    {
      var p := window[i];
      if p.filtered.None? || s.dist(center, p.filtered.value) > s.cfg.stationaryRadiusM {
        return false;
      }
      if p.activityType == "walking" || p.activityType == "running" {
        return false;
      }
      var speed := p.impliedSpeedMps;
      if p.speedMps.Some? {
        speed := p.speedMps.value;
      }
      if speed > s.cfg.stationaryMaxSpeedMps {
        return false;
      }
    }
    return true;
  }

  // Sort, then process each point against the window with one point of lookahead, marking
  // earlier points in place whenever a window turns out stationary.
  class Batch {
    const s: Setup
    var window: seq<ProcessedPoint>
    var processed: seq<ProcessedPoint>
    var accepted: seq<ProcessedPoint>

    ghost function Snapshot(): Progress
      reads this
    {
      Progress(window, processed, accepted)
    }

    constructor (s: Setup, history: seq<ProcessedPoint>)
      ensures this.s == s && Snapshot() == Progress(AcceptedOnly(history), [], [])
    {
      this.s := s;
      processed, accepted := [], [];
      new;
      window := KeepAccepted(history);
    }

    method MarkStationaryWindow(since: Time)
      modifies `processed, `accepted
      ensures accepted == MarkFrom(old(accepted), since)
      ensures processed == MarkAcceptedFrom(old(processed), since)
    {
      for i := 0 to |accepted|
        modifies `accepted
        invariant |accepted| == old(|accepted|)
        invariant forall k :: 0 <= k < i ==> accepted[k] == MarkFrom(old(accepted), since)[k]
        invariant forall k :: i <= k < |accepted| ==> accepted[k] == old(accepted)[k]
      {
        if accepted[i].recordedAt < since {
          continue;
        }
        accepted := accepted[i := MarkedStationary(accepted[i], since)];
      }
      for i := 0 to |processed|
        modifies `processed
        invariant |processed| == old(|processed|)
        invariant forall k :: 0 <= k < i ==> processed[k] == MarkAcceptedFrom(old(processed), since)[k]
        invariant forall k :: i <= k < |processed| ==> processed[k] == old(processed)[k]
      {
        if processed[i].recordedAt < since || !processed[i].isAccepted {
          continue;
        }
        processed := processed[i := MarkedStationary(processed[i], since)];
      }
    }

    method Advance(raw: RawPoint, next: Option<RawPoint>, processedThrough: Option<Time>)
      modifies this
      ensures Snapshot() == Step(s, old(Snapshot()), raw, next, processedThrough)
    {
      var out := ProcessPoint(s, window, raw, next, processedThrough);
      processed := processed + [out];
      if out.isAccepted {
        window := TrimWindow(window + [out], raw.recordedAt, s.cfg.stationaryWindowSec);
        accepted := accepted + [out];
        if out.isStationary && window != [] {
          MarkStationaryWindow(window[0].recordedAt);
        }
      }
    }
  }

  method ProcessPoint(s: Setup, history: seq<ProcessedPoint>, raw: RawPoint, next: Option<RawPoint>,
                      processedThrough: Option<Time>) returns (out: ProcessedPoint)
    ensures out == ProcessOne(s, history, raw, next, processedThrough)
  {
    out := Fresh(raw);
    if processedThrough.Some? && raw.recordedAt <= processedThrough.value {
      out := out.(noiseReason := LateArrival);
      return;
    }
    var reason := Validate(s.cfg, raw);
    if reason != NoNoise {
      out := out.(noiseReason := reason);
      return;
    }
    var verdict := DetectOutlier(s, Last(history), raw, next);
    out := out.(impliedSpeedMps := verdict.impliedSpeed);
    if verdict.outlier {
      out := out.(isOutlier := true, noiseReason := Teleport);
      return;
    }
    var recent := TrimWindow(history, raw.recordedAt, s.cfg.segmentMaxGapSec);
    out := out.(filtered := Some(s.smooth(recent, raw)), isAccepted := true);
    if history != [] {
      var gap := raw.recordedAt - history[|history| - 1].recordedAt;
      if gap > Seconds(s.cfg.segmentMaxGapSec) {
        out := out.(noiseReason := SegmentBreak);
      } else {
        var found := FindLastAnchor(history);
        var anchor := if found >= 0 then history[found] else history[|history| - 1];
        var distance := s.dist(anchor.raw, raw.position);
        var radius := Clamp((anchor.accuracyM + raw.accuracyM) / 2.0, s.cfg.noiseMinRadiusM, s.cfg.noiseMaxRadiusM);
        if distance < radius {
          out := out.(noiseReason := Jitter);
        } else {
          out := out.(distanceDeltaM := distance);
        }
      }
    }
    var window := TrimWindow(history + [out], raw.recordedAt, s.cfg.stationaryWindowSec);
    var stationary := IsStationaryWindow(s, window);
    if stationary {
      out := MarkedStationary(out, window[0].recordedAt);
    }
  }

  method ProcessBatch(s: Setup, history: seq<ProcessedPoint>, raw: seq<RawPoint>, processedThrough: Option<Time>)
    returns (processed: seq<ProcessedPoint>, accepted: seq<ProcessedPoint>)
    ensures processed == Pipeline(s, history, raw, processedThrough).processed
    ensures accepted == Pipeline(s, history, raw, processedThrough).accepted
  {
    var points := Sort(RawBefore, raw);
    var batch := new Batch(s, history);
    for i := 0 to |points|
      invariant batch.s == s
      invariant batch.Snapshot() == Steps(s, history, points, processedThrough, i)
    {
      batch.Advance(points[i], NextOf(points, i), processedThrough);
    }
    return batch.processed, batch.accepted;
  }
}
