// The values shared by the tracking worker's components: optional values, time,
// positions and location points, for one (user, device) pair.
module Domain {

  datatype Option<+T> = None | Some(value: T)

  // Instants and durations are whole nanoseconds, as in Go's time package.
  type Time = int

  const SECOND: int := 1_000_000_000

  // time.Duration(n) * time.Second
  function Seconds(n: int): int {
    n * SECOND
  }

  // Duration.Seconds()
  function InSeconds(duration: int): real {
    duration as real / SECOND as real
  }

  datatype GeoPoint = GeoPoint(lat: real, lon: real)

  // The great-circle formula is a parameter; where its geometry matters it is a metric.
  type Distance = (GeoPoint, GeoPoint) -> real

  ghost predicate IsMetric(dist: Distance) {
    && (forall p, q :: 0.0 <= dist(p, q))
    && (forall p :: dist(p, p) == 0.0)
    && (forall p, q :: dist(p, q) == dist(q, p))
    && (forall p, q, r :: dist(p, r) <= dist(p, q) + dist(q, r))
  }

  type EventId = string

  // Trip identifiers come from a counter that never repeats; 0 is the nil identifier.
  type TripId = nat

  datatype NoiseReason =
    | NoNoise
    | PoorAccuracy
    | GarbageAccuracy
    | InvalidPoint
    | Teleport
    | Jitter
    | Stationary
    | LateArrival
    | SegmentBreak

  datatype RawPoint = RawPoint(
    eventId: EventId,
    recordedAt: Time,
    position: GeoPoint,
    accuracyM: real,
    speedMps: Option<real>,
    activityType: string,
    activityConfidence: Option<real>)

  datatype ProcessedPoint = ProcessedPoint(
    eventId: EventId,
    recordedAt: Time,
    raw: GeoPoint,
    filtered: Option<GeoPoint>,
    accuracyM: real,
    speedMps: Option<real>,
    impliedSpeedMps: real,
    distanceDeltaM: real,
    activityType: string,
    activityConfidence: Option<real>,
    isAccepted: bool,
    isOutlier: bool,
    isStationary: bool,
    noiseReason: NoiseReason,
    stationarySince: Option<Time>)
  {
    // The reported speed, or the implied one when none was reported.
    function Speed(): real {
      if speedMps.Some? then speedMps.value else impliedSpeedMps
    }

    predicate OnFoot() {
      activityType == "walking" || activityType == "running"
    }

    predicate IsMovementEvidence(minSpeed: real, maxSpeed: real, minConfidence: real) {
      if !isAccepted || isStationary || distanceDeltaM <= 0.0 then false
      else
        var speedMatches := minSpeed <= Speed() <= maxSpeed;
        var activityMatches :=
          OnFoot() && (activityConfidence.Some? ==> activityConfidence.value >= minConfidence);
        activityMatches || speedMatches
    }

    predicate IsUsable() {
      isAccepted && filtered.Some?
    }
  }

  datatype NoiseConfig = NoiseConfig(
    goodAccuracyM: real,
    usableAccuracyM: real,
    garbageAccuracyM: real,
    walkingMaxSpeedMps: real,
    runningMaxSpeedMps: real,
    bikeMaxSpeedMps: real,
    vehicleMaxSpeedMps: real,
    noiseMinRadiusM: real,
    noiseMaxRadiusM: real,
    smoothingPoints: int,
    stationaryWindowSec: int,
    stationaryMinDurationSec: int,
    stationaryRadiusM: real,
    stationaryMaxSpeedMps: real,
    stationaryMinPoints: int,
    movementMinSpeedMps: real,
    movementGoodPoints: int,
    activityConfidence: real,
    lateArrivalWindowSec: int,
    segmentMaxGapSec: int)

  // The defaults the worker starts from.
  const DEFAULT_NOISE_CONFIG := NoiseConfig(
    30.0, 50.0, 100.0, 3.5, 7.0, 15.0, 60.0, 8.0, 30.0, 5,
    60, 45, 35.0, 0.5, 4, 0.6, 3, 0.6, 45, 120)

  datatype DetectionConfig = DetectionConfig(
    motionMinDurationSec: int,
    motionMinDistanceM: real,
    motionMinGoodPoints: int,
    movementMinSpeedMps: real,
    movementMaxSpeedMps: real,
    activityConfidence: real,
    stopMinDurationSec: int,
    stopRadiusM: real,
    lateArrivalWindowSec: int)

  const DEFAULT_DETECTION_CONFIG := DetectionConfig(45, 60.0, 3, 0.6, 7.0, 0.6, 180, 40.0, 45)

  // Membership of a list built by filtering keeps the original order.
  function Filter<T(!new)>(keep: T -> bool, s: seq<T>): (r: seq<T>)
    ensures forall x :: x in r <==> x in s && keep(x)
    ensures |r| <= |s|
  {
    if s == [] then []
    else
      var front := Filter(keep, s[..|s| - 1]);
      var x := s[|s| - 1];
      assert s == s[..|s| - 1] + [x];
      if keep(x) then front + [x] else front
  }

  lemma {:induction false} FilterAppend<T(!new)>(keep: T -> bool, a: seq<T>, b: seq<T>)
    ensures Filter(keep, a + b) == Filter(keep, a) + Filter(keep, b)
  {
    if b == [] {
      assert a + b == a;
    } else {
      var rest := b[..|b| - 1];
      assert (a + b)[..|a + b| - 1] == a + rest;
      FilterAppend(keep, a, rest);
    }
  }

  lemma {:induction false} FilterAll<T(!new)>(keep: T -> bool, s: seq<T>)
    requires forall i :: 0 <= i < |s| ==> keep(s[i])
    ensures Filter(keep, s) == s
  {
    if s != [] {
      FilterAll(keep, s[..|s| - 1]);
    }
  }

  lemma {:induction false} FilterNone<T(!new)>(keep: T -> bool, s: seq<T>)
    requires forall i :: 0 <= i < |s| ==> !keep(s[i])
    ensures Filter(keep, s) == []
  {
    if s != [] {
      FilterNone(keep, s[..|s| - 1]);
    }
  }
}
