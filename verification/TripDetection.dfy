// The trip state machine (usecase/trip_detection.go).
//
// The functions give one batch run as a fold of Consume over the batch; the class
// BatchRun holds the variables of ProcessBatch that its closures and helpers update
// and is proved to follow them.
module TripDetection {
  import opened Domain

  datatype TripState = Idle | MotionCandidate | TripActive | StopCandidate

  // The state saved between batches. Latitude and longitude are always set together.
  datatype DetectionState = DetectionState(
    state: TripState,
    activeTripId: Option<TripId>,
    candidateStartedAt: Option<Time>,
    candidateStartPointId: Option<EventId>,
    candidateDistanceM: real,
    candidateStart: Option<GeoPoint>,
    candidateGoodPoints: int,
    stopStartedAt: Option<Time>,
    stopCenter: Option<GeoPoint>,
    lastPoint: Option<GeoPoint>,
    lastProcessedAt: Option<Time>,
    lastWatermarkAt: Option<Time>,
    lateArrivalWindowSec: int,
    updatedAt: Time)
  {
    // Which fields are set in which state; every dereference in the batch loop relies on it.
    ghost predicate WellFormed() {
      && (activeTripId.Some? <==> state == TripActive || state == StopCandidate)
      && (candidateStartedAt.Some? <==> state == MotionCandidate)
      && (candidateStart.Some? <==> state == MotionCandidate)
      && (candidateStartPointId.Some? <==> state == MotionCandidate)
      && (if state == MotionCandidate then candidateGoodPoints >= 1
          else candidateGoodPoints == 0 && candidateDistanceM == 0.0)
      && (stopStartedAt.Some? <==> state == StopCandidate)
      && (stopCenter.Some? <==> state == StopCandidate)
      && (lastPoint.Some? <==> lastProcessedAt.Some?)
      && (state != Idle ==> lastProcessedAt.Some?)
    }
  }

  // What LoadState returns for a pair without a saved state.
  const INITIAL_STATE := DetectionState(
    Idle, None, None, None, 0.0, None, 0, None, None, None, None, None, 45, 0)

  datatype TripPoint = TripPoint(tripId: TripId, eventId: EventId, recordedAt: Time)

  datatype Trip = Trip(
    id: TripId,
    startedAt: Time,
    start: GeoPoint,
    distanceM: real,
    durationSec: int,
    pointsCount: int,
    createdAt: Time)

  datatype LastFix = LastFix(at: Time, position: GeoPoint)

  datatype Command =
    | CreateTrip(trip: Trip, backfillSince: Time, createPoints: seq<TripPoint>)
    | UpdateTrip(updatedId: TripId, deltaDistanceM: real, deltaPointsCount: int,
                 last: Option<LastFix>, updatePoints: seq<TripPoint>)
    | CompleteTrip(completedId: TripId, endedAt: Time, end: GeoPoint)
  {
    function TripOf(): TripId {
      match this
      case CreateTrip(trip, _, _) => trip.id
      case UpdateTrip(id, _, _, _, _) => id
      case CompleteTrip(id, _, _) => id
    }

    function Points(): seq<TripPoint> {
      match this
      case CreateTrip(_, _, points) => points
      case UpdateTrip(_, _, _, _, points) => points
      case CompleteTrip(_, _, _) => []
    }
  }

  // A point that counts as movement under these thresholds.
  predicate Moves(cfg: DetectionConfig, p: ProcessedPoint) {
    p.IsMovementEvidence(cfg.movementMinSpeedMps, cfg.movementMaxSpeedMps, cfg.activityConfidence)
  }

  // Everything fixed during one batch: thresholds, the distance formula, the clock reading.
  datatype Env = Env(cfg: DetectionConfig, dist: Distance, now: Time)
  {
    predicate Moving(p: ProcessedPoint) {
      Moves(cfg, p)
    }

    predicate GapExceeded(st: DetectionState, p: ProcessedPoint) {
      st.lastProcessedAt.Some? &&
      p.recordedAt - st.lastProcessedAt.value > Seconds(cfg.stopMinDurationSec)
    }

    // The window analyzer of the use case: its accuracy bound is fixed at 30 metres.
    function GoodPoints(window: seq<ProcessedPoint>): nat {
      |Filter((p: ProcessedPoint) => p.accuracyM <= 30.0 && Moving(p), window)|
    }

    predicate Analyze(window: seq<ProcessedPoint>) {
      GoodPoints(window) >= cfg.motionMinGoodPoints
    }
  }

  // One batch in progress: the new state, the commands so far and the batch-local buffers.
  datatype Run = Run(
    st: DetectionState,
    commands: seq<Command>,
    candidateWindow: seq<ProcessedPoint>,
    candidatePoints: seq<TripPoint>,
    activePoints: seq<TripPoint>,
    activeDistance: real,
    lastActive: Option<ProcessedPoint>,
    nextId: TripId)

  function FreshRun(st: DetectionState, nextId: TripId): Run {
    Run(st, [], [], [], [], 0.0, None, nextId)
  }

  function LastFixOf(p: ProcessedPoint): LastFix
    requires p.filtered.Some?
  {
    LastFix(p.recordedAt, p.filtered.value)
  }

  function Unassigned(p: ProcessedPoint): TripPoint {
    TripPoint(0, p.eventId, p.recordedAt)
  }

  function Assign(points: seq<TripPoint>, id: TripId): seq<TripPoint> {
    seq(|points|, i requires 0 <= i < |points| => points[i].(tripId := id))
  }

  function Started(st: DetectionState, p: ProcessedPoint): DetectionState
    requires p.filtered.Some?
  {
    st.(state := MotionCandidate,
        candidateStartedAt := Some(p.recordedAt),
        candidateStartPointId := Some(p.eventId),
        candidateStart := p.filtered,
        candidateDistanceM := 0.0,
        candidateGoodPoints := 1)
  }

  function Reset(st: DetectionState): DetectionState {
    st.(state := if st.state == MotionCandidate then Idle else st.state,
        candidateStartedAt := None,
        candidateStartPointId := None,
        candidateStart := None,
        candidateDistanceM := 0.0,
        candidateGoodPoints := 0)
  }

  // State after a trip has ended.
  function Ended(st: DetectionState): DetectionState {
    st.(state := Idle, activeTripId := None, stopStartedAt := None, stopCenter := None)
  }

  // A point kept by the open candidate counts when it is movement.
  function Counted(env: Env, st: DetectionState, p: ProcessedPoint): DetectionState {
    if env.Moving(p)
    then st.(candidateDistanceM := st.candidateDistanceM + p.distanceDeltaM,
             candidateGoodPoints := st.candidateGoodPoints + 1)
    else st
  }

  function NewTrip(env: Env, st: DetectionState, p: ProcessedPoint, id: TripId): Trip
    requires st.candidateStartedAt.Some? && st.candidateStart.Some?
  {
    var duration := p.recordedAt - st.candidateStartedAt.value;
    Trip(id, st.candidateStartedAt.value, st.candidateStart.value, st.candidateDistanceM,
         TruncatedSeconds(duration), st.candidateGoodPoints, env.now)
  }

  // int64(d.Seconds()) drops the fraction, towards zero.
  function TruncatedSeconds(d: int): int {
    if d >= 0 then d / SECOND else -((-d) / SECOND)
  }

  function PendingUpdate(run: Run): Command
    requires run.st.activeTripId.Some?
    requires run.lastActive.Some? ==> run.lastActive.value.filtered.Some?
  {
    UpdateTrip(run.st.activeTripId.value, run.activeDistance, |run.activePoints|,
               if run.lastActive.Some? then Some(LastFixOf(run.lastActive.value)) else None,
               run.activePoints)
  }

  // Buffered active points exist only while a trip is active.
  ghost predicate BuffersFit(run: Run) {
    && (run.activePoints != [] ==> run.st.activeTripId.Some?)
    && (run.lastActive.Some? ==> run.lastActive.value.filtered.Some?)
  }

  function Flush(run: Run): Run
    requires BuffersFit(run)
  {
    if run.activePoints == [] then run
    else run.(commands := run.commands + [PendingUpdate(run)],
              activePoints := [], activeDistance := 0.0, lastActive := None)
  }

  function OpenCandidate(run: Run, p: ProcessedPoint): Run
    requires p.filtered.Some?
  {
    run.(st := Started(run.st, p),
         candidateWindow := run.candidateWindow + [p],
         candidatePoints := run.candidatePoints + [Unassigned(p)])
  }

  function DropCandidate(run: Run): Run {
    run.(st := Reset(run.st), candidateWindow := [], candidatePoints := [])
  }

  function BufferActive(run: Run, p: ProcessedPoint): Run
    requires run.st.activeTripId.Some?
  {
    run.(activePoints := run.activePoints + [Unassigned(p).(tripId := run.st.activeTripId.value)],
         activeDistance := run.activeDistance + p.distanceDeltaM,
         lastActive := Some(p))
  }

  function FromIdle(env: Env, run: Run, p: ProcessedPoint): Run
    requires p.filtered.Some?
  {
    if env.Moving(p) then OpenCandidate(run, p) else run
  }

  predicate Confirms(env: Env, run: Run, p: ProcessedPoint)
    requires run.st.candidateStartedAt.Some?
  {
    && p.recordedAt - run.st.candidateStartedAt.value >= Seconds(env.cfg.motionMinDurationSec)
    && run.st.candidateDistanceM >= env.cfg.motionMinDistanceM
    && (env.Analyze(run.candidateWindow) ||
        run.st.candidateGoodPoints >= env.cfg.motionMinGoodPoints)
  }

  function Keep(env: Env, run: Run, p: ProcessedPoint): Run {
    run.(st := Counted(env, run.st, p),
         candidateWindow := run.candidateWindow + [p],
         candidatePoints := run.candidatePoints + [Unassigned(p)])
  }

  function Confirm(env: Env, run: Run, p: ProcessedPoint): Run
    requires run.st.candidateStartedAt.Some? && run.st.candidateStart.Some?
  {
    var id := run.nextId;
    var create := CreateTrip(NewTrip(env, run.st, p, id), run.st.candidateStartedAt.value,
                             Assign(run.candidatePoints, id));
    DropCandidate(run.(st := run.st.(state := TripActive, activeTripId := Some(id)),
                       commands := run.commands + [create],
                       nextId := id + 1))
  }

  function FromCandidate(env: Env, run: Run, p: ProcessedPoint): Run
    requires p.filtered.Some?
    requires run.st.candidateStartedAt.Some? && run.st.candidateStart.Some?
  {
    if p.isStationary || env.GapExceeded(run.st, p) then
      FromIdle(env, DropCandidate(run), p)
    else
      var kept := Keep(env, run, p);
      if Confirms(env, kept, p) then Confirm(env, kept, p) else kept
  }

  function FromActive(env: Env, run: Run, p: ProcessedPoint): Run
    requires p.filtered.Some? && run.st.activeTripId.Some?
    requires BuffersFit(run)
  {
    if env.GapExceeded(run.st, p) then
      var flushed := Flush(run);
      var complete := CompleteTrip(flushed.st.activeTripId.value, flushed.st.lastProcessedAt.value,
                                   if flushed.st.lastPoint.Some? then flushed.st.lastPoint.value
                                   else p.filtered.value);
      FromIdle(env, flushed.(st := Ended(flushed.st), commands := flushed.commands + [complete]), p)
    else if p.isStationary then
      var flushed := Flush(run);
      flushed.(st := flushed.st.(
        state := StopCandidate,
        stopStartedAt := if p.stationarySince.Some? then p.stationarySince else Some(p.recordedAt),
        stopCenter := p.filtered))
    else
      BufferActive(run, p)
  }

  function FromStop(env: Env, run: Run, p: ProcessedPoint): Run
    requires p.filtered.Some? && run.st.activeTripId.Some?
    requires run.st.stopStartedAt.Some? && run.st.stopCenter.Some?
  {
    if !p.isStationary && env.dist(run.st.stopCenter.value, p.filtered.value) > env.cfg.stopRadiusM then
      BufferActive(run.(st := run.st.(state := TripActive, stopStartedAt := None, stopCenter := None)), p)
    else if p.recordedAt - run.st.stopStartedAt.value >= Seconds(env.cfg.stopMinDurationSec) then
      var complete := CompleteTrip(run.st.activeTripId.value, run.st.stopStartedAt.value,
                                   run.st.stopCenter.value);
      run.(st := Ended(run.st), commands := run.commands + [complete])
    else run
  }

  function Touch(st: DetectionState, p: ProcessedPoint): DetectionState {
    st.(lastProcessedAt := Some(p.recordedAt), lastPoint := p.filtered)
  }

  // The buffers agree with the state: active points only while the trip is active, and
  // the candidate count covers every movement point still in the local window.
  ghost predicate Valid(env: Env, run: Run) {
    && run.st.WellFormed()
    && (run.activePoints != [] ==> run.st.state == TripActive)
    && (run.activePoints == [] <==> run.lastActive.None?)
    && (run.activePoints == [] ==> run.activeDistance == 0.0)
    && (run.lastActive.Some? ==> run.lastActive.value.filtered.Some?)
    && (run.st.state == MotionCandidate ==>
          env.GoodPoints(run.candidateWindow) <= run.st.candidateGoodPoints)
    && (run.st.state != MotionCandidate ==> run.candidateWindow == [] && run.candidatePoints == [])
  }

  function Dispatch(env: Env, run: Run, p: ProcessedPoint): Run
    requires Valid(env, run) && p.filtered.Some?
  {
    match run.st.state
    case Idle => FromIdle(env, run, p)
    case MotionCandidate => FromCandidate(env, run, p)
    case TripActive => FromActive(env, run, p)
    case StopCandidate => FromStop(env, run, p)
  }

  lemma GoodPointsOfOneMore(env: Env, window: seq<ProcessedPoint>, p: ProcessedPoint)
    ensures env.GoodPoints(window) <= env.GoodPoints(window + [p])
    ensures env.GoodPoints(window + [p]) <= env.GoodPoints(window) + if env.Moving(p) then 1 else 0
  {
    assert (window + [p])[..|window|] == window;
  }

  lemma CandidateStaysValid(env: Env, run: Run, p: ProcessedPoint)
    requires Valid(env, run) && p.filtered.Some? && run.st.state == MotionCandidate
    ensures Valid(env, AfterPoint(env, run, p))
  {
    hide Filter;
    GoodPointsOfOneMore(env, run.candidateWindow, p);
    GoodPointsOfOneMore(env, [], p);
    assert [] + [p] == [p];
    if p.isStationary || env.GapExceeded(run.st, p) {
      assert Valid(env, AfterPoint(env, run, p));
    }
  }

  lemma ClosedStaysValid(env: Env, run: Run, p: ProcessedPoint)
    requires Valid(env, run) && p.filtered.Some? && run.st.state == Idle
    ensures Valid(env, AfterPoint(env, run, p))
  {
    GoodPointsOfOneMore(env, [], p);
    assert [] + [p] == [p];
  }

  lemma OpenStaysValid(env: Env, run: Run, p: ProcessedPoint)
    requires Valid(env, run) && p.filtered.Some? && run.st.activeTripId.Some?
    ensures Valid(env, AfterPoint(env, run, p))
  {
    hide Filter;
    GoodPointsOfOneMore(env, [], p);
    assert [] + [p] == [p];
    if run.st.state == TripActive {
      assert Valid(env, AfterPoint(env, run, p));
    }
  }

  function AfterPoint(env: Env, run: Run, p: ProcessedPoint): Run
    requires Valid(env, run) && p.filtered.Some?
  {
    var next := Dispatch(env, run, p);
    next.(st := Touch(next.st, p))
  }

  // The loop body: points that were not accepted or carry no position change nothing.
  function Consume(env: Env, run: Run, p: ProcessedPoint): Run
    requires Valid(env, run)
  {
    if p.IsUsable() then AfterPoint(env, run, p) else run
  }

  // No step ever leaves the well-formed states, so no dereference in the loop can fail.
  lemma {:induction false} ConsumeStaysValid(env: Env, run: Run, p: ProcessedPoint)
    requires Valid(env, run)
    ensures Valid(env, Consume(env, run, p))
  {
    if p.IsUsable() {
      hide AfterPoint;
      match run.st.state
      case Idle => ClosedStaysValid(env, run, p);
      case MotionCandidate => CandidateStaysValid(env, run, p);
      case _ => OpenStaysValid(env, run, p);
    }
  }

  function ConsumeAll(env: Env, run: Run, points: seq<ProcessedPoint>): (r: Run)
    requires Valid(env, run)
    ensures Valid(env, r)
  {
    if points == [] then run
    else
      var before := ConsumeAll(env, run, points[..|points| - 1]);
      ConsumeStaysValid(env, before, points[|points| - 1]);
      Consume(env, before, points[|points| - 1])
  }

  lemma ConsumeAllLast(env: Env, run: Run, points: seq<ProcessedPoint>, p: ProcessedPoint)
    requires Valid(env, run)
    ensures ConsumeAll(env, run, points + [p]) == Consume(env, ConsumeAll(env, run, points), p)
  {
    assert (points + [p])[..|points + [p]| - 1] == points;
  }

  datatype BatchOutcome = BatchOutcome(newState: DetectionState, commands: seq<Command>, nextId: TripId)

  function Stamp(env: Env, st: DetectionState): DetectionState {
    st.(lastWatermarkAt := Some(env.now - Seconds(st.lateArrivalWindowSec)), updatedAt := env.now)
  }

  // The end of ProcessBatch: flush while active, then stamp watermark and clock.
  function Finish(env: Env, run: Run): BatchOutcome
    requires Valid(env, run)
  {
    var done := if run.st.state == TripActive then Flush(run) else run;
    BatchOutcome(Stamp(env, done.st), done.commands, done.nextId)
  }

  function Outcome(env: Env, st: DetectionState, nextId: TripId, points: seq<ProcessedPoint>): BatchOutcome
    requires st.WellFormed()
  {
    Finish(env, ConsumeAll(env, FreshRun(st, nextId), points))
  }

  // WindowMovementAnalyzer.Analyze as the loop it is.
  method AnalyzeWindow(env: Env, window: seq<ProcessedPoint>) returns (enough: bool)
    ensures enough == env.Analyze(window)
  {
    var good := 0;
    for i := 0 to |window|
      invariant good == env.GoodPoints(window[..i])
    {
      assert window[..i + 1][..i] == window[..i];
      if window[i].accuracyM <= 30.0 && env.Moving(window[i]) {
        good := good + 1;
      }
    }
    assert window[..|window|] == window;
    enough := good >= env.cfg.motionMinGoodPoints;
  }

  // The variables of one ProcessBatch call.
  class BatchRun {
    const env: Env
    var st: DetectionState
    var commands: seq<Command>
    var candidateWindow: seq<ProcessedPoint>
    var candidatePoints: seq<TripPoint>
    var activePoints: seq<TripPoint>
    var activeDistance: real
    var lastActive: Option<ProcessedPoint>
    var nextId: TripId

    ghost function Snapshot(): Run
      reads this
    {
      Run(st, commands, candidateWindow, candidatePoints, activePoints, activeDistance, lastActive, nextId)
    }

    constructor (env: Env, st: DetectionState, nextId: TripId)
      ensures this.env == env && Snapshot() == FreshRun(st, nextId)
    {
      this.env := env;
      this.st := st;
      this.nextId := nextId;
      commands, candidateWindow, candidatePoints, activePoints := [], [], [], [];
      activeDistance, lastActive := 0.0, None;
    }

    method FlushActive()
      requires BuffersFit(Snapshot())
      modifies this
      ensures Snapshot() == Flush(old(Snapshot()))
    {
      if activePoints == [] {
        return;
      }
      var last: Option<LastFix> := None;
      if lastActive.Some? {
        last := Some(LastFix(lastActive.value.recordedAt, lastActive.value.filtered.value));
      }
      commands := commands +
        [UpdateTrip(st.activeTripId.value, activeDistance, |activePoints|, last, activePoints)];
      activePoints, activeDistance, lastActive := [], 0.0, None;
    }

    method StartCandidate(p: ProcessedPoint)
      requires p.filtered.Some?
      modifies this
      ensures Snapshot() == OpenCandidate(old(Snapshot()), p)
    {
      st := st.(state := MotionCandidate,
                candidateStartedAt := Some(p.recordedAt), candidateStartPointId := Some(p.eventId),
                candidateStart := p.filtered, candidateDistanceM := 0.0, candidateGoodPoints := 1);
      candidateWindow := candidateWindow + [p];
      candidatePoints := candidatePoints + [TripPoint(0, p.eventId, p.recordedAt)];
    }

    method ResetCandidate()
      modifies this
      ensures Snapshot() == DropCandidate(old(Snapshot()))
    {
      st := st.(candidateStartedAt := None, candidateStartPointId := None,
                candidateStart := None, candidateDistanceM := 0.0, candidateGoodPoints := 0);
      if st.state == MotionCandidate {
        st := st.(state := Idle);
      }
      candidateWindow, candidatePoints := [], [];
    }

    method AssignCandidatePoints(id: TripId)
      modifies `candidatePoints
      ensures candidatePoints == Assign(old(candidatePoints), id)
    {
      for i := 0 to |candidatePoints|
        invariant |candidatePoints| == old(|candidatePoints|)
        invariant forall k :: 0 <= k < i ==> candidatePoints[k] == old(candidatePoints)[k].(tripId := id)
        invariant forall k :: i <= k < |candidatePoints| ==> candidatePoints[k] == old(candidatePoints)[k]
      {
        candidatePoints := candidatePoints[i := candidatePoints[i].(tripId := id)];
      }
    }

    method OpenTrip(p: ProcessedPoint)
      requires st.candidateStartedAt.Some? && st.candidateStart.Some?
      modifies this
      ensures Snapshot() == Confirm(env, old(Snapshot()), p)
    {
      var id := nextId;
      nextId := nextId + 1;
      var startedAt := st.candidateStartedAt.value;
      var trip := Trip(id, startedAt, st.candidateStart.value, st.candidateDistanceM,
                       TruncatedSeconds(p.recordedAt - startedAt), st.candidateGoodPoints, env.now);
      AssignCandidatePoints(id);
      commands := commands + [CreateTrip(trip, startedAt, candidatePoints)];
      st := st.(state := TripActive, activeTripId := Some(id));
      ResetCandidate();
    }

    method HandleCandidate(p: ProcessedPoint)
      requires st.candidateStartedAt.Some? && st.candidateStart.Some? && p.filtered.Some?
      modifies this
      ensures Snapshot() == FromCandidate(env, old(Snapshot()), p)
    {
      hide Confirm, Reset, Started;
      var moving := env.Moving(p);
      if p.isStationary || env.GapExceeded(st, p) {
        ResetCandidate();
        if moving {
          StartCandidate(p);
        }
        return;
      }
      candidateWindow := candidateWindow + [p];
      candidatePoints := candidatePoints + [TripPoint(0, p.eventId, p.recordedAt)];
      if moving {
        st := st.(candidateDistanceM := st.candidateDistanceM + p.distanceDeltaM,
                  candidateGoodPoints := st.candidateGoodPoints + 1);
      }
      assert Snapshot() == Keep(env, old(Snapshot()), p);
      var duration := p.recordedAt - st.candidateStartedAt.value;
      var enough := AnalyzeWindow(env, candidateWindow);
      enough := enough || st.candidateGoodPoints >= env.cfg.motionMinGoodPoints;
      if duration >= Seconds(env.cfg.motionMinDurationSec) &&
         st.candidateDistanceM >= env.cfg.motionMinDistanceM && enough {
        OpenTrip(p);
      }
    }

    method HandleActive(p: ProcessedPoint)
      requires st.activeTripId.Some? && p.filtered.Some? && BuffersFit(Snapshot())
      modifies this
      ensures Snapshot() == FromActive(env, old(Snapshot()), p)
    {
      if env.GapExceeded(st, p) {
        FlushActive();
        var end := if st.lastPoint.Some? then st.lastPoint.value else p.filtered.value;
        commands := commands + [CompleteTrip(st.activeTripId.value, st.lastProcessedAt.value, end)];
        st := st.(state := Idle, activeTripId := None, stopStartedAt := None, stopCenter := None);
        if env.Moving(p) {
          StartCandidate(p);
        }
      } else if p.isStationary {
        FlushActive();
        var at := p.recordedAt;
        if p.stationarySince.Some? {
          at := p.stationarySince.value;
        }
        st := st.(state := StopCandidate, stopStartedAt := Some(at), stopCenter := p.filtered);
      } else {
        AppendActive(p);
      }
    }

    method AppendActive(p: ProcessedPoint)
      requires st.activeTripId.Some?
      modifies `activePoints, `activeDistance, `lastActive
      ensures Snapshot() == BufferActive(old(Snapshot()), p)
    {
      activePoints := activePoints + [TripPoint(st.activeTripId.value, p.eventId, p.recordedAt)];
      activeDistance := activeDistance + p.distanceDeltaM;
      lastActive := Some(p);
    }

    method HandleStop(p: ProcessedPoint)
      requires st.activeTripId.Some? && st.stopStartedAt.Some? && st.stopCenter.Some?
      requires p.filtered.Some?
      modifies this
      ensures Snapshot() == FromStop(env, old(Snapshot()), p)
    {
      var fromCenter := env.dist(st.stopCenter.value, p.filtered.value);
      if !p.isStationary && fromCenter > env.cfg.stopRadiusM {
        st := st.(state := TripActive, stopStartedAt := None, stopCenter := None);
        AppendActive(p);
      } else if p.recordedAt - st.stopStartedAt.value >= Seconds(env.cfg.stopMinDurationSec) {
        commands := commands +
          [CompleteTrip(st.activeTripId.value, st.stopStartedAt.value, st.stopCenter.value)];
        st := st.(state := Idle, activeTripId := None, stopStartedAt := None, stopCenter := None);
      }
    }

    // The loop body of ProcessBatch.
    method ConsumePoint(p: ProcessedPoint)
      requires Valid(env, Snapshot())
      modifies this
      ensures Snapshot() == Consume(env, old(Snapshot()), p)
    {
      if !p.isAccepted || p.filtered.None? {
        return;
      }
      match st.state {
        case Idle =>
          if env.Moving(p) {
            StartCandidate(p);
          }
        case MotionCandidate => HandleCandidate(p);
        case TripActive => HandleActive(p);
        case StopCandidate => HandleStop(p);
      }
      st := st.(lastProcessedAt := Some(p.recordedAt), lastPoint := p.filtered);
    }
  }

  method ProcessBatch(env: Env, state: DetectionState, points: seq<ProcessedPoint>, nextId: TripId)
    returns (result: BatchOutcome)
    requires state.WellFormed()
    ensures result == Outcome(env, state, nextId, points)
  {
    hide Consume;
    ghost var start := FreshRun(state, nextId);
    var run := new BatchRun(env, state, nextId);
    for i := 0 to |points|
      invariant Valid(env, run.Snapshot())
      invariant run.Snapshot() == ConsumeAll(env, start, points[..i])
    {
      ConsumeAllLast(env, start, points[..i], points[i]);
      assert points[..i + 1] == points[..i] + [points[i]];
      run.ConsumePoint(points[i]);
    }
    assert points[..|points|] == points;
    if run.st.state == TripActive {
      run.FlushActive();
    }
    var st := run.st.(lastWatermarkAt := Some(env.now - Seconds(run.st.lateArrivalWindowSec)),
                      updatedAt := env.now);
    result := BatchOutcome(st, run.commands, run.nextId);
  }
}
