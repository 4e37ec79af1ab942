// The batch-local buffers of ProcessBatch are invisible.
module TripRefinement {
  // A reference machine that keeps no buffer, no window and no pending update, and writes each
  // point to the trips table as soon as it is seen, reaches the same state, trips and trip
  // boundaries. So where a stream of points is cut into batches does not matter.

  import opened Domain
  import opened TripDetection
  import opened TripRows

  // Where a trip begins or ends, without the points attached to it.
  datatype Boundary =
    | Opened(trip: Trip)
    | Closed(id: TripId, endedAt: Time, end: GeoPoint)

  datatype Tracker = Tracker(st: DetectionState, nextId: TripId, rows: TripTable, boundaries: seq<Boundary>)

  // Close the current trip and forget it.
  function CloseTrip(t: Tracker, endedAt: Time, end: GeoPoint): Tracker
    requires t.st.activeTripId.Some?
  {
    var id := t.st.activeTripId.value;
    t.(st := Ended(t.st), rows := Complete(t.rows, id, endedAt, end),
       boundaries := t.boundaries + [Closed(id, endedAt, end)])
  }

  function OpenTrip(env: Env, t: Tracker, p: ProcessedPoint): Tracker
    requires t.st.candidateStartedAt.Some? && t.st.candidateStart.Some?
  {
    var trip := NewTrip(env, t.st, p, t.nextId);
    Tracker(Reset(t.st.(state := TripActive, activeTripId := Some(t.nextId))), t.nextId + 1,
            InsertTrip(t.rows, trip), t.boundaries + [Opened(trip)])
  }

  // Credit one point to the active trip.
  function Extend(t: Tracker, p: ProcessedPoint): Tracker
    requires t.st.activeTripId.Some? && p.filtered.Some?
  {
    t.(rows := UpdateStats(t.rows, t.st.activeTripId.value, p.distanceDeltaM, 1, Some(LastFixOf(p))))
  }

  function MaybeStart(env: Env, t: Tracker, p: ProcessedPoint): Tracker
    requires p.filtered.Some?
  {
    if env.Moving(p) then t.(st := Started(t.st, p)) else t
  }

  function ObserveCandidate(env: Env, t: Tracker, p: ProcessedPoint): Tracker
    requires t.st.candidateStartedAt.Some? && t.st.candidateStart.Some? && p.filtered.Some?
  {
    if p.isStationary || env.GapExceeded(t.st, p) then
      MaybeStart(env, t.(st := Reset(t.st)), p)
    else
      var kept := t.(st := Counted(env, t.st, p));
      if && p.recordedAt - t.st.candidateStartedAt.value >= Seconds(env.cfg.motionMinDurationSec)
         && kept.st.candidateDistanceM >= env.cfg.motionMinDistanceM
         && kept.st.candidateGoodPoints >= env.cfg.motionMinGoodPoints
      then OpenTrip(env, kept, p)
      else kept
  }

  function ObserveActive(env: Env, t: Tracker, p: ProcessedPoint): Tracker
    requires t.st.activeTripId.Some? && t.st.lastPoint.Some? && p.filtered.Some?
  {
    if env.GapExceeded(t.st, p) then
      MaybeStart(env, CloseTrip(t, t.st.lastProcessedAt.value, t.st.lastPoint.value), p)
    else if p.isStationary then
      var since := if p.stationarySince.Some? then p.stationarySince.value else p.recordedAt;
      t.(st := t.st.(state := StopCandidate, stopStartedAt := Some(since), stopCenter := p.filtered))
    else Extend(t, p)
  }

  function ObserveStop(env: Env, t: Tracker, p: ProcessedPoint): Tracker
    requires t.st.activeTripId.Some? && t.st.stopStartedAt.Some? && t.st.stopCenter.Some?
    requires p.filtered.Some?
  {
    if !p.isStationary && env.dist(t.st.stopCenter.value, p.filtered.value) > env.cfg.stopRadiusM then
      Extend(t.(st := t.st.(state := TripActive, stopStartedAt := None, stopCenter := None)), p)
    else if p.recordedAt - t.st.stopStartedAt.value >= Seconds(env.cfg.stopMinDurationSec) then
      CloseTrip(t, t.st.stopStartedAt.value, t.st.stopCenter.value)
    else t
  }

  function ObserveUsable(env: Env, t: Tracker, p: ProcessedPoint): Tracker
    requires t.st.WellFormed() && p.filtered.Some?
  {
    var next :=
      match t.st.state
      case Idle => MaybeStart(env, t, p)
      case MotionCandidate => ObserveCandidate(env, t, p)
      case TripActive => ObserveActive(env, t, p)
      case StopCandidate => ObserveStop(env, t, p);
    next.(st := Touch(next.st, p))
  }

  lemma ObserveCandidateStaysWellFormed(env: Env, t: Tracker, p: ProcessedPoint)
    requires t.st.WellFormed() && p.filtered.Some? && t.st.state == MotionCandidate
    ensures ObserveUsable(env, t, p).st.WellFormed()
  {
    hide InsertTrip;
  }

  lemma ObserveStaysWellFormed(env: Env, t: Tracker, p: ProcessedPoint)
    requires t.st.WellFormed() && p.filtered.Some?
    ensures ObserveUsable(env, t, p).st.WellFormed()
  {
    hide Complete, UpdateStats;
    match t.st.state
    case Idle =>
    case MotionCandidate => ObserveCandidateStaysWellFormed(env, t, p);
    case TripActive =>
    case StopCandidate =>
  }

  function Observe(env: Env, t: Tracker, p: ProcessedPoint): (r: Tracker)
    requires t.st.WellFormed()
    ensures r.st.WellFormed()
  {
    if p.IsUsable() then
      ObserveStaysWellFormed(env, t, p);
      ObserveUsable(env, t, p)
    else t
  }

  function ObserveAll(env: Env, t: Tracker, points: seq<ProcessedPoint>): (r: Tracker)
    requires t.st.WellFormed()
    ensures r.st.WellFormed()
  {
    if points == [] then t
    else Observe(env, ObserveAll(env, t, points[..|points| - 1]), points[|points| - 1])
  }

  lemma {:induction false} ObserveAllAppend(env: Env, t: Tracker, a: seq<ProcessedPoint>, b: seq<ProcessedPoint>)
    requires t.st.WellFormed()
    ensures ObserveAll(env, t, a + b) == ObserveAll(env, ObserveAll(env, t, a), b)
  {
    hide Observe;
    if b == [] {
      assert a + b == a;
    } else {
      var rest := b[..|b| - 1];
      assert (a + b)[..|a + b| - 1] == a + rest;
      ObserveAllAppend(env, t, a, rest);
    }
  }

  // The trip boundaries in a list of commands.
  function Boundaries(commands: seq<Command>): seq<Boundary> {
    if commands == [] then []
    else Boundaries(commands[..|commands| - 1]) + BoundaryOf(commands[|commands| - 1])
  }

  function BoundaryOf(c: Command): seq<Boundary> {
    match c
    case CreateTrip(trip, _, _) => [Opened(trip)]
    case UpdateTrip(_, _, _, _, _) => []
    case CompleteTrip(id, endedAt, end) => [Closed(id, endedAt, end)]
  }

  lemma BoundariesOneMore(commands: seq<Command>, c: Command)
    ensures Boundaries(commands + [c]) == Boundaries(commands) + BoundaryOf(c)
  {
    assert (commands + [c])[..|commands + [c]| - 1] == commands;
  }

  // What the world looks like once the commands of a run in progress, and the update it
  // still holds back, have been applied to t0.
  ghost function View(env: Env, t0: Tracker, run: Run): Tracker
    requires Valid(env, run)
  {
    Tracker(run.st, run.nextId,
            ApplyCommands(t0.rows, Flush(run).commands),
            t0.boundaries + Boundaries(Flush(run).commands))
  }

  // The window analyzer never decides: it accepts only when the persisted count already
  // suffices, so losing the window between batches loses nothing.
  lemma {:induction false} WindowNeverDecides(env: Env, run: Run, p: ProcessedPoint)
    requires Valid(env, run) && run.st.state == MotionCandidate
    ensures env.Analyze(run.candidateWindow + [p]) ==>
              Counted(env, run.st, p).candidateGoodPoints >= env.cfg.motionMinGoodPoints
  {
    GoodPointsOfOneMore(env, run.candidateWindow, p);
  }

  // Adding a point to the buffered update is the same as writing the buffer and then the point.
  lemma BufferedUpdateAbsorbs(rows: TripTable, id: TripId, d1: real, n1: int, last1: Option<LastFix>, d2: real,
                              n2: int, last2: LastFix)
    ensures UpdateStats(UpdateStats(rows, id, d1, n1, last1), id, d2, n2, Some(last2))
            == UpdateStats(rows, id, d1 + d2, n1 + n2, Some(last2))
  {
    if id in rows {
      var once := rows[id := UpdatedRow(rows[id], d1, n1, last1)];
      assert once[id := UpdatedRow(once[id], d2, n2, Some(last2))]
          == rows[id := UpdatedRow(rows[id], d1 + d2, n1 + n2, Some(last2))];
    }
  }

  lemma BufferingIsExtending(env: Env, t0: Tracker, run: Run, p: ProcessedPoint)
    requires Valid(env, run) && run.st.state == TripActive && p.filtered.Some?
    requires Valid(env, BufferActive(run, p))
    ensures View(env, t0, BufferActive(run, p)) == Extend(View(env, t0, run), p)
  {
    var after := BufferActive(run, p);
    var pending := PendingUpdate(after);
    ApplyOneMore(t0.rows, run.commands, pending);
    BoundariesOneMore(run.commands, pending);
    if run.activePoints != [] {
      ApplyOneMore(t0.rows, run.commands, PendingUpdate(run));
      BoundariesOneMore(run.commands, PendingUpdate(run));
      BufferedUpdateAbsorbs(ApplyCommands(t0.rows, run.commands), run.st.activeTripId.value,
                            run.activeDistance, |run.activePoints|, PendingUpdate(run).last,
                            p.distanceDeltaM, 1, LastFixOf(p));
    }
  }

  lemma RefinesIdle(env: Env, t0: Tracker, run: Run, p: ProcessedPoint)
    requires Valid(env, run) && run.st.state == Idle && p.filtered.Some?
    requires Valid(env, AfterPoint(env, run, p))
    ensures View(env, t0, AfterPoint(env, run, p)) == ObserveUsable(env, View(env, t0, run), p)
  {
  }

  lemma RefinesAbandoned(env: Env, t0: Tracker, run: Run, p: ProcessedPoint)
    requires Valid(env, run) && run.st.state == MotionCandidate && p.filtered.Some?
    requires p.isStationary || env.GapExceeded(run.st, p)
    requires Valid(env, AfterPoint(env, run, p))
    ensures View(env, t0, AfterPoint(env, run, p)) == ObserveUsable(env, View(env, t0, run), p)
  {
    hide ApplyCommands, Boundaries, Filter;
  }

  lemma ConfirmIsOpening(env: Env, t0: Tracker, kept: Run, p: ProcessedPoint)
    requires kept.activePoints == []
    requires kept.st.candidateStartedAt.Some? && kept.st.candidateStart.Some?
    ensures Tracker(Confirm(env, kept, p).st, Confirm(env, kept, p).nextId,
                    ApplyCommands(t0.rows, Confirm(env, kept, p).commands),
                    t0.boundaries + Boundaries(Confirm(env, kept, p).commands))
            == OpenTrip(env, Tracker(kept.st, kept.nextId, ApplyCommands(t0.rows, kept.commands),
                                     t0.boundaries + Boundaries(kept.commands)), p)
  {
    hide ApplyCommands, Boundaries;
    var create := CreateTrip(NewTrip(env, kept.st, p, kept.nextId), kept.st.candidateStartedAt.value,
                             Assign(kept.candidatePoints, kept.nextId));
    ApplyOneMore(t0.rows, kept.commands, create);
    BoundariesOneMore(kept.commands, create);
  }

  lemma RefinesKept(env: Env, t0: Tracker, run: Run, p: ProcessedPoint)
    requires Valid(env, run) && run.st.state == MotionCandidate && p.filtered.Some?
    requires !p.isStationary && !env.GapExceeded(run.st, p)
    requires Valid(env, AfterPoint(env, run, p))
    ensures View(env, t0, AfterPoint(env, run, p)) == ObserveUsable(env, View(env, t0, run), p)
  {
    WindowNeverDecides(env, run, p);
    ConfirmIsOpening(env, t0, Keep(env, run, p), p);
    hide ApplyCommands, Boundaries, Filter, OpenTrip, Confirm;
  }

  lemma FlushedView(env: Env, t0: Tracker, run: Run, complete: Command)
    requires Valid(env, run)
    ensures ApplyCommands(t0.rows, Flush(run).commands + [complete])
            == ApplyCommand(View(env, t0, run).rows, complete)
    ensures t0.boundaries + Boundaries(Flush(run).commands + [complete])
            == View(env, t0, run).boundaries + BoundaryOf(complete)
  {
    ApplyOneMore(t0.rows, Flush(run).commands, complete);
    BoundariesOneMore(Flush(run).commands, complete);
  }

  lemma RefinesActive(env: Env, t0: Tracker, run: Run, p: ProcessedPoint)
    requires Valid(env, run) && run.st.state == TripActive && p.filtered.Some?
    requires Valid(env, AfterPoint(env, run, p))
    ensures View(env, t0, AfterPoint(env, run, p)) == ObserveUsable(env, View(env, t0, run), p)
  {
    if env.GapExceeded(run.st, p) {
      FlushedView(env, t0, run, CompleteTrip(run.st.activeTripId.value, run.st.lastProcessedAt.value,
                                             run.st.lastPoint.value));
    } else if !p.isStationary {
      BufferingIsExtending(env, t0, run, p);
    }
  }

  lemma RefinesStop(env: Env, t0: Tracker, run: Run, p: ProcessedPoint)
    requires Valid(env, run) && run.st.state == StopCandidate && p.filtered.Some?
    requires Valid(env, AfterPoint(env, run, p))
    ensures View(env, t0, AfterPoint(env, run, p)) == ObserveUsable(env, View(env, t0, run), p)
  {
    hide ApplyCommands, Boundaries, Filter, UpdateStats, Complete;
    if !p.isStationary && env.dist(run.st.stopCenter.value, p.filtered.value) > env.cfg.stopRadiusM {
      var resumed := run.(st := run.st.(state := TripActive, stopStartedAt := None, stopCenter := None));
      BufferingIsExtending(env, t0, resumed, p);
    } else {
      FlushedView(env, t0, run, CompleteTrip(run.st.activeTripId.value, run.st.stopStartedAt.value,
                                             run.st.stopCenter.value));
    }
  }

  // One step of the batch loop is one step of the reference machine.
  lemma {:induction false} StepRefines(env: Env, t0: Tracker, run: Run, p: ProcessedPoint)
    requires Valid(env, run)
    ensures Valid(env, Consume(env, run, p))
    ensures View(env, t0, Consume(env, run, p)) == Observe(env, View(env, t0, run), p)
  {
    ConsumeStaysValid(env, run, p);
    hide AfterPoint, ObserveUsable, View;
    if p.IsUsable() {
      match run.st.state
      case Idle => RefinesIdle(env, t0, run, p);
      case MotionCandidate =>
        if p.isStationary || env.GapExceeded(run.st, p) {
          RefinesAbandoned(env, t0, run, p);
        } else {
          RefinesKept(env, t0, run, p);
        }
      case TripActive => RefinesActive(env, t0, run, p);
      case StopCandidate => RefinesStop(env, t0, run, p);
    }
  }

  lemma {:induction false} RunRefines(env: Env, t0: Tracker, points: seq<ProcessedPoint>)
    requires t0.st.WellFormed()
    ensures View(env, t0, ConsumeAll(env, FreshRun(t0.st, t0.nextId), points)) == ObserveAll(env, t0, points)
  {
    var start := FreshRun(t0.st, t0.nextId);
    if points == [] {
    } else {
      hide Consume, Observe, View;
      var front, p := points[..|points| - 1], points[|points| - 1];
      RunRefines(env, t0, front);
      StepRefines(env, t0, ConsumeAll(env, start, front), p);
    }
  }

  // What a batch leaves behind: its outcome applied to the tracker it started from.
  function AfterBatch(env: Env, t: Tracker, points: seq<ProcessedPoint>): Tracker
    requires t.st.WellFormed()
  {
    var outcome := Outcome(env, t.st, t.nextId, points);
    Tracker(outcome.newState, outcome.nextId, ApplyCommands(t.rows, outcome.commands),
            t.boundaries + Boundaries(outcome.commands))
  }

  // A whole batch is the reference machine run over its points, then stamped with the clock.
  lemma {:induction false} BatchRefines(env: Env, t: Tracker, points: seq<ProcessedPoint>)
    requires t.st.WellFormed()
    ensures AfterBatch(env, t, points)
            == ObserveAll(env, t, points).(st := Stamp(env, ObserveAll(env, t, points).st))
    ensures AfterBatch(env, t, points).st.WellFormed()
  {
    RunRefines(env, t, points);
  }

  // The machine does not read the watermark or the clock stamp of the state.
  lemma StampIsNotReadWhenOpen(env: Env, t: Tracker, p: ProcessedPoint)
    requires t.st.WellFormed() && p.filtered.Some? && t.st.activeTripId.Some?
    ensures ObserveUsable(env, t.(st := Stamp(env, t.st)), p)
            == ObserveUsable(env, t, p).(st := Stamp(env, ObserveUsable(env, t, p).st))
  {
    hide Complete, UpdateStats;
    if t.st.state == TripActive {
      assert ObserveActive(env, t.(st := Stamp(env, t.st)), p)
          == ObserveActive(env, t, p).(st := Stamp(env, ObserveActive(env, t, p).st));
    } else {
      assert ObserveStop(env, t.(st := Stamp(env, t.st)), p)
          == ObserveStop(env, t, p).(st := Stamp(env, ObserveStop(env, t, p).st));
    }
  }

  lemma StampIsNotReadWhenClosed(env: Env, t: Tracker, p: ProcessedPoint)
    requires t.st.WellFormed() && p.filtered.Some? && t.st.activeTripId.None?
    ensures ObserveUsable(env, t.(st := Stamp(env, t.st)), p)
            == ObserveUsable(env, t, p).(st := Stamp(env, ObserveUsable(env, t, p).st))
  {
    hide ObserveCandidate, InsertTrip, Moves;
    if t.st.state == MotionCandidate {
      StampIsNotReadByCandidate(env, t, p);
    }
  }

  lemma StampIsNotReadByCandidate(env: Env, t: Tracker, p: ProcessedPoint)
    requires t.st.candidateStartedAt.Some? && t.st.candidateStart.Some? && p.filtered.Some?
    ensures ObserveCandidate(env, t.(st := Stamp(env, t.st)), p)
            == ObserveCandidate(env, t, p).(st := Stamp(env, ObserveCandidate(env, t, p).st))
  {
    hide OpenTrip, MaybeStart, Moves;
    var stamped := t.(st := Stamp(env, t.st));
    var dropped := t.(st := Reset(t.st));
    assert stamped.(st := Reset(stamped.st)) == dropped.(st := Stamp(env, dropped.st));
    StampIsNotReadByStart(env, dropped, p);
    var kept := t.(st := Counted(env, t.st, p));
    assert stamped.(st := Counted(env, stamped.st, p)) == kept.(st := Stamp(env, kept.st));
    StampIsNotReadByOpening(env, kept, p);
  }

  lemma StampIsNotReadByStart(env: Env, t: Tracker, p: ProcessedPoint)
    requires p.filtered.Some?
    ensures MaybeStart(env, t.(st := Stamp(env, t.st)), p)
            == MaybeStart(env, t, p).(st := Stamp(env, MaybeStart(env, t, p).st))
  {
    hide Moves;
  }

  lemma StampIsNotReadByOpening(env: Env, t: Tracker, p: ProcessedPoint)
    requires t.st.candidateStartedAt.Some? && t.st.candidateStart.Some?
    ensures OpenTrip(env, t.(st := Stamp(env, t.st)), p)
            == OpenTrip(env, t, p).(st := Stamp(env, OpenTrip(env, t, p).st))
  {
    hide InsertTrip;
  }

  lemma StampIsNotRead(env: Env, t: Tracker, p: ProcessedPoint)
    requires t.st.WellFormed()
    ensures Observe(env, t.(st := Stamp(env, t.st)), p)
            == Observe(env, t, p).(st := Stamp(env, Observe(env, t, p).st))
  {
    hide ObserveUsable;
    if p.IsUsable() {
      if t.st.activeTripId.Some? {
        StampIsNotReadWhenOpen(env, t, p);
      } else {
        StampIsNotReadWhenClosed(env, t, p);
      }
    }
  }

  lemma {:induction false} StampIsNeverRead(env: Env, t: Tracker, points: seq<ProcessedPoint>)
    requires t.st.WellFormed()
    ensures Stamp(env, t.st).WellFormed()
    ensures ObserveAll(env, t.(st := Stamp(env, t.st)), points)
            == ObserveAll(env, t, points).(st := Stamp(env, ObserveAll(env, t, points).st))
  {
    hide Observe;
    if points != [] {
      var front, p := points[..|points| - 1], points[|points| - 1];
      StampIsNeverRead(env, t, front);
      StampIsNotRead(env, ObserveAll(env, t, front), p);
    }
  }

  // Batch independence, for any points at all: cutting a batch in two changes neither the
  // saved state, nor the trips table, nor where trips begin and end.
  lemma {:induction false} BatchIndependence(env: Env, t: Tracker, a: seq<ProcessedPoint>, b: seq<ProcessedPoint>)
    requires t.st.WellFormed()
    ensures AfterBatch(env, t, a).st.WellFormed()
    ensures AfterBatch(env, AfterBatch(env, t, a), b) == AfterBatch(env, t, a + b)
  {
    hide AfterBatch, ObserveAll;
    BatchRefines(env, t, a);
    BatchRefines(env, t, a + b);
    BatchRefines(env, AfterBatch(env, t, a), b);
    ObserveAllAppend(env, t, a, b);
    StampIsNeverRead(env, ObserveAll(env, t, a), b);
  }
}
