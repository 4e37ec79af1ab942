// What it means for trips that a missing speed is stored as zero.
module MissingFields {
  import opened Domain
  import opened Ingestion
  import opened Noise
  import opened TripDetection
  import opened TripRows
  import opened Storage
  import opened TrackingJob
  import opened JobRuns

  // The columns of a stored row that the tracking worker reads.
  function RawPointOf(row: RawRow): RawPoint {
    RawPoint(row.key.event, row.recordedAt, row.position, row.accuracyM, row.speedMps, row.activityType,
             row.activityConfidence)
  }

  predicate IsOnFoot(activity: string) {
    activity == "walking" || activity == "running"
  }

  // The event carries no speed and does not vouch for an activity on foot either.
  predicate Undecided(ev: LocationEvent) {
    && ev.speedMps.None?
    && (ev.activityType.Some? && IsOnFoot(ev.activityType.value) ==> ev.activityConfidence.None?)
  }

  // The raw point is what the worker reads of a message the gateway published for this event.
  ghost predicate ReadFrom(p: RawPoint, s: Session, at: Time, producer: string, ev: LocationEvent) {
    EnvelopeOf(s, at, producer, ev).Some? && p == RawPointOf(MapPayloadToPoint(EnvelopeOf(s, at, producer, ev).value))
  }

  ghost predicate CameUndecided(p: RawPoint) {
    exists s, at, producer, ev :: ReadFrom(p, s, at, producer, ev) && Undecided(ev)
  }

  // A reported standstill: speed zero, and no confidence in an activity on foot.
  predicate Silent(speed: Option<real>, activity: string, confidence: Option<real>) {
    speed == Some(0.0) && (IsOnFoot(activity) ==> confidence == Some(0.0))
  }

  predicate SilentRaw(p: RawPoint) {
    Silent(p.speedMps, p.activityType, p.activityConfidence)
  }

  predicate SilentPoint(p: ProcessedPoint) {
    Silent(p.speedMps, p.activityType, p.activityConfidence)
  }

  ghost predicate AllSilent(points: seq<ProcessedPoint>) {
    forall i :: 0 <= i < |points| ==> SilentPoint(points[i])
  }

  lemma UndecidedIsSilent(p: RawPoint)
    requires CameUndecided(p)
    ensures SilentRaw(p)
  {
    var s, at, producer, ev :| ReadFrom(p, s, at, producer, ev) && Undecided(ev);
  }

  // Without the stored zero the implied speed would decide, and any in the range counts.
  lemma {:induction false} ImpliedSpeedIsOverruled(cfg: DetectionConfig, p: ProcessedPoint)
    requires SilentPoint(p) && cfg.movementMinSpeedMps > 0.0 && cfg.activityConfidence > 0.0
    ensures !Moves(cfg, p)
    ensures p.isAccepted && !p.isStationary && p.distanceDeltaM > 0.0
            && cfg.movementMinSpeedMps <= p.impliedSpeedMps <= cfg.movementMaxSpeedMps ==>
              Moves(cfg, p.(speedMps := None))
  {
  }

  // ---- the noise pipeline copies what was reported ----

  lemma PointStaysSilent(s: Setup, window: seq<ProcessedPoint>, raw: RawPoint, next: Option<RawPoint>,
                         through: Option<Time>)
    requires SilentRaw(raw)
    ensures SilentPoint(ProcessOne(s, window, raw, next, through))
  {
    hide DetectOutlier, Validate, Trim, DetectStationary, Clamp, AnchorIndex;
  }

  lemma StepStaysSilent(s: Setup, g: Progress, raw: RawPoint, next: Option<RawPoint>, through: Option<Time>)
    requires AllSilent(g.processed) && AllSilent(g.accepted) && SilentRaw(raw)
    ensures
      var after := Step(s, g, raw, next, through);
      AllSilent(after.processed) && AllSilent(after.accepted)
  {
    PointStaysSilent(s, g.window, raw, next, through);
    hide ProcessOne, Trim;
  }

  lemma {:induction false} StepsStaySilent(s: Setup, history: seq<ProcessedPoint>, points: seq<RawPoint>,
                                           through: Option<Time>, n: nat)
    requires n <= |points| && forall i :: 0 <= i < |points| ==> SilentRaw(points[i])
    ensures
      var g := Steps(s, history, points, through, n);
      AllSilent(g.processed) && AllSilent(g.accepted)
  {
    if n > 0 {
      StepsStaySilent(s, history, points, through, n - 1);
      StepStaysSilent(s, Steps(s, history, points, through, n - 1), points[n - 1], NextOf(points, n - 1), through);
    }
    hide Step, AllSilent;
  }

  // ---- the detector never starts ----

  lemma {:induction false} SilenceStaysIdle(env: Env, st: DetectionState, nextId: TripId, points: seq<ProcessedPoint>)
    requires st.WellFormed() && st.state == Idle && AllSilent(points)
    requires env.cfg.movementMinSpeedMps > 0.0 && env.cfg.activityConfidence > 0.0
    ensures
      var run := ConsumeAll(env, FreshRun(st, nextId), points);
      run.st.state == Idle && run.commands == [] && run.nextId == nextId
  {
    if points != [] {
      var front, p := points[..|points| - 1], points[|points| - 1];
      SilenceStaysIdle(env, st, nextId, front);
      assert SilentPoint(p);
      ImpliedSpeedIsOverruled(env.cfg, p);
      hide Moves, SilentPoint;
    }
  }

  lemma SilentCycle(job: Job, w: World, now: Time)
    requires w.tables.state.WellFormed() && Quiet(w)
    requires job.cfg.movementMinSpeedMps > 0.0 && job.cfg.activityConfidence > 0.0
    ensures Quiet(RunOnce(job, w, now))
  {
    var st, g := w.tables.state, Cleaned(job, w, now);
    CleanedIsSilent(job, w, now);
    SilenceStaysIdle(job.EnvAt(now), st, w.nextId, g.accepted);
    NothingToSave(job.EnvAt(now), st, w.nextId, g.accepted);
    var outcome := Outcome(job.EnvAt(now), st, w.nextId, g.accepted);
    NoCommandsNoTrips(w.tables, BatchOf(outcome.newState, outcome.commands).(processedPoints := g.processed));
    hide Cleaned, Outcome, Selected, Applied, AllSilent;
  }

  lemma NothingToSave(env: Env, st: DetectionState, nextId: TripId, points: seq<ProcessedPoint>)
    requires st.WellFormed()
    requires
      var run := ConsumeAll(env, FreshRun(st, nextId), points);
      run.st.state == Idle && run.commands == []
    ensures
      var outcome := Outcome(env, st, nextId, points);
      outcome.newState.state == Idle && BatchOf(outcome.newState, outcome.commands) == EmptyBatch(outcome.newState)
  {
    hide ConsumeAll;
  }

  lemma NoCommandsNoTrips(t: Tables, b: DetectionBatch)
    requires b.newTrips == [] && b.updatedTrips == [] && b.completedTrips == [] && b.newPoints == []
    ensures Applied(t, b).trips == t.trips && Applied(t, b).links == t.links && Applied(t, b).state == b.newState
  {
    hide InsertProcessed;
  }

  lemma CleanedIsSilent(job: Job, w: World, now: Time)
    requires forall i :: 0 <= i < |w.raw| ==> SilentRaw(w.raw[i])
    ensures AllSilent(Cleaned(job, w, now).accepted)
  {
    var st := w.tables.state;
    var fetched := FetchUnprocessed(w.raw, w.tables.processed, From(st, now), UpTo(st, now));
    FetchedIsSilent(w, From(st, now), UpTo(st, now));
    SortedIsSilent(fetched);
    var points := Sorting.Sort(RawBefore, fetched);
    StepsStaySilent(job.setup, FetchHistory(w.tables.processed, UpTo(st, now)), points, st.lastProcessedAt, |points|);
    hide FetchUnprocessed, FetchHistory, Steps, Sorting.Sort, AllSilent, SilentRaw;
  }

  lemma FetchedIsSilent(w: World, since: Time, to: Time)
    requires forall i :: 0 <= i < |w.raw| ==> SilentRaw(w.raw[i])
    ensures forall p :: p in FetchUnprocessed(w.raw, w.tables.processed, since, to) ==> SilentRaw(p)
  {
    Sorting.SameElements(FetchUnprocessed(w.raw, w.tables.processed, since, to),
                         Pending(w.raw, w.tables.processed, since, to));
    hide Sorting.Sort, Unprocessed;
  }

  lemma SortedIsSilent(points: seq<RawPoint>)
    requires forall p :: p in points ==> SilentRaw(p)
    ensures
      forall i :: 0 <= i < |Sorting.Sort(RawBefore, points)| ==> SilentRaw(Sorting.Sort(RawBefore, points)[i])
  {
    var sorted := Sorting.Sort(RawBefore, points);
    Sorting.SameElements(sorted, points);
    hide Sorting.Sort;
    forall i | 0 <= i < |sorted| ensures SilentRaw(sorted[i]) {
      assert sorted[i] in sorted;
    }
  }

  // ---- whole runs ----

  ghost predicate Quiet(w: World) {
    && w.tables.state.state == Idle && w.tables.trips == map[] && w.tables.links == map[]
    && forall i :: 0 <= i < |w.raw| ==> SilentRaw(w.raw[i])
  }

  // However a device moves: as long as its events report no speed and vouch for no activity on
  // foot, no run of the worker ever creates a trip.
  lemma {:induction false} NoSpeedNoTrip(job: Job, events: seq<Event>)
    requires job.cfg.movementMinSpeedMps > 0.0 && job.cfg.activityConfidence > 0.0
    requires forall i :: 0 <= i < |events| && events[i].Arrival? ==> CameUndecided(events[i].point)
    ensures After(job, events).tables.trips == map[] && After(job, events).tables.links == map[]
    ensures Quiet(After(job, events))
  {
    if events != [] {
      var before, e := After(job, events[..|events| - 1]), events[|events| - 1];
      NoSpeedNoTrip(job, events[..|events| - 1]);
      match e
      case Arrival(p) => UndecidedIsSilent(p);
      case Tick(now) => SilentCycle(job, before, now);
    }
    hide CameUndecided, RunOnce, SilentRaw;
  }
}
