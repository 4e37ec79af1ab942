// The life of every trip over whole runs: what opened it, what its totals are, how it ended,
// and that none was missed.
module TripLife {
  import opened Domain
  import opened Sorting
  import opened Noise
  import opened NoiseOutput
  import opened TripDetection
  import opened TripRows
  import opened TripRefinement
  import opened TripGrammar
  import opened Storage
  import opened Ledger
  import opened LedgerRefinement
  import opened SavedCycle
  import opened TripRecords
  import opened TrackingJob
  import opened JobRuns
  import opened TripTotals
  import opened TripEnds
  import opened TripCompleteness
  import opened TripProgress

  // ---- what every book keeps ----

  ghost predicate LifeFits(r: Rules, apart: bool, b: Book) {
    && TotalsFit(r.cfg, b) && NeighboursFit(r.cfg, b) && EndsFit(r, b)
    && OpensFit(b) && WalksFit(r.cfg, b) && NoneMissed(r.cfg, b)
    && OpenRowFits(b) && ResumesFit(r, b)
    && (apart ==> RestsFit(r.cfg, b) && StandstillsEnd(r.cfg, b))
  }

  // A standstill is not dated after the point itself.
  predicate DatedBack(p: ProcessedPoint) {
    p.isStationary ==> StillSince(p) <= p.recordedAt
  }

  lemma OpenRowIsThere(r: Rules, b: Book)
    requires OpensFit(b) && TotalsFit(r.cfg, b)
    ensures b.tracker.st.activeTripId.Some? ==> b.tracker.st.activeTripId.value in b.tracker.rows
  {
    hide CandidateFits, Ripe, Unbroken, MovedFrom, NotRipeBefore, Moved, MovedCount, LinkedDistance, LinkedCount;
    if b.tracker.st.activeTripId.Some? {
      var k :| 0 <= k < |b.openings| && b.openings[k].id == b.tracker.st.activeTripId.value;
      assert OpeningIs(r.cfg, b, b.openings[k]);
    }
  }

  lemma EnterKeepsLife(env: Env, apart: bool, b: Book, p: ProcessedPoint)
    requires ClockFits(b) && LinksFit(b) && Ledger.Next(b, p) && b.tracker.nextId !in b.tracker.rows
    requires LifeFits(RulesOf(env), apart, b) && (apart ==> DatedBack(p))
    ensures LifeFits(RulesOf(env), apart, Enter(env, b, p))
  {
    hide *;
    RulesAre(env);
    LifeParts(RulesOf(env), apart, b);
    EnteredIs(env, b, p);
    OpenRowIsThere(RulesOf(env), b);
    CandidatePart(env.cfg, b);
    EnterKeepsTotals(env, b, p);
    EnterKeepsNeighbours(env, b, p);
    EnterKeepsEnds(env, b, p);
    EnterKeepsOpens(env, b, p);
    EnterKeepsWalks(env, b, p);
    EnterKeepsOpenRow(env, b, p);
    EnterKeepsResumes(env, b, p);
    EnterKeepsClock(env, b, p);
    CandidatePart(env.cfg, Enter(env, b, p));
    EnterMissesNone(env, b, p);
    if apart {
      DatedBackIs(p);
      EnterKeepsRests(env, b, p);
      EnterEndsStandstills(env, b, p);
    }
    LifeFromParts(RulesOf(env), apart, Enter(env, b, p));
  }

  lemma DatedBackIs(p: ProcessedPoint)
    ensures DatedBack(p) <==> (p.isStationary ==> StillSince(p) <= p.recordedAt)
  {
  }

  lemma CandidatePart(cfg: DetectionConfig, b: Book)
    ensures TotalsFit(cfg, b) ==> CandidateFits(cfg, b)
  {
    hide CandidateFits, OpeningIs;
  }

  lemma LifeParts(r: Rules, apart: bool, b: Book)
    requires LifeFits(r, apart, b)
    ensures TotalsFit(r.cfg, b) && NeighboursFit(r.cfg, b) && EndsFit(r, b)
    ensures OpensFit(b) && WalksFit(r.cfg, b) && NoneMissed(r.cfg, b) && OpenRowFits(b) && ResumesFit(r, b)
    ensures apart ==> RestsFit(r.cfg, b) && StandstillsEnd(r.cfg, b)
  {
    hide TotalsFit, NeighboursFit, EndsFit, OpensFit, WalksFit, NoneMissed, OpenRowFits, ResumesFit,
      RestsFit, StandstillsEnd;
  }

  lemma LifeFromParts(r: Rules, apart: bool, b: Book)
    requires TotalsFit(r.cfg, b) && NeighboursFit(r.cfg, b) && EndsFit(r, b)
    requires OpensFit(b) && WalksFit(r.cfg, b) && NoneMissed(r.cfg, b) && OpenRowFits(b) && ResumesFit(r, b)
    requires apart ==> RestsFit(r.cfg, b) && StandstillsEnd(r.cfg, b)
    ensures LifeFits(r, apart, b)
  {
    hide TotalsFit, NeighboursFit, EndsFit, OpensFit, WalksFit, NoneMissed, OpenRowFits, ResumesFit,
      RestsFit, StandstillsEnd;
  }

  lemma {:induction false} EnterAllKeepsLife(env: Env, apart: bool, b: Book, points: seq<ProcessedPoint>)
    requires ClockFits(b) && LinksFit(b) && IdsBelow(b.tracker.rows, b.tracker.nextId) && Arrives(b, points)
    requires LifeFits(RulesOf(env), apart, b)
    requires forall k :: 0 <= k < |points| ==> points[k].IsUsable() && (apart ==> DatedBack(points[k]))
    ensures b.tracker.st.WellFormed() && LifeFits(RulesOf(env), apart, EnterAll(env, b, points))
  {
    hide LinksFit, LifeFits, Arrives, Ledger.Next, Enter, IdsBelow, RulesOf, DatedBack;
    if points != [] {
      var front, p := points[..|points| - 1], points[|points| - 1];
      assert forall k :: 0 <= k < |front| ==> front[k] == points[k];
      ArrivingIsNext(b, points, EnterAll(env, b, front));
      EnterAllKeepsLife(env, apart, b, front);
      EnterAllKeepsBooks(env, b, front);
      RowsStayBelow(env, b, front);
      NextIdIsFree(EnterAll(env, b, front).tracker);
      EnterKeepsLife(env, apart, EnterAll(env, b, front), p);
    }
  }

  // ---- the stamp is no part of it ----

  lemma StampKeepsLife(env: Env, r: Rules, apart: bool, b: Book)
    requires LifeFits(r, apart, b)
    ensures LifeFits(r, apart, Stamped(env, b))
  {
    LifeParts(r, apart, b);
    StampKeepsTotals(env, r.cfg, b);
    StampKeepsEnds(env, r, b);
    StampKeepsNeighbours(env, r.cfg, b);
    StampKeepsOpens(env, b);
    StampKeepsWalks(env, r.cfg, b);
    StampMissesNone(env, r.cfg, b);
    StampKeepsRests(env, r.cfg, b);
    StampKeepsProgress(env, r, b);
    hide TotalsFit, NeighboursFit, EndsFit, OpensFit, WalksFit, NoneMissed, OpenRowFits, ResumesFit,
      RestsFit, StandstillsEnd, Stamped;
  }

  lemma StampKeepsTotals(env: Env, cfg: DetectionConfig, b: Book)
    requires TotalsFit(cfg, b)
    ensures TotalsFit(cfg, Stamped(env, b))
  {
    hide Ripe, Unbroken, MovedFrom, NotRipeBefore, Moved, MovedCount, LinkedDistance, LinkedCount;
    var after := Stamped(env, b);
    forall k | 0 <= k < |after.openings| ensures OpeningIs(cfg, after, after.openings[k]) {
      assert OpeningIs(cfg, b, b.openings[k]);
    }
  }

  lemma StampKeepsEnds(env: Env, r: Rules, b: Book)
    requires EndsFit(r, b)
    ensures EndsFit(r, Stamped(env, b))
  {
    hide Stands, EndsAt, WasClosed;
    var after := Stamped(env, b);
    forall k | 0 <= k < |after.closings| ensures ClosingIs(r, after, after.closings[k]) {
      assert ClosingIs(r, b, b.closings[k]);
    }
  }

  lemma StampKeepsNeighbours(env: Env, cfg: DetectionConfig, b: Book)
    requires NeighboursFit(cfg, b)
    ensures NeighboursFit(cfg, Stamped(env, b))
  {
    hide IsClose, LinkedTo;
    var after := Stamped(env, b);
    assert after.accepted == b.accepted && after.links == b.links;
  }

  lemma StampKeepsOpens(env: Env, b: Book)
    requires OpensFit(b)
    ensures OpensFit(Stamped(env, b))
  {
    hide WasClosed, HasOpening;
  }

  lemma StampKeepsWalks(env: Env, cfg: DetectionConfig, b: Book)
    requires WalksFit(cfg, b)
    ensures WalksFit(cfg, Stamped(env, b))
  {
    hide Walks, CandidateSince, OpensBy;
    var after := Stamped(env, b);
    StampIs(env, b);
    forall s | 0 <= s < |after.accepted| && Walks(cfg, after, s, after.accepted[|after.accepted| - 1].recordedAt)
      ensures CandidateSince(after, after.accepted[s].recordedAt)
              || OpensBy(after, after.accepted[s].recordedAt, after.accepted[|after.accepted| - 1].recordedAt)
    {
      SameLogWalks(cfg, after, b, s, b.accepted[|b.accepted| - 1].recordedAt);
      WalkIs(cfg, b, s);
      SameLogOpens(after, b, b.accepted[s].recordedAt, b.accepted[|b.accepted| - 1].recordedAt);
      SinceSurvives(after, b, b.accepted[s].recordedAt);
    }
  }

  lemma StampMissesNone(env: Env, cfg: DetectionConfig, b: Book)
    requires NoneMissed(cfg, b)
    ensures NoneMissed(cfg, Stamped(env, b))
  {
    hide Walks, OpensBy, Ripe;
    var after := Stamped(env, b);
    StampIs(env, b);
    forall s, e | 0 <= s < e < |after.accepted| && Walks(cfg, after, s, after.accepted[e].recordedAt)
                  && Ripe(cfg, after.accepted, after.accepted[s].recordedAt, after.accepted[e].recordedAt)
      ensures OpensBy(after, after.accepted[s].recordedAt, after.accepted[e].recordedAt)
    {
      SameLogWalks(cfg, after, b, s, b.accepted[e].recordedAt);
      NoneMissedIs(cfg, b, s, e);
      SameLogOpens(after, b, b.accepted[s].recordedAt, b.accepted[e].recordedAt);
    }
  }

  lemma StampIs(env: Env, b: Book)
    ensures
      var after := Stamped(env, b);
      && after.accepted == b.accepted && after.openings == b.openings && after.closings == b.closings
      && after.links == b.links && after.tracker.st.candidateStartedAt == b.tracker.st.candidateStartedAt
  {
  }

  lemma SameLogWalks(cfg: DetectionConfig, a: Book, b: Book, s: nat, to: Time)
    requires a.accepted == b.accepted && a.openings == b.openings && a.closings == b.closings && a.links == b.links
    ensures Walks(cfg, a, s, to) <==> Walks(cfg, b, s, to)
  {
    hide Moves, Unbroken, OpenBefore, WentSilent;
    if s < |b.accepted| {
      SameLogIsOpen(a, b, b.accepted[s].recordedAt);
      SameLogIsSilent(cfg, a, b, s);
      SameLogIsSilent(cfg, b, a, s);
    }
  }

  lemma SameLogIsSilent(cfg: DetectionConfig, a: Book, b: Book, s: nat)
    requires a.accepted == b.accepted && a.openings == b.openings && a.closings == b.closings && a.links == b.links
    ensures WentSilent(cfg, a, s) ==> WentSilent(cfg, b, s)
  {
    if WentSilent(cfg, a, s) {
      var o := SilentTrip(cfg, a, s);
      SilenceFromParts(cfg, b, s, o);
    }
  }

  lemma SameLogOpens(a: Book, b: Book, at: Time, to: Time)
    requires a.openings == b.openings
    ensures OpensBy(a, at, to) <==> OpensBy(b, at, to)
  {
  }

  lemma SinceSurvives(a: Book, b: Book, at: Time)
    requires a.tracker.st.candidateStartedAt == b.tracker.st.candidateStartedAt
    ensures CandidateSince(a, at) <==> CandidateSince(b, at)
  {
  }

  lemma SameLogIsOpen(a: Book, b: Book, at: Time)
    requires a.openings == b.openings && a.closings == b.closings
    ensures OpenBefore(a, at) <==> OpenBefore(b, at)
  {
    forall k | 0 <= k < |b.openings| ensures StillOpen(a, b.openings[k], at) <==> StillOpen(b, b.openings[k], at) {
    }
  }

  lemma StampKeepsRests(env: Env, cfg: DetectionConfig, b: Book)
    ensures RestsFit(cfg, b) ==> RestsFit(cfg, Stamped(env, b))
    ensures StandstillsEnd(cfg, b) ==> StandstillsEnd(cfg, Stamped(env, b))
  {
    hide RestsFrom, ClosedBy;
  }

  lemma StampKeepsProgress(env: Env, r: Rules, b: Book)
    requires OpenRowFits(b) && ResumesFit(r, b)
    ensures OpenRowFits(Stamped(env, b)) && ResumesFit(r, Stamped(env, b))
  {
    hide LinkedTo, RowAsConfirmed, RowAsOf, Leaves;
    var after := Stamped(env, b);
    forall k | 0 <= k < |b.openings| && OpenRowIs(b, b.openings[k]) ensures OpenRowIs(after, b.openings[k]) {
      SameRowIsOpen(after, b, b.openings[k]);
    }
    hide OpenRowIs;
    assert forall i, k :: 0 <= i && 0 <= k < |b.openings| ==>
        TakesUp(after, i, b.openings[k]) == TakesUp(b, i, b.openings[k]);
  }

  lemma SameRowIsOpen(a: Book, b: Book, o: Opening)
    requires OpenRowIs(b, o) && a.accepted == b.accepted && a.links == b.links && a.tracker.rows == b.tracker.rows
    ensures OpenRowIs(a, o)
  {
    hide LinkedTo, RowAsConfirmed, RowAsOf;
    if !(NothingLater(b, o) && RowAsConfirmed(b.tracker.rows[o.id], o)) {
      var i :| 0 <= i < |b.accepted| && LatestIs(b, o, i) && RowAsOf(b.tracker.rows[o.id], b.accepted[i]);
      assert LatestIs(a, o, i);
    }
  }

  // ---- runs ----

  function RulesIn(job: Job): Rules {
    Rules(job.cfg, job.setup.dist)
  }

  lemma RulesOfEnv(job: Job, now: Time)
    ensures RulesOf(job.EnvAt(now)) == RulesIn(job)
  {
  }

  lemma CalmIsDatedBack(cfg: DetectionConfig, accepted: seq<ProcessedPoint>, p: ProcessedPoint)
    requires Calm(cfg, accepted, p)
    ensures DatedBack(p)
  {
  }

  lemma HandedIsDatedBack(job: Job, stored: seq<ProcessedPoint>, g: Progress)
    requires Handed(job, stored, g)
    ensures forall k :: 0 <= k < |g.accepted| ==>
              g.accepted[k].IsUsable() && (Apart(job) ==> DatedBack(g.accepted[k]))
  {
    HandedIsCalm(job, stored, g);
    hide Handed, Apart, Calm, DatedBack;
    forall k | 0 <= k < |g.accepted| && Apart(job) ensures DatedBack(g.accepted[k]) {
      CalmIsDatedBack(job.cfg, AcceptedOnly(stored) + g.accepted[..k], g.accepted[k]);
    }
  }

  lemma CycleKeepsLife(job: Job, w: World, b: Book, now: Time)
    requires Sane(job) && Kept(job, w, b) && LifeFits(RulesIn(job), Apart(job), b)
    ensures b.tracker.st.WellFormed()
    ensures LifeFits(RulesIn(job), Apart(job),
                     Stamped(job.EnvAt(now), EnterAll(job.EnvAt(now), b, Cleaned(job, w, now).accepted)))
  {
    hide *;
    var env, g := job.EnvAt(now), Cleaned(job, w, now);
    KeptParts(job, w, b);
    CycleKeepsBook(job, w, b, now);
    HandedArrives(job, b, w.tables.processed, g);
    HandedIsDatedBack(job, w.tables.processed, g);
    RulesOfEnv(job, now);
    EnterAllKeepsLife(env, Apart(job), b, g.accepted);
    StampKeepsLife(env, RulesIn(job), Apart(job), EnterAll(env, b, g.accepted));
  }

  lemma KeptParts(job: Job, w: World, b: Book)
    requires Kept(job, w, b)
    ensures ClockFits(b) && LinksFit(b) && IdsBelow(b.tracker.rows, b.tracker.nextId) && b.tracker.st.WellFormed()
    ensures AcceptedOnly(w.tables.processed) == b.accepted && w.tables.trips == b.tracker.rows
    ensures w.tables.links == b.links && w.tables.state == b.tracker.st
  {
    hide LinksFit, OpeningsFit, RecordsFit, DistinctEvents, AcceptedOnly, Distinct;
  }

  lemma {:induction false} RunsKeepLife(job: Job, events: seq<Event>)
    requires Sane(job)
    ensures LifeFits(RulesIn(job), Apart(job), BookAfter(job, events))
  {
    if events == [] {
      EmptyLife(job);
    } else {
      hide Kept, LifeFits, Apart, Cleaned, EnterAll, Selected, UpTo, From, RulesIn;
      var front, e := events[..|events| - 1], events[|events| - 1];
      RunsKeepLife(job, front);
      RunsKeep(job, front);
      if e.Tick? {
        CycleKeepsLife(job, After(job, front), BookAfter(job, front), e.now);
      }
      hide After;
    }
  }

  lemma EmptyLife(job: Job)
    ensures LifeFits(RulesIn(job), Apart(job), BookAfter(job, []))
  {
    hide Apart;
  }

  // ---- what it means ----

  // Everything accepted over a run, in order.
  function TrackAfter(job: Job, events: seq<Event>): seq<ProcessedPoint> {
    AcceptedOnly(After(job, events).tables.processed)
  }

  lemma OpeningOf(job: Job, events: seq<Event>, id: TripId) returns (o: Opening)
    requires Sane(job) && id in After(job, events).tables.trips
    ensures o in BookAfter(job, events).openings && o.id == id
    ensures OpeningIs(job.cfg, BookAfter(job, events), o)
  {
    RunsKeep(job, events);
    RunsKeepLife(job, events);
    var b := BookAfter(job, events);
    KeptParts(job, After(job, events), b);
    LifeParts(RulesIn(job), Apart(job), b);
    hide After, BookAfter, Apart, ClockFits, LinksFit, RecordsFit, OpeningIs, CandidateFits, NeighboursFit, EndsFit,
      OpensFit, WalksFit, NoneMissed, OpenRowFits, ResumesFit, RestsFit, StandstillsEnd, LifeFits, DistinctEvents,
      IdsBelow, Backs;
    assert WasOpened(b.openings, id);
    var k :| 0 <= k < |b.openings| && b.openings[k].id == id;
    o := b.openings[k];
  }

  // Over every run: a trip began at a movement point, went on from there without a standstill or
  // a long silence, and was confirmed by the very first point at which the movement since its
  // start was long, far and dense enough. Its stored distance is that of this movement and of
  // every later point linked to it, and so is its number of points.
  lemma {:induction false} TripsAddUp(job: Job, events: seq<Event>, id: TripId) returns (confirmedAt: Time)
    requires Sane(job) && id in After(job, events).tables.trips
    ensures Opening(id, After(job, events).tables.trips[id].startedAt, confirmedAt) in BookAfter(job, events).openings
    ensures
      var t, track := After(job, events).tables, TrackAfter(job, events);
      var row := t.trips[id];
      && MovedFrom(job.cfg, track, row.startedAt, row.start)
      && Unbroken(job.cfg, track, row.startedAt, confirmedAt)
      && Ripe(job.cfg, track, row.startedAt, confirmedAt)
      && NotRipeBefore(job.cfg, track, row.startedAt, confirmedAt)
      && row.distanceM == Moved(job.cfg, track, row.startedAt, confirmedAt)
                          + LinkedDistance(track, t.links, id, confirmedAt)
      && row.pointsCount == MovedCount(job.cfg, track, row.startedAt, confirmedAt)
                            + LinkedCount(track, t.links, id, confirmedAt)
  {
    hide *;
    var o := OpeningOf(job, events, id);
    RunsKeep(job, events);
    KeptParts(job, After(job, events), BookAfter(job, events));
    OpeningParts(job.cfg, BookAfter(job, events), o);
    TrackIs(job, events);
    confirmedAt := o.confirmedAt;
    assert o == Opening(id, o.startedAt, confirmedAt);
  }

  lemma TrackIs(job: Job, events: seq<Event>)
    ensures TrackAfter(job, events) == AcceptedOnly(After(job, events).tables.processed)
  {
    hide After, AcceptedOnly;
  }

  // Over every run: whoever starts to move while no trip is open, or after a silence that ends
  // the open one, goes on without a break, and by the e-th point has moved long, far and densely
  // enough, has got a trip by then, which starts no later.
  lemma {:induction false} WalksBecomeTrips(job: Job, events: seq<Event>, s: nat, e: nat) returns (o: Opening)
    requires Sane(job) && s < e < |TrackAfter(job, events)|
    requires
      var track := TrackAfter(job, events);
      && Moves(job.cfg, track[s]) && MayStart(job.cfg, BookAfter(job, events), s)
      && Unbroken(job.cfg, track, track[s].recordedAt, track[e].recordedAt)
      && Ripe(job.cfg, track, track[s].recordedAt, track[e].recordedAt)
    ensures
      var t, track := After(job, events).tables, TrackAfter(job, events);
      && o in BookAfter(job, events).openings && o.id in t.trips
      && t.trips[o.id].startedAt == o.startedAt <= track[s].recordedAt <= o.confirmedAt <= track[e].recordedAt
  {
    hide *;
    RunsKeep(job, events);
    RunsKeepLife(job, events);
    var b := BookAfter(job, events);
    KeptParts(job, After(job, events), b);
    LifeParts(RulesIn(job), Apart(job), b);
    RulesInAre(job);
    TrackIs(job, events);
    WalkHolds(job.cfg, b, s, b.accepted[e].recordedAt);
    NoneMissedIs(job.cfg, b, s, e);
    o := OpenedBy(job.cfg, b, b.accepted[s].recordedAt, b.accepted[e].recordedAt);
  }

  lemma RulesInAre(job: Job)
    ensures RulesIn(job).cfg == job.cfg && RulesIn(job).dist == job.setup.dist
  {
  }

  lemma WalkHolds(cfg: DetectionConfig, b: Book, s: nat, to: Time)
    requires s < |b.accepted| && Moves(cfg, b.accepted[s]) && MayStart(cfg, b, s)
    requires Unbroken(cfg, b.accepted, b.accepted[s].recordedAt, to)
    ensures Walks(cfg, b, s, to)
  {
    hide Moves, MayStart, Unbroken;
  }

  lemma OpenedBy(cfg: DetectionConfig, b: Book, at: Time, to: Time) returns (o: Opening)
    requires OpensBy(b, at, to) && TotalsFit(cfg, b)
    ensures o in b.openings && o.startedAt <= at <= o.confirmedAt <= to
    ensures o.id in b.tracker.rows && b.tracker.rows[o.id].startedAt == o.startedAt
  {
    hide CandidateFits, Ripe, Unbroken, MovedFrom, NotRipeBefore, Moved, MovedCount, LinkedDistance, LinkedCount;
    var k :| 0 <= k < |b.openings| && b.openings[k].startedAt <= at <= b.openings[k].confirmedAt <= to;
    o := b.openings[k];
    assert OpeningIs(cfg, b, b.openings[k]);
  }

  // Over every run: a completed trip ended at the last point before a silence longer than the
  // stop duration, or where and when a standstill began that then lasted that long, with every
  // point in between standing or within the stop radius.
  lemma {:induction false} TripsEndWhereTheyStopped(job: Job, events: seq<Event>, id: TripId)
    returns (n: nat)
    requires Sane(job) && id in After(job, events).tables.trips && After(job, events).tables.trips[id].endedAt.Some?
    ensures
      var row, track := After(job, events).tables.trips[id], TrackAfter(job, events);
      && row.end.Some? && n < |track| && Closing(id, track[n].recordedAt) in BookAfter(job, events).closings
      && (|| EndsBySilence(RulesIn(job), track, n, row.endedAt.value, row.end.value)
          || EndsByStandstill(RulesIn(job), track, n, row.endedAt.value, row.end.value))
  {
    hide *;
    RunsKeep(job, events);
    RunsKeepLife(job, events);
    var b := BookAfter(job, events);
    KeptParts(job, After(job, events), b);
    LifeParts(RulesIn(job), Apart(job), b);
    TrackIs(job, events);
    n := ClosingOf(RulesIn(job), b, id);
  }

  lemma ClosingOf(r: Rules, b: Book, id: TripId) returns (n: nat)
    requires EndsFit(r, b) && id in b.tracker.rows && b.tracker.rows[id].endedAt.Some?
    ensures b.tracker.rows[id].end.Some? && n < |b.accepted| && Closing(id, b.accepted[n].recordedAt) in b.closings
    ensures
      var row := b.tracker.rows[id];
      || EndsBySilence(r, b.accepted, n, row.endedAt.value, row.end.value)
      || EndsByStandstill(r, b.accepted, n, row.endedAt.value, row.end.value)
  {
    hide EndsBySilence, EndsByStandstill, Stands;
    assert WasClosed(b.closings, id);
    var k :| 0 <= k < |b.closings| && b.closings[k].id == id;
    var c, row := b.closings[k], b.tracker.rows[id];
    assert ClosingIs(r, b, c);
    var m :| 0 <= m < |b.accepted| && EndedWith(r, b.accepted, m, c.completedAt, row.endedAt.value, row.end.value);
    n := m;
    assert c == Closing(id, b.accepted[n].recordedAt);
  }

  // Over every run: a silence longer than the stop duration never lies between two neighbouring
  // points of one trip.
  lemma {:induction false} SilencePartsTrips(job: Job, events: seq<Event>, i: nat, id: TripId)
    requires Sane(job) && 0 < i < |TrackAfter(job, events)|
    requires
      var t, track := After(job, events).tables, TrackAfter(job, events);
      LinkedTo(t.links, track[i - 1].eventId, id) && LinkedTo(t.links, track[i].eventId, id)
    ensures
      var track := TrackAfter(job, events);
      track[i].recordedAt - track[i - 1].recordedAt <= Seconds(job.cfg.stopMinDurationSec)
  {
    hide *;
    RunsKeep(job, events);
    RunsKeepLife(job, events);
    KeptParts(job, After(job, events), BookAfter(job, events));
    LifeParts(RulesIn(job), Apart(job), BookAfter(job, events));
    RulesInAre(job);
    TrackIs(job, events);
    NeighboursAre(job.cfg, BookAfter(job, events), i, id);
  }

  // Over every run, with movement faster than standstill: once a device has stood for the stop
  // duration, every trip opened by then is closed.
  lemma {:induction false} StandstillsEndTrips(job: Job, events: seq<Event>, k: nat, e: nat, o: Opening)
    requires Sane(job) && Apart(job) && k < e < |TrackAfter(job, events)| && o in BookAfter(job, events).openings
    requires
      var track := TrackAfter(job, events);
      && RestsFrom(track, k, e + 1) && o.confirmedAt <= track[e].recordedAt
      && track[e].recordedAt - track[k].recordedAt >= Seconds(job.cfg.stopMinDurationSec)
    ensures ClosedBy(BookAfter(job, events).closings, o.id, TrackAfter(job, events)[e].recordedAt)
  {
    hide *;
    RunsKeep(job, events);
    RunsKeepLife(job, events);
    var b := BookAfter(job, events);
    KeptParts(job, After(job, events), b);
    LifeParts(RulesIn(job), Apart(job), b);
    RulesInAre(job);
    TrackIs(job, events);
    StandstillEnded(job.cfg, b, k, e);
    AllClosedIs(b, b.accepted[e].recordedAt, o);
  }

  lemma StandstillEnded(cfg: DetectionConfig, b: Book, k: nat, e: nat)
    requires StandstillsEnd(cfg, b) && k < e < |b.accepted| && RestsFrom(b.accepted, k, e + 1)
    requires b.accepted[e].recordedAt - b.accepted[k].recordedAt >= Seconds(cfg.stopMinDurationSec)
    ensures AllClosedBy(b, b.accepted[e].recordedAt)
  {
    hide RestsFrom, AllClosedBy;
  }

  lemma AllClosedIs(b: Book, to: Time, o: Opening)
    requires AllClosedBy(b, to) && o in b.openings && o.confirmedAt <= to
    ensures ClosedBy(b.closings, o.id, to)
  {
    hide ClosedBy;
    var k :| 0 <= k < |b.openings| && b.openings[k] == o;
  }

  // Over every run: the row of the open trip is active, ends at the latest point linked since it
  // was confirmed, and says how long that took; or nothing was linked since, and it says neither
  // more nor less than when it was confirmed.
  lemma {:induction false} OpenTripFollowsItsPoints(job: Job, events: seq<Event>, o: Opening)
    requires Sane(job) && o in BookAfter(job, events).openings
    requires After(job, events).tables.state.activeTripId == Some(o.id)
    ensures OpenRowIs(BookAfter(job, events), o)
    ensures
      var t, b := After(job, events).tables, BookAfter(job, events);
      t.trips == b.tracker.rows && t.links == b.links && TrackAfter(job, events) == b.accepted
  {
    hide *;
    RunsKeep(job, events);
    RunsKeepLife(job, events);
    var b := BookAfter(job, events);
    KeptParts(job, After(job, events), b);
    LifeParts(RulesIn(job), Apart(job), b);
    TrackIs(job, events);
    OpenRowOf(b, o);
  }

  lemma OpenRowOf(b: Book, o: Opening)
    requires OpenRowFits(b) && o in b.openings && b.tracker.st.activeTripId == Some(o.id)
    ensures OpenRowIs(b, o)
  {
    hide OpenRowIs;
    var k :| 0 <= k < |b.openings| && b.openings[k] == o;
  }

  // Over every run: a point that a confirmed trip is linked to again, after one it is not linked
  // to, comes after a standstill and lies beyond the stop radius of where that began.
  lemma {:induction false} TripsResumeBeyondTheRadius(job: Job, events: seq<Event>, o: Opening, i: nat)
    requires Sane(job) && o in BookAfter(job, events).openings && 0 < i < |TrackAfter(job, events)|
    requires
      var t, track := After(job, events).tables, TrackAfter(job, events);
      && track[i].recordedAt > o.confirmedAt
      && LinkedTo(t.links, track[i].eventId, o.id) && !LinkedTo(t.links, track[i - 1].eventId, o.id)
    ensures Leaves(RulesIn(job), TrackAfter(job, events), i)
  {
    hide *;
    RunsKeep(job, events);
    RunsKeepLife(job, events);
    var b := BookAfter(job, events);
    KeptParts(job, After(job, events), b);
    LifeParts(RulesIn(job), Apart(job), b);
    TrackIs(job, events);
    ResumeOf(RulesIn(job), b, o, i);
  }

  lemma ResumeOf(r: Rules, b: Book, o: Opening, i: nat)
    requires ResumesFit(r, b) && o in b.openings && 0 < i < |b.accepted| && b.accepted[i].recordedAt > o.confirmedAt
    requires LinkedTo(b.links, b.accepted[i].eventId, o.id) && !LinkedTo(b.links, b.accepted[i - 1].eventId, o.id)
    ensures Leaves(r, b.accepted, i)
  {
    hide LinkedTo, Leaves;
    var k :| 0 <= k < |b.openings| && b.openings[k] == o;
    assert TakesUp(b, i, b.openings[k]);
  }
}
