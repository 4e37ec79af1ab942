// A device at rest, whatever its fixes look like: when it gets no distance and no trip, and
// when it does.
module RestingDevice {
  import opened Domain
  import opened Sorting
  import opened Noise
  import opened NoiseOutput
  import opened TripDetection
  import opened TripRows
  import opened Storage
  import opened SavedCycle
  import opened TripRecords
  import opened TrackingJob
  import opened JobRuns
  import opened MissingFields
  import opened LateArrivals
  import opened Jitter
  import opened CutWitnesses

  predicate PairUncertain(s: Setup, p: RawPoint, q: RawPoint) {
    Uncertain(s.cfg, s.dist(p.position, q.position), p.accuracyM, q.accuracyM)
  }

  // No two fixes are further apart than their accuracies can tell.
  ghost predicate AllUncertain(s: Setup, fixes: set<RawPoint>) {
    forall p, q :: p in fixes && q in fixes ==> PairUncertain(s, p, q)
  }

  // Each point records one of the fixes.
  ghost predicate Recording(fixes: set<RawPoint>, points: seq<ProcessedPoint>) {
    forall i :: 0 <= i < |points| ==> RecordsOne(fixes, points[i])
  }

  ghost predicate RecordsOne(fixes: set<RawPoint>, p: ProcessedPoint) {
    exists f :: f in fixes && Records(p, f)
  }

  predicate Unmoved(points: seq<ProcessedPoint>) {
    forall i :: 0 <= i < |points| ==> points[i].distanceDeltaM == 0.0
  }

  // ---- one batch ----

  lemma UncertainIsNotCredited(s: Setup, fixes: set<RawPoint>, track: seq<ProcessedPoint>, k: nat, a: nat)
    requires AllUncertain(s, fixes) && Recording(fixes, track) && k < |track| && Jitter.CreditedFrom(s, track, k, a)
    ensures track[k].distanceDeltaM == 0.0
  {
    if a < k {
      assert RecordsOne(fixes, track[a]) && RecordsOne(fixes, track[k]);
      var p :| p in fixes && Records(track[a], p);
      var q :| q in fixes && Records(track[k], q);
      assert PairUncertain(s, p, q);
    }
    hide Uncertain, AllUncertain, Recording;
  }

  lemma AcceptedRecord(fixes: set<RawPoint>, processed: seq<ProcessedPoint>)
    requires Recording(fixes, processed)
    ensures Recording(fixes, AcceptedOnly(processed))
  {
    hide RecordsOne;
    forall i | 0 <= i < |AcceptedOnly(processed)| ensures RecordsOne(fixes, AcceptedOnly(processed)[i]) {
      assert AcceptedOnly(processed)[i] in processed;
    }
  }

  // A batch of fixes no two of which can be told apart, after a history of such, is credited
  // with nothing.
  lemma {:induction false} UncertainBatchIsUnmoved(s: Setup, fixes: set<RawPoint>, history: seq<ProcessedPoint>,
                                                   raw: seq<RawPoint>, through: Option<Time>)
    requires InputFits(s, history) && AllUncertain(s, fixes) && Recording(fixes, history)
    requires forall i :: 0 <= i < |raw| ==> raw[i] in fixes
    ensures Unmoved(Pipeline(s, history, raw, through).accepted)
    ensures Recording(fixes, Pipeline(s, history, raw, through).processed)
  {
    hide *;
    var g := Pipeline(s, history, raw, through);
    BatchRecords(s, fixes, history, raw, through);
    var anchors := CreditsAreExact(s, history, raw, through);
    AcceptedRecord(fixes, g.processed);
    AcceptedRecord(fixes, history);
    TrackRecords(fixes, history, g.accepted);
    UncertainAreUnmoved(s, fixes, history, g.accepted, anchors);
  }

  lemma BatchRecords(s: Setup, fixes: set<RawPoint>, history: seq<ProcessedPoint>, raw: seq<RawPoint>,
                     through: Option<Time>)
    requires InputFits(s, history) && forall i :: 0 <= i < |raw| ==> raw[i] in fixes
    ensures
      var g := Pipeline(s, history, raw, through);
      Recording(fixes, g.processed) && g.accepted == AcceptedOnly(g.processed)
  {
    var g, points := Pipeline(s, history, raw, through), Sort(RawBefore, raw);
    OutputInOrder(s, history, raw, through);
    SameElements(points, raw);
    hide Sort, Pipeline, InputFits, Records;
    forall i | 0 <= i < |g.processed| ensures RecordsOne(fixes, g.processed[i]) {
      assert points[i] in points;
    }
  }

  lemma UncertainAreUnmoved(s: Setup, fixes: set<RawPoint>, history: seq<ProcessedPoint>,
                            accepted: seq<ProcessedPoint>, anchors: seq<nat>)
    requires AllUncertain(s, fixes) && Recording(fixes, Track(history, accepted))
    requires AllCredited(s, history, accepted, anchors)
    ensures Unmoved(accepted)
  {
    hide AllUncertain, Recording, Jitter.CreditedFrom, AcceptedOnly;
    var track, h := Track(history, accepted), |AcceptedOnly(history)|;
    forall k | 0 <= k < |accepted| ensures accepted[k].distanceDeltaM == 0.0 {
      UncertainIsNotCredited(s, fixes, track, h + k, anchors[k]);
      assert track[h + k] == accepted[k];
    }
  }

  lemma TrackRecords(fixes: set<RawPoint>, history: seq<ProcessedPoint>, accepted: seq<ProcessedPoint>)
    requires Recording(fixes, AcceptedOnly(history)) && Recording(fixes, accepted)
    ensures Recording(fixes, Track(history, accepted))
  {
    hide RecordsOne, AcceptedOnly;
  }

  // ---- the detector never starts ----

  lemma {:induction false} UnmovedStaysIdle(env: Env, st: DetectionState, nextId: TripId, points: seq<ProcessedPoint>)
    requires st.WellFormed() && st.state == Idle && Unmoved(points)
    ensures
      var run := ConsumeAll(env, FreshRun(st, nextId), points);
      run.st.state == Idle && run.commands == [] && run.nextId == nextId
  {
    if points != [] {
      var front, p := points[..|points| - 1], points[|points| - 1];
      UnmovedStaysIdle(env, st, nextId, front);
      assert !Moves(env.cfg, p);
      hide Moves;
    }
  }

  // ---- whole runs ----

  ghost predicate Resting(fixes: set<RawPoint>, w: World) {
    && w.tables.state.state == Idle && w.tables.trips == map[] && w.tables.links == map[]
    && (forall i :: 0 <= i < |w.raw| ==> w.raw[i] in fixes)
    && Recording(fixes, w.tables.processed) && Unmoved(AcceptedOnly(w.tables.processed))
  }

  lemma HistoryRecords(fixes: set<RawPoint>, processed: seq<ProcessedPoint>, to: Time)
    requires Recording(fixes, processed)
    ensures Recording(fixes, FetchHistory(processed, to))
  {
    var kept := Filter((p: ProcessedPoint) => p.isAccepted && p.recordedAt < to, processed);
    var sorted := Sort(ProcessedBefore, kept);
    SameElements(sorted, kept);
    hide Sort, RecordsOne;
    forall i | 0 <= i < |FetchHistory(processed, to)| ensures RecordsOne(fixes, FetchHistory(processed, to)[i]) {
      assert FetchHistory(processed, to)[i] in sorted;
    }
  }

  lemma FetchedAreFixes(fixes: set<RawPoint>, w: World, since: Time, to: Time)
    requires forall i :: 0 <= i < |w.raw| ==> w.raw[i] in fixes
    ensures
      var fetched := FetchUnprocessed(w.raw, w.tables.processed, since, to);
      forall i :: 0 <= i < |fetched| ==> fetched[i] in fixes
  {
    var pending := Pending(w.raw, w.tables.processed, since, to);
    var fetched := FetchUnprocessed(w.raw, w.tables.processed, since, to);
    SameElements(fetched, pending);
    hide Sort, Unprocessed;
    forall i | 0 <= i < |fetched| ensures fetched[i] in fixes {
      assert fetched[i] in pending;
    }
  }

  lemma CleanedIsUnmoved(job: Job, fixes: set<RawPoint>, w: World, now: Time)
    requires Sane(job) && AllUncertain(job.setup, fixes) && Resting(fixes, w) && exists b :: Kept(job, w, b)
    ensures
      var g := Cleaned(job, w, now);
      && Unmoved(g.accepted) && g.accepted == AcceptedOnly(g.processed) && Recording(fixes, g.processed)
      && NewEvents(w.tables.processed, g.processed)
  {
    hide *;
    var st := w.tables.state;
    var b :| Kept(job, w, b);
    var since, to := From(st, now), UpTo(st, now);
    var history := FetchHistory(w.tables.processed, to);
    var fetched := FetchUnprocessed(w.raw, w.tables.processed, since, to);
    RestingIs(fixes, w);
    HandedHistory(job, w, b, now);
    HistoryRecords(fixes, w.tables.processed, to);
    FetchedAreFixes(fixes, w, since, to);
    UncertainBatchIsUnmoved(job.setup, fixes, history, fetched, st.lastProcessedAt);
    CycleKeepsBook(job, w, b, now);
    HandedIsCalm(job, w.tables.processed, Cleaned(job, w, now));
    CleanedIsPipeline(job, w, now);
  }

  lemma RestingIs(fixes: set<RawPoint>, w: World)
    requires Resting(fixes, w)
    ensures (forall i :: 0 <= i < |w.raw| ==> w.raw[i] in fixes) && Recording(fixes, w.tables.processed)
  {
    hide Recording, AcceptedOnly, Unmoved;
  }

  lemma CleanedIsPipeline(job: Job, w: World, now: Time)
    ensures
      var st := w.tables.state;
      Cleaned(job, w, now)
      == Pipeline(job.setup, FetchHistory(w.tables.processed, UpTo(st, now)),
                  FetchUnprocessed(w.raw, w.tables.processed, From(st, now), UpTo(st, now)), st.lastProcessedAt)
  {
    hide Pipeline, FetchHistory, FetchUnprocessed;
  }

  lemma RestingCycle(job: Job, fixes: set<RawPoint>, w: World, now: Time)
    requires Sane(job) && AllUncertain(job.setup, fixes) && Resting(fixes, w) && exists b :: Kept(job, w, b)
    requires w.tables.state.WellFormed() && UpTo(w.tables.state, now) > From(w.tables.state, now)
    ensures Resting(fixes, Cycle(job, w, now))
  {
    var st, g := w.tables.state, Cleaned(job, w, now);
    CleanedIsUnmoved(job, fixes, w, now);
    UnmovedStaysIdle(job.EnvAt(now), st, w.nextId, g.accepted);
    NothingToSave(job.EnvAt(now), st, w.nextId, g.accepted);
    var outcome := Outcome(job.EnvAt(now), st, w.nextId, g.accepted);
    NoCommandsNoTrips(w.tables, BatchOf(outcome.newState, outcome.commands).(processedPoints := g.processed));
    CycleAppends(job, w, now);
    MoreIsResting(fixes, w.tables.processed, g.processed);
    hide Cleaned, Outcome, Applied, Recording, Unmoved, AcceptedOnly, Kept;
  }

  lemma MoreIsResting(fixes: set<RawPoint>, stored: seq<ProcessedPoint>, rows: seq<ProcessedPoint>)
    requires Recording(fixes, stored) && Recording(fixes, rows)
    requires Unmoved(AcceptedOnly(stored)) && Unmoved(AcceptedOnly(rows))
    ensures Recording(fixes, stored + rows) && Unmoved(AcceptedOnly(stored + rows))
  {
    AcceptedAppend(stored, rows);
    hide AcceptedOnly, RecordsOne;
  }

  // Over every run: if no two fixes of a device can be told apart within their accuracies and
  // the radii, no distance is ever credited and no trip created, however long it goes on.
  lemma {:induction false} RestingDeviceStaysPut(job: Job, events: seq<Event>, fixes: set<RawPoint>)
    requires Sane(job) && AllUncertain(job.setup, fixes)
    requires forall i :: 0 <= i < |events| && events[i].Arrival? ==> events[i].point in fixes
    ensures
      var t := After(job, events).tables;
      && t.trips == map[] && t.links == map[]
      && forall i :: 0 <= i < |t.processed| && t.processed[i].isAccepted ==> t.processed[i].distanceDeltaM == 0.0
  {
    RunsRest(job, events, fixes);
    var processed := After(job, events).tables.processed;
    forall i | 0 <= i < |processed| && processed[i].isAccepted ensures processed[i].distanceDeltaM == 0.0 {
      assert processed[i] in AcceptedOnly(processed);
    }
    hide After, Recording, AllUncertain;
  }

  lemma {:induction false} RunsRest(job: Job, events: seq<Event>, fixes: set<RawPoint>)
    requires Sane(job) && AllUncertain(job.setup, fixes)
    requires forall i :: 0 <= i < |events| && events[i].Arrival? ==> events[i].point in fixes
    ensures Resting(fixes, After(job, events))
  {
    hide AllUncertain, Kept, Cycle, Selected, RecordsOne, UpTo, From;
    if events != [] {
      var front, e := events[..|events| - 1], events[|events| - 1];
      RunsRest(job, front, fixes);
      RunsKeep(job, front);
      var w := After(job, front);
      if e.Tick? && UpTo(w.tables.state, e.now) > From(w.tables.state, e.now) {
        RestingCycle(job, fixes, w, e.now);
      } else if e.Tick? {
        IdleStays(job, w, e.now);
      }
    }
  }

  lemma IdleStays(job: Job, w: World, now: Time)
    requires w.tables.state.WellFormed() && UpTo(w.tables.state, now) <= From(w.tables.state, now)
    ensures RunOnce(job, w, now) == w
  {
    hide Selected, Cleaned, UpTo, From;
  }

  // ---- two fixes ----

  // The second fix follows the first within one segment, at a speed its activity allows.
  predicate Follows(s: Setup, p: RawPoint, q: RawPoint) {
    && Validate(s.cfg, p) == NoNoise && Validate(s.cfg, q) == NoNoise
    && 0 < q.recordedAt - p.recordedAt <= Seconds(s.cfg.segmentMaxGapSec)
    && s.dist(p.position, q.position) / InSeconds(q.recordedAt - p.recordedAt) <= MaxSpeed(s.cfg, q.activityType)
  }

  lemma SecondIsAccepted(s: Setup, first: ProcessedPoint, p: RawPoint, q: RawPoint)
    requires Follows(s, p, q) && Records(first, p) && s.cfg.stationaryMinPoints >= 3 && s.cfg.stationaryWindowSec >= 0
    ensures
      var out := ProcessOne(s, [first], q, None, None);
      out.isAccepted && !out.isStationary
  {
    hide Validate, MaxSpeed, Clamp, AnchorIndex, Trim;
    WindowIsShort(s, first, Fresh(q));
    forall out: ProcessedPoint
      ensures !DetectStationary(s, Trim([first] + [out], out.recordedAt, s.cfg.stationaryWindowSec)) {
      WindowIsShort(s, first, out);
    }
  }

  lemma WindowIsShort(s: Setup, first: ProcessedPoint, out: ProcessedPoint)
    ensures |Trim([first] + [out], out.recordedAt, s.cfg.stationaryWindowSec)| <= 2
  {
    DropIsSuffix([first] + [out], out.recordedAt - Seconds(s.cfg.stationaryWindowSec));
    hide DropBefore;
  }

  // A new device with two fixes: the second is credited with the whole distance exactly when
  // the two can be told apart.
  lemma {:induction false} TwoFixesAreCredited(s: Setup, p: RawPoint, q: RawPoint)
    requires Follows(s, p, q) && s.cfg.stationaryMinPoints >= 3 && s.cfg.stationaryWindowSec >= 0
    ensures
      var accepted := Pipeline(s, [], [p, q], None).accepted;
      && |accepted| == 2 && accepted[0].distanceDeltaM == 0.0
      && accepted[1].distanceDeltaM == if PairUncertain(s, p, q) then 0.0 else s.dist(p.position, q.position)
  {
    var first := Plain(p, s.smooth([], p), 0.0, 0.0, NoNoise);
    var out := ProcessOne(s, [first], q, None, None);
    TwoAreSorted(p, q);
    FirstPoint(s, p, Some(q));
    SecondIsAccepted(s, first, p, q);
    OutIsCredited(s, [first], q, None, None);
    hide ProcessOne, Validate, Trim, Step, Sort;
    StepsOn(s, [], [p, q], None, 0);
    StepsOn(s, [], [p, q], None, 1);
    StartsEmpty(s, [p, q], None);
    PushIsPlain(s, first, q, out);
  }

  lemma PushIsPlain(s: Setup, first: ProcessedPoint, q: RawPoint, out: ProcessedPoint)
    requires ProcessOne(s, [first], q, None, None) == out && out.isAccepted && !out.isStationary
    ensures Step(s, Progress([first], [first], [first]), q, None, None).accepted == [first, out]
  {
    hide ProcessOne, Trim;
    assert [first] + [out] == [first, out];
  }

  lemma TwoAreSorted(p: RawPoint, q: RawPoint)
    requires p.recordedAt < q.recordedAt
    ensures Sort(RawBefore, [p, q]) == [p, q]
  {
    assert Sorted(RawBefore, [p, q]);
    SortOfSorted(RawBefore, [p, q]);
    hide Sort;
  }

  predicate DrawnFrom(fixes: set<RawPoint>, raw: seq<RawPoint>) {
    forall i :: 0 <= i < |raw| ==> raw[i] in fixes
  }

  // Of fixes that come one after the other in some order, every batch is credited with nothing
  // exactly when no two of them can be told apart.
  lemma {:induction false} UncertaintyIsExact(s: Setup, fixes: set<RawPoint>)
    requires IsMetric(s.dist) && s.cfg.noiseMinRadiusM > 0.0
    requires s.cfg.stationaryMinPoints >= 3 && s.cfg.stationaryWindowSec >= 0
    requires forall p, q :: p in fixes && q in fixes ==> p == q || Follows(s, p, q) || Follows(s, q, p)
    ensures AllUncertain(s, fixes)
            <==> forall raw :: DrawnFrom(fixes, raw) ==> Unmoved(Pipeline(s, [], raw, None).accepted)
  {
    hide Pipeline, Follows, PairUncertain, DrawnFrom, Unmoved;
    if AllUncertain(s, fixes) {
      forall raw | DrawnFrom(fixes, raw) ensures Unmoved(Pipeline(s, [], raw, None).accepted) {
        FreshBatchIsUnmoved(s, fixes, raw);
      }
    }
    if forall raw :: DrawnFrom(fixes, raw) ==> Unmoved(Pipeline(s, [], raw, None).accepted) {
      forall p, q | p in fixes && q in fixes ensures PairUncertain(s, p, q) {
        if p == q {
          SamePlaceIsUncertain(s, p);
        } else if Follows(s, p, q) {
          PairIsFrom(fixes, p, q);
          UnmovedPairIsUncertain(s, p, q);
        } else {
          PairIsFrom(fixes, q, p);
          UnmovedPairIsUncertain(s, q, p);
          UncertaintyIsSymmetric(s, q, p);
        }
      }
    }
  }

  lemma FreshBatchIsUnmoved(s: Setup, fixes: set<RawPoint>, raw: seq<RawPoint>)
    requires s.cfg.stationaryWindowSec >= 0 && AllUncertain(s, fixes) && DrawnFrom(fixes, raw)
    ensures Unmoved(Pipeline(s, [], raw, None).accepted)
  {
    hide Pipeline, AllUncertain, Unmoved;
    UncertainBatchIsUnmoved(s, fixes, [], raw, None);
  }

  lemma SamePlaceIsUncertain(s: Setup, p: RawPoint)
    requires IsMetric(s.dist) && s.cfg.noiseMinRadiusM > 0.0
    ensures PairUncertain(s, p, p)
  {
  }

  lemma PairIsFrom(fixes: set<RawPoint>, p: RawPoint, q: RawPoint)
    requires p in fixes && q in fixes
    ensures DrawnFrom(fixes, [p, q])
  {
  }

  lemma UnmovedPairIsUncertain(s: Setup, p: RawPoint, q: RawPoint)
    requires Follows(s, p, q) && s.cfg.stationaryMinPoints >= 3 && s.cfg.stationaryWindowSec >= 0
    requires s.cfg.noiseMinRadiusM > 0.0 && Unmoved(Pipeline(s, [], [p, q], None).accepted)
    ensures PairUncertain(s, p, q)
  {
    hide Pipeline, Follows;
    TwoFixesAreCredited(s, p, q);
  }

  lemma UncertaintyIsSymmetric(s: Setup, p: RawPoint, q: RawPoint)
    requires IsMetric(s.dist) && PairUncertain(s, p, q)
    ensures PairUncertain(s, q, p)
  {
  }

  // ---- near the first fix is not enough ----

  function Imprecise(id: EventId, second: int, metre: real): RawPoint {
    RawPoint(id, Seconds(second), GeoPoint(metre, 0.0), 40.0, Some(1.0), "unknown", None)
  }

  // 25 metres to one side of the first fix, then 25 to the other, after the first has left the
  // sliding window.
  function Drifting(): seq<RawPoint> {
    [Imprecise("a", 1, 0.0), Imprecise("b", 101, 25.0), Imprecise("c", 121, -25.0)]
  }

  function DriftingSetup(): Setup {
    Setup(DEFAULT_NOISE_CONFIG, Along, Unsmoothed)
  }

  // With the defaults, every fix may be within the uncertainty of the first and the device
  // still be credited with 50 metres: the jitter radius only counts from the anchor in the
  // sliding window, and the first fix drops out of it.
  lemma {:induction false} NearTheFirstIsNotEnough()
    ensures
      var s, raw := DriftingSetup(), Drifting();
      && IsMetric(s.dist)
      && (forall i :: 0 <= i < |raw| ==> PairUncertain(s, raw[0], raw[i]))
      && !PairUncertain(s, raw[1], raw[2])
      && |Pipeline(s, [], raw, None).accepted| == 3 && Pipeline(s, [], raw, None).accepted[2].distanceDeltaM == 50.0
  {
    var s, raw := DriftingSetup(), Drifting();
    DriftingIsSorted();
    FirstDrift();
    SecondDrift();
    ThirdDrift();
    hide Step, ProcessOne;
    StepsOn(s, [], raw, None, 0);
    StepsOn(s, [], raw, None, 1);
    StepsOn(s, [], raw, None, 2);
    StartsEmpty(s, raw, None);
  }

  function DriftA(): ProcessedPoint {
    Plain(Imprecise("a", 1, 0.0), GeoPoint(0.0, 0.0), 0.0, 0.0, NoNoise)
  }

  function DriftB(): ProcessedPoint {
    Plain(Imprecise("b", 101, 25.0), GeoPoint(25.0, 0.0), 0.25, 0.0, NoiseReason.Jitter)
  }

  function DriftC(): ProcessedPoint {
    Plain(Imprecise("c", 121, -25.0), GeoPoint(-25.0, 0.0), 2.5, 50.0, NoNoise)
  }

  lemma DriftingIsSorted()
    ensures Sort(RawBefore, Drifting()) == Drifting()
  {
    assert Sorted(RawBefore, Drifting());
    SortOfSorted(RawBefore, Drifting());
    hide Sort;
  }

  lemma FirstDrift()
    ensures
      var s, raw := DriftingSetup(), Drifting();
      Step(s, Progress([], [], []), raw[0], Some(raw[1]), None) == Progress([DriftA()], [DriftA()], [DriftA()])
  {
    FirstPoint(DriftingSetup(), Drifting()[0], Some(Drifting()[1]));
    hide Step, ProcessOne;
  }

  lemma SecondDrift()
    ensures
      var s, raw := DriftingSetup(), Drifting();
      Step(s, Progress([DriftA()], [DriftA()], [DriftA()]), raw[1], Some(raw[2]), None)
      == Progress([DriftB()], [DriftA(), DriftB()], [DriftA(), DriftB()])
  {
    var s, raw, a, b := DriftingSetup(), Drifting()[1], DriftA(), DriftB();
    assert Measured(s, [a], raw, b.(noiseReason := NoNoise)) == b;
    assert [a] + [b] == [a, b];
    assert DropBefore([a, b], Seconds(101) - Seconds(60)) == [b];
    assert Settled(s, [a], b) == b;
    CutWitnesses.Judged(s, [a], raw, Some(Drifting()[2]), 0.25);
    hide ProcessOne, Step, DetectStationary, Settled, Measured;
    Pushes(s, Progress([a], [a], [a]), raw, Some(Drifting()[2]), b, [b]);
  }

  lemma ThirdDrift()
    ensures
      var s, raw := DriftingSetup(), Drifting();
      Step(s, Progress([DriftB()], [DriftA(), DriftB()], [DriftA(), DriftB()]), raw[2], None, None).accepted
      == [DriftA(), DriftB(), DriftC()]
  {
    var s, raw, a, b, c := DriftingSetup(), Drifting()[2], DriftA(), DriftB(), DriftC();
    assert Measured(s, [b], raw, c.(distanceDeltaM := 0.0)) == c;
    assert [b] + [c] == [b, c];
    assert DropBefore([b, c], Seconds(121) - Seconds(60)) == [b, c];
    assert Settled(s, [b], c) == c;
    CutWitnesses.Judged(s, [b], raw, None, 2.5);
    hide ProcessOne, Step, DetectStationary, Settled, Measured;
    Pushes(s, Progress([b], [a, b], [a, b]), raw, None, c, [b, c]);
    assert [a, b] + [c] == [a, b, c];
  }
}
