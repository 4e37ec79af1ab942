// What the late-arrival window is for: a cycle waits that long before it reads a point, so a
// point that arrives within the window is judged on its merits and never as a late arrival.
module LateArrivals {
  import opened Domain
  import opened Sorting
  import opened Noise
  import opened NoiseOutput
  import opened TripDetection
  import opened TripRows
  import opened TripRefinement
  import opened Storage
  import opened Ledger
  import opened SavedCycle
  import opened TripRecords
  import opened TrackingJob
  import opened JobRuns

  // ---- which points the pipeline calls late ----

  predicate IsLate(through: Option<Time>, at: Time) {
    through.Some? && at <= through.value
  }

  ghost predicate LateFits(points: seq<RawPoint>, through: Option<Time>, processed: seq<ProcessedPoint>) {
    && |processed| <= |points|
    && forall i :: 0 <= i < |processed| ==>
         && (processed[i].noiseReason == LateArrival <==> IsLate(through, points[i].recordedAt))
         && (processed[i].isAccepted ==> processed[i].noiseReason != LateArrival)
  }

  lemma OutIsLate(s: Setup, history: seq<ProcessedPoint>, raw: RawPoint, next: Option<RawPoint>, through: Option<Time>)
    ensures
      var out := ProcessOne(s, history, raw, next, through);
      && (out.noiseReason == LateArrival <==> IsLate(through, raw.recordedAt))
      && (out.isAccepted ==> out.noiseReason != LateArrival)
  {
    hide DetectStationary, DetectOutlier, Trim, Clamp, AnchorIndex;
  }

  lemma MarksAreNotLate(points: seq<RawPoint>, through: Option<Time>, processed: seq<ProcessedPoint>, since: Time)
    requires LateFits(points, through, processed)
    ensures LateFits(points, through, MarkAcceptedFrom(processed, since))
  {
  }

  lemma StepFindsLate(s: Setup, g: Progress, points: seq<RawPoint>, i: nat, next: Option<RawPoint>,
                      through: Option<Time>)
    requires i == |g.processed| < |points| && LateFits(points, through, g.processed)
    ensures
      var processed := Step(s, g, points[i], next, through).processed;
      |processed| == i + 1 && LateFits(points, through, processed)
  {
    hide ProcessOne, Trim, IsLate;
    OutIsLate(s, g.window, points[i], next, through);
    var out := ProcessOne(s, g.window, points[i], next, through);
    var window := Trim(g.window + [out], points[i].recordedAt, s.cfg.stationaryWindowSec);
    if window != [] {
      MarksAreNotLate(points, through, g.processed + [out], window[0].recordedAt);
    }
  }

  lemma {:induction false} StepsFindLate(s: Setup, history: seq<ProcessedPoint>, points: seq<RawPoint>,
                                         through: Option<Time>, n: nat)
    requires n <= |points|
    ensures
      var processed := Steps(s, history, points, through, n).processed;
      |processed| == n && LateFits(points, through, processed)
  {
    hide Step;
    if n > 0 {
      StepsFindLate(s, history, points, through, n - 1);
      StepFindsLate(s, Steps(s, history, points, through, n - 1), points, n - 1, NextOf(points, n - 1), through);
    }
  }

  // ---- the window of a run ----

  // What a new pair's state starts with, and nothing ever changes.
  const LATE_WINDOW_SEC := INITIAL_STATE.lateArrivalWindowSec

  function Boundary(now: Time): Time {
    now - Seconds(LATE_WINDOW_SEC)
  }

  lemma ObserveKeepsWindow(env: Env, t: Tracker, p: ProcessedPoint)
    requires t.st.WellFormed()
    ensures Observe(env, t, p).st.lateArrivalWindowSec == t.st.lateArrivalWindowSec
  {
    hide InsertTrip, UpdateStats, Complete;
  }

  lemma {:induction false} EnterAllKeepsWindow(env: Env, b: Book, points: seq<ProcessedPoint>)
    requires b.tracker.st.WellFormed()
    ensures EnterAll(env, b, points).tracker.st.lateArrivalWindowSec == b.tracker.st.lateArrivalWindowSec
  {
    hide Observe, Confirming, Completing, NewLinks;
    if points != [] {
      EnterAllKeepsWindow(env, b, points[..|points| - 1]);
      ObserveKeepsWindow(env, EnterAll(env, b, points[..|points| - 1]).tracker, points[|points| - 1]);
    }
  }

  lemma {:induction false} WindowStays(job: Job, events: seq<Event>)
    requires Sane(job)
    ensures After(job, events).tables.state.lateArrivalWindowSec == LATE_WINDOW_SEC
  {
    RunsKeep(job, events);
    BookKeepsWindow(job, events);
    hide After, BookAfter, ClockFits, LinksFit, OpeningsFit, RecordsFit, DistinctEvents, IdsBelow;
  }

  lemma {:induction false} BookKeepsWindow(job: Job, events: seq<Event>)
    ensures BookAfter(job, events).tracker.st.lateArrivalWindowSec == LATE_WINDOW_SEC
  {
    if events != [] {
      var front, e := events[..|events| - 1], events[|events| - 1];
      BookKeepsWindow(job, front);
      if e.Tick? {
        EnterAllKeepsWindow(job.EnvAt(e.now), BookAfter(job, front), Cleaned(job, After(job, front), e.now).accepted);
      }
      hide EnterAll, Cleaned, Selected, After, UpTo, From;
    }
  }

  // ---- one tick ----

  // From where a cycle at this time reads.
  function ReadsFrom(w: World, now: Time): Time {
    if w.tables.state.lastProcessedAt.Some? then w.tables.state.lastProcessedAt.value - Seconds(LATE_WINDOW_SEC)
    else Boundary(now) - MAX_LOOKBACK
  }

  // The pair is read when some unprocessed point is old enough for the job's own setting.
  predicate IsRead(job: Job, w: World, now: Time) {
    Selected(job, w, now) && ReadsFrom(w, now) < Boundary(now)
  }

  // An unprocessed raw point between the two times.
  predicate IsDue(w: World, now: Time, p: RawPoint) {
    p in w.raw && !HasEvent(w.tables.processed, p.eventId) && ReadsFrom(w, now) <= p.recordedAt < Boundary(now)
  }

  // The rows a tick adds: those of the unprocessed raw points between the two times, late
  // exactly when something at or after them was accepted before.
  ghost predicate RowsAdded(w: World, now: Time, rows: seq<ProcessedPoint>) {
    && (forall i :: 0 <= i < |rows| ==>
          && ReadsFrom(w, now) <= rows[i].recordedAt < Boundary(now)
          && (rows[i].noiseReason == LateArrival <==>
                IsLate(w.tables.state.lastProcessedAt, rows[i].recordedAt))
          && exists p :: p in w.raw && Records(rows[i], p) && !HasEvent(w.tables.processed, p.eventId))
    && (forall p :: IsDue(w, now, p) ==> exists i :: 0 <= i < |rows| && Records(rows[i], p))
  }

  lemma FetchedIs(w: World, now: Time)
    requires w.tables.state.lateArrivalWindowSec == LATE_WINDOW_SEC
    ensures
      var st := w.tables.state;
      var points := Sort(RawBefore, FetchUnprocessed(w.raw, w.tables.processed, From(st, now), UpTo(st, now)));
      forall p :: p in points <==> IsDue(w, now, p)
  {
    var st := w.tables.state;
    var pending := Pending(w.raw, w.tables.processed, From(st, now), UpTo(st, now));
    SameElements(Sort(RawBefore, pending), pending);
    SameElements(Sort(RawBefore, Sort(RawBefore, pending)), Sort(RawBefore, pending));
    hide Sort, HasEvent;
  }

  lemma CleanedIs(job: Job, w: World, now: Time)
    requires w.tables.state.lateArrivalWindowSec == LATE_WINDOW_SEC
    requires Sane(job) && exists b :: Kept(job, w, b)
    ensures RowsAdded(w, now, Cleaned(job, w, now).processed)
    ensures NewEvents(w.tables.processed, Cleaned(job, w, now).processed)
  {
    var st, g := w.tables.state, Cleaned(job, w, now);
    var b :| Kept(job, w, b);
    CycleKeepsBook(job, w, b, now);
    ClockIsCycleInput(job, w, b, now);
    var history := FetchHistory(w.tables.processed, UpTo(st, now));
    var fetched := FetchUnprocessed(w.raw, w.tables.processed, From(st, now), UpTo(st, now));
    var points := Sort(RawBefore, fetched);
    FetchedIs(w, now);
    HandedHistory(job, w, b, now);
    OutputInOrder(job.setup, history, fetched, st.lastProcessedAt);
    StepsFindLate(job.setup, history, points, st.lastProcessedAt, |points|);
    HandedIsCalm(job, w.tables.processed, g);
    hide Kept, FetchUnprocessed, FetchHistory, Sort, HasEvent, InputFits, Steps, Handed, CycleInput, NewEvents,
      EnterAll,
      ReadsFrom, Records;
    assert g == Pipeline(job.setup, history, fetched, st.lastProcessedAt);
    RowsAreAdded(w, now, points, g.processed);
  }

  lemma RowsAreAdded(w: World, now: Time, points: seq<RawPoint>, rows: seq<ProcessedPoint>)
    requires forall p :: p in points <==> IsDue(w, now, p)
    requires |rows| == |points| && forall i :: 0 <= i < |points| ==> Records(rows[i], points[i])
    requires LateFits(points, w.tables.state.lastProcessedAt, rows)
    ensures RowsAdded(w, now, rows)
  {
    hide HasEvent, ReadsFrom, IsLate, Boundary;
    forall i | 0 <= i < |rows|
      ensures exists p :: p in w.raw && Records(rows[i], p) && !HasEvent(w.tables.processed, p.eventId)
    {
      assert points[i] in points;
    }
    forall i | 0 <= i < |rows|
      ensures ReadsFrom(w, now) <= rows[i].recordedAt < Boundary(now)
      ensures rows[i].noiseReason == LateArrival <==> IsLate(w.tables.state.lastProcessedAt, rows[i].recordedAt)
    {
      assert points[i] in points;
    }
  }

  lemma HandedHistory(job: Job, w: World, b: Book, now: Time)
    requires Sane(job) && Kept(job, w, b)
    ensures InputFits(job.setup, FetchHistory(w.tables.processed, UpTo(w.tables.state, now)))
  {
    ClockIsCycleInput(job, w, b, now);
    hide Kept, FetchUnprocessed, FetchHistory, Sort, HasEvent, InputFits;
    var n, older := HistoryFits(job.setup, w.tables.processed, UpTo(w.tables.state, now));
  }

  // What a tick does to the stored points.
  lemma TickStores(job: Job, w: World, now: Time) returns (rows: seq<ProcessedPoint>)
    requires w.tables.state.WellFormed() && w.tables.state.lateArrivalWindowSec == LATE_WINDOW_SEC
    requires Sane(job) && exists b :: Kept(job, w, b)
    ensures RunOnce(job, w, now).raw == w.raw
    ensures RunOnce(job, w, now).tables.processed == w.tables.processed + rows && NewEvents(w.tables.processed, rows)
    ensures if IsRead(job, w, now) then RowsAdded(w, now, rows) else rows == [] && RunOnce(job, w, now) == w
  {
    hide Kept, Cleaned, RowsAdded, Selected, Outcome;
    if IsRead(job, w, now) {
      CleanedIs(job, w, now);
      rows := Cleaned(job, w, now).processed;
      CycleAppends(job, w, now);
    } else {
      rows := [];
      assert w.tables.processed + [] == w.tables.processed;
      NothingIsNew(w.tables.processed);
    }
  }

  lemma NothingIsNew(stored: seq<ProcessedPoint>)
    ensures NewEvents(stored, [])
  {
  }

  lemma CycleAppends(job: Job, w: World, now: Time)
    requires w.tables.state.WellFormed() && UpTo(w.tables.state, now) > From(w.tables.state, now)
    requires NewEvents(w.tables.processed, Cleaned(job, w, now).processed)
    ensures Cycle(job, w, now).tables.processed == w.tables.processed + Cleaned(job, w, now).processed
    ensures Cycle(job, w, now).raw == w.raw
  {
    NewEventsAppend(w.tables.processed, Cleaned(job, w, now).processed);
    hide Cleaned, Outcome, BatchOf, NewEvents, InsertProcessed;
  }

  lemma AfterOneMore(job: Job, events: seq<Event>, e: Event)
    ensures After(job, events + [e]) == JobRuns.Next(job, After(job, events), e)
  {
    assert (events + [e])[..|events|] == events;
    hide JobRuns.Next;
  }

  // Over every run: a cycle stores a raw point it has not stored before exactly when the pair is
  // read and the point lies between the last processed point, less the window, and the tick,
  // less the window. It stores nothing else, and calls late what is not after the last
  // processed point.
  lemma {:induction false} CyclesReadTheWindow(job: Job, events: seq<Event>, now: Time)
    returns (rows: seq<ProcessedPoint>)
    requires Sane(job)
    ensures
      var w, after := After(job, events), After(job, events + [Tick(now)]);
      && after.tables.processed == w.tables.processed + rows
      && (if IsRead(job, w, now) then RowsAdded(w, now, rows) else rows == [])
      && (job.cfg.lateArrivalWindowSec <= LATE_WINDOW_SEC ==>
            forall p :: IsDue(w, now, p) ==> IsRead(job, w, now))
  {
    var w := After(job, events);
    RunsKeep(job, events);
    WindowStays(job, events);
    AfterOneMore(job, events, Tick(now));
    hide Kept, After, RowsAdded, IsRead;
    rows := TickStores(job, w, now);
    if job.cfg.lateArrivalWindowSec <= LATE_WINDOW_SEC {
      forall p | IsDue(w, now, p)
        ensures IsRead(job, w, now)
      {
        OldEnoughIsRead(job, w, now, p);
      }
    }
  }

  lemma OldEnoughIsRead(job: Job, w: World, now: Time, p: RawPoint)
    requires job.cfg.lateArrivalWindowSec <= LATE_WINDOW_SEC && w.tables.state.lateArrivalWindowSec == LATE_WINDOW_SEC
    requires IsDue(w, now, p)
    ensures IsRead(job, w, now)
  {
    var i :| 0 <= i < |w.raw| && w.raw[i] == p;
    hide HasEvent;
    assert w.raw[i].recordedAt < now - Seconds(job.cfg.lateArrivalWindowSec);
  }

  // ---- points that arrive in time ----

  // The point arrives before any tick could have read past it: at every earlier tick the window
  // still reached back to it. Where clocks do not go backwards, that is an arrival within the
  // window of its recording. Nothing with its id arrived before.
  ghost predicate Timely(events: seq<Event>, i: nat) {
    && i < |events| && events[i].Arrival?
    && (forall j :: 0 <= j < i && events[j].Tick? ==> Boundary(events[j].now) <= events[i].point.recordedAt)
    && (forall j :: 0 <= j < i && events[j].Arrival? ==> events[j].point.eventId != events[i].point.eventId)
  }

  // As long as nothing was ever accepted, no later tick leaves the point more than the lookback
  // behind.
  ghost predicate WithinLookback(job: Job, events: seq<Event>, i: nat)
    requires i < |events| && events[i].Arrival?
  {
    forall k :: i < k < |events| && events[k].Tick? && After(job, events[..k]).tables.state.lastProcessedAt.None? ==>
      Boundary(events[k].now) - MAX_LOOKBACK <= events[i].point.recordedAt
  }

  // Nothing at or after this time was accepted yet.
  predicate NotPassed(w: World, at: Time) {
    w.tables.state.lastProcessedAt.Some? ==> w.tables.state.lastProcessedAt.value < at
  }

  // Every row with the point's id records it, and not as a late arrival.
  ghost predicate OnItsMerits(w: World, p: RawPoint) {
    forall i :: 0 <= i < |w.tables.processed| && w.tables.processed[i].eventId == p.eventId ==>
      w.tables.processed[i].recordedAt == p.recordedAt && w.tables.processed[i].noiseReason != LateArrival
  }

  // The raw table holds the point, under its id alone.
  ghost predicate Arrived(w: World, p: RawPoint) {
    p in w.raw && forall q :: q in w.raw && q.eventId == p.eventId ==> q == p
  }

  ghost predicate Judged(w: World, p: RawPoint) {
    Arrived(w, p) && OnItsMerits(w, p) && (HasEvent(w.tables.processed, p.eventId) || NotPassed(w, p.recordedAt))
  }

  // What is stored came from the raw table.
  ghost predicate FromRaw(w: World) {
    forall i :: 0 <= i < |w.tables.processed| ==> HasSource(w.raw, w.tables.processed[i])
  }

  ghost predicate HasSource(raw: seq<RawPoint>, row: ProcessedPoint) {
    exists p :: p in raw && Records(row, p)
  }

  lemma LastProcessedIs(job: Job, w: World, b: Book)
    requires Kept(job, w, b)
    ensures
      var accepted, last := AcceptedOnly(w.tables.processed), w.tables.state.lastProcessedAt;
      last == if accepted == [] then None else Some(accepted[|accepted| - 1].recordedAt)
  {
    hide LinksFit, OpeningsFit, RecordsFit, DistinctEvents, IdsBelow, AcceptedOnly;
  }

  // A tick that does not read past a time accepts nothing at or after it.
  lemma TickStaysBehind(job: Job, w: World, after: World, rows: seq<ProcessedPoint>, at: Time)
    requires exists b :: Kept(job, w, b)
    requires exists b :: Kept(job, after, b)
    requires after.tables.processed == w.tables.processed + rows && NotPassed(w, at)
    requires forall i :: 0 <= i < |rows| ==> rows[i].recordedAt < at
    ensures NotPassed(after, at)
  {
    hide *;
    var b :| Kept(job, w, b);
    var c :| Kept(job, after, c);
    LastProcessedIs(job, w, b);
    LastProcessedIs(job, after, c);
    AcceptedAppend(w.tables.processed, rows);
    AcceptedEarlier(rows, at);
    NotPassedIs(w, at);
    NotPassedIs(after, at);
    LastIsBehind(AcceptedOnly(w.tables.processed), AcceptedOnly(rows), at);
  }

  lemma NotPassedIs(w: World, at: Time)
    ensures NotPassed(w, at)
            <==> (w.tables.state.lastProcessedAt.Some? ==> w.tables.state.lastProcessedAt.value < at)
  {
  }

  lemma AcceptedAppend(a: seq<ProcessedPoint>, b: seq<ProcessedPoint>)
    ensures AcceptedOnly(a + b) == AcceptedOnly(a) + AcceptedOnly(b)
  {
    FilterAppend((p: ProcessedPoint) => p.isAccepted, a, b);
  }

  lemma AcceptedEarlier(rows: seq<ProcessedPoint>, at: Time)
    requires forall i :: 0 <= i < |rows| ==> rows[i].recordedAt < at
    ensures forall i :: 0 <= i < |AcceptedOnly(rows)| ==> AcceptedOnly(rows)[i].recordedAt < at
  {
    forall i | 0 <= i < |AcceptedOnly(rows)| ensures AcceptedOnly(rows)[i].recordedAt < at {
      assert AcceptedOnly(rows)[i] in rows;
    }
  }

  lemma LastIsBehind(a: seq<ProcessedPoint>, b: seq<ProcessedPoint>, at: Time)
    requires a != [] ==> a[|a| - 1].recordedAt < at
    ensures (forall i :: 0 <= i < |b| ==> b[i].recordedAt < at) ==>
              a + b != [] ==> (a + b)[|a + b| - 1].recordedAt < at
  {
  }

  lemma RowsKeepRaw(w: World, now: Time, rows: seq<ProcessedPoint>, after: World)
    requires FromRaw(w) && after.raw == w.raw && after.tables.processed == w.tables.processed + rows
    requires rows == [] || RowsAdded(w, now, rows)
    ensures FromRaw(after)
  {
    hide HasEvent, ReadsFrom, IsLate, Records;
    var all := after.tables.processed;
    forall i | 0 <= i < |all| ensures HasSource(after.raw, all[i]) {
      if i < |w.tables.processed| {
        assert all[i] == w.tables.processed[i] && HasSource(w.raw, w.tables.processed[i]);
      } else {
        assert all[i] == rows[i - |w.tables.processed|];
      }
    }
  }

  // A tick before the point is read changes nothing for it; the one that reads it stores it,
  // and not as late.
  lemma TickJudges(job: Job, w: World, now: Time, p: RawPoint)
    requires Sane(job) && (exists b :: Kept(job, w, b)) && (exists b :: Kept(job, RunOnce(job, w, now), b))
    requires w.tables.state.WellFormed() && w.tables.state.lateArrivalWindowSec == LATE_WINDOW_SEC
    requires Judged(w, p)
    requires w.tables.state.lastProcessedAt.None? ==> Boundary(now) - MAX_LOOKBACK <= p.recordedAt
    ensures Judged(RunOnce(job, w, now), p)
    ensures HasEvent(w.tables.processed, p.eventId) ==> HasEvent(RunOnce(job, w, now).tables.processed, p.eventId)
    ensures job.cfg.lateArrivalWindowSec <= LATE_WINDOW_SEC && p.recordedAt < Boundary(now) ==>
              HasEvent(RunOnce(job, w, now).tables.processed, p.eventId)
  {
    hide Kept, RunOnce, RowsAdded, IsRead;
    var rows := TickStores(job, w, now);
    var after := RunOnce(job, w, now);
    HasEventAppend(w.tables.processed, rows, p.eventId);
    if HasEvent(w.tables.processed, p.eventId) {
      KnownStaysJudged(w, rows, after, p);
    } else if p.recordedAt < Boundary(now) {
      DueIs(w, now, p);
      if job.cfg.lateArrivalWindowSec <= LATE_WINDOW_SEC {
        OldEnoughIsRead(job, w, now, p);
      }
      if IsRead(job, w, now) {
        ReadIsJudged(w, now, rows, after, p);
      }
    } else {
      if IsRead(job, w, now) {
        RowsBefore(w, now, rows, p);
      }
      TickStaysBehind(job, w, after, rows, p.recordedAt);
      UnreadStaysJudged(w, rows, after, p);
    }
  }

  lemma DueIs(w: World, now: Time, p: RawPoint)
    requires Arrived(w, p) && !HasEvent(w.tables.processed, p.eventId) && NotPassed(w, p.recordedAt)
    requires w.tables.state.lastProcessedAt.None? ==> Boundary(now) - MAX_LOOKBACK <= p.recordedAt
    requires p.recordedAt < Boundary(now)
    ensures IsDue(w, now, p)
  {
    hide HasEvent;
  }

  lemma HasEventAppend(stored: seq<ProcessedPoint>, rows: seq<ProcessedPoint>, id: EventId)
    ensures HasEvent(stored + rows, id) <==> HasEvent(stored, id) || HasEvent(rows, id)
  {
    var all := stored + rows;
    if HasEvent(stored, id) {
      var i :| 0 <= i < |stored| && stored[i].eventId == id;
      assert all[i].eventId == id;
    }
    if HasEvent(rows, id) {
      var i :| 0 <= i < |rows| && rows[i].eventId == id;
      assert all[|stored| + i].eventId == id;
    }
  }

  lemma KnownStaysJudged(w: World, rows: seq<ProcessedPoint>, after: World, p: RawPoint)
    requires Judged(w, p) && HasEvent(w.tables.processed, p.eventId) && NewEvents(w.tables.processed, rows)
    requires after.raw == w.raw && after.tables.processed == w.tables.processed + rows
    ensures Judged(after, p)
  {
    HasEventAppend(w.tables.processed, rows, p.eventId);
    forall i | 0 <= i < |rows| ensures rows[i].eventId != p.eventId {
    }
  }

  lemma UnreadStaysJudged(w: World, rows: seq<ProcessedPoint>, after: World, p: RawPoint)
    requires Judged(w, p) && NotPassed(after, p.recordedAt)
    requires after.raw == w.raw && after.tables.processed == w.tables.processed + rows
    requires forall i :: 0 <= i < |rows| ==> rows[i].eventId != p.eventId
    ensures Judged(after, p)
  {
    hide HasEvent;
  }

  // Rows of a tick that does not read past the point are of other points, recorded earlier.
  lemma RowsBefore(w: World, now: Time, rows: seq<ProcessedPoint>, p: RawPoint)
    requires RowsAdded(w, now, rows) && Arrived(w, p) && Boundary(now) <= p.recordedAt
    ensures forall i :: 0 <= i < |rows| ==> rows[i].recordedAt < p.recordedAt && rows[i].eventId != p.eventId
  {
    hide HasEvent, ReadsFrom, IsLate;
  }

  lemma ReadIsJudged(w: World, now: Time, rows: seq<ProcessedPoint>, after: World, p: RawPoint)
    requires RowsAdded(w, now, rows) && Judged(w, p) && IsDue(w, now, p)
    requires after.raw == w.raw && after.tables.processed == w.tables.processed + rows
    ensures Judged(after, p) && HasEvent(after.tables.processed, p.eventId)
  {
    HasEventAppend(w.tables.processed, rows, p.eventId);
    var k :| 0 <= k < |rows| && Records(rows[k], p);
    assert HasEvent(rows, p.eventId);
    forall i | 0 <= i < |rows| && rows[i].eventId == p.eventId
      ensures rows[i].recordedAt == p.recordedAt && rows[i].noiseReason != LateArrival
    {
      var q :| q in w.raw && Records(rows[i], q) && !HasEvent(w.tables.processed, q.eventId);
    }
    hide HasEvent, ReadsFrom;
  }

  // ---- whole runs ----

  // What a tick in the middle of a run starts from and leads to.
  lemma RunTick(job: Job, events: seq<Event>, now: Time)
    requires Sane(job)
    ensures
      var w, after := After(job, events), After(job, events + [Tick(now)]);
      && (exists b :: Kept(job, w, b)) && (exists b :: Kept(job, after, b))
      && after == RunOnce(job, w, now) && w.tables.state.lateArrivalWindowSec == LATE_WINDOW_SEC
  {
    hide Kept, After, BookAfter, RunOnce;
    RunsKeep(job, events);
    RunsKeep(job, events + [Tick(now)]);
    WindowStays(job, events);
    AfterOneMore(job, events, Tick(now));
  }

  lemma {:induction false} RunsKeepRaw(job: Job, events: seq<Event>)
    requires Sane(job)
    ensures FromRaw(After(job, events))
  {
    if events != [] {
      hide Kept, After, RunOnce, StoreRaw, RowsAdded, FromRaw, IsRead;
      var front, e := events[..|events| - 1], events[|events| - 1];
      assert events == front + [e];
      RunsKeepRaw(job, front);
      AfterOneMore(job, front, e);
      match e
      case Arrival(p) => ArrivalKeepsRaw(After(job, front), p);
      case Tick(now) =>
        RunTick(job, front, now);
        var rows := TickStores(job, After(job, front), now);
        RowsKeepRaw(After(job, front), now, rows, After(job, events));
    } else {
      EmptyIsFromRaw(job);
    }
  }

  lemma EmptyIsFromRaw(job: Job)
    ensures FromRaw(After(job, []))
  {
  }

  lemma ArrivalKeepsRaw(w: World, p: RawPoint)
    requires FromRaw(w)
    ensures FromRaw(w.(raw := StoreRaw(w.raw, p)))
  {
    hide HasRaw, Records;
    var after := w.(raw := StoreRaw(w.raw, p));
    forall i | 0 <= i < |w.tables.processed| ensures HasSource(after.raw, w.tables.processed[i]) {
      assert HasSource(w.raw, w.tables.processed[i]);
    }
  }

  // Until a point arrives, a run that never reads past it accepts nothing at or after it, and
  // does not know its id.
  lemma {:induction false} NothingPassedYet(job: Job, events: seq<Event>, p: RawPoint)
    requires Sane(job)
    requires forall j :: 0 <= j < |events| && events[j].Tick? ==> Boundary(events[j].now) <= p.recordedAt
    requires forall j :: 0 <= j < |events| && events[j].Arrival? ==> events[j].point.eventId != p.eventId
    ensures NotPassed(After(job, events), p.recordedAt) && !HasRaw(After(job, events).raw, p.eventId)
  {
    if events != [] {
      hide Kept, After, RunOnce, RowsAdded, IsRead, Boundary;
      var front, e := events[..|events| - 1], events[|events| - 1];
      assert events == front + [e];
      NothingPassedYet(job, front, p);
      AfterOneMore(job, front, e);
      match e
      case Arrival(q) =>
      case Tick(now) =>
        RunTick(job, front, now);
        var rows := TickStores(job, After(job, front), now);
        if IsRead(job, After(job, front), now) {
          RowsAreEarlier(After(job, front), now, rows, p.recordedAt);
        }
        TickStaysBehind(job, After(job, front), After(job, events), rows, p.recordedAt);
    }
  }

  lemma RowsAreEarlier(w: World, now: Time, rows: seq<ProcessedPoint>, at: Time)
    requires RowsAdded(w, now, rows) && Boundary(now) <= at
    ensures forall i :: 0 <= i < |rows| ==> rows[i].recordedAt < at
  {
    hide ReadsFrom, IsLate;
  }

  lemma NewIsJudged(w: World, p: RawPoint)
    requires FromRaw(w) && NotPassed(w, p.recordedAt) && !HasRaw(w.raw, p.eventId)
    ensures Judged(w.(raw := StoreRaw(w.raw, p)), p)
  {
    var after := w.(raw := StoreRaw(w.raw, p));
    forall i | 0 <= i < |w.tables.processed| ensures w.tables.processed[i].eventId != p.eventId {
      assert HasSource(w.raw, w.tables.processed[i]);
      var q :| q in w.raw && Records(w.tables.processed[i], q);
    }
    assert after.raw[|w.raw|] == p;
  }

  lemma MoreRawStaysJudged(w: World, p: RawPoint, q: RawPoint)
    requires Judged(w, p)
    ensures Judged(w.(raw := StoreRaw(w.raw, q)), p)
  {
    hide HasEvent;
    if q.eventId == p.eventId {
      assert HasRaw(w.raw, q.eventId);
    }
  }

  ghost predicate ReadSince(events: seq<Event>, i: nat)
    requires i < |events| && events[i].Arrival?
  {
    exists k :: i < k < |events| && events[k].Tick? && events[i].point.recordedAt < Boundary(events[k].now)
  }

  // Over every run: a point that arrives before any tick could have read past it is never
  // stored as a late arrival, and is stored from the first tick on that does, as long as the
  // lookback of a new pair still reaches it.
  lemma {:induction false} TimelyPointIsJudged(job: Job, events: seq<Event>, i: nat)
    requires Sane(job) && Timely(events, i) && WithinLookback(job, events, i)
    ensures
      var t, p := After(job, events).tables, events[i].point;
      && (forall k :: 0 <= k < |t.processed| && t.processed[k].eventId == p.eventId ==>
            t.processed[k].recordedAt == p.recordedAt && t.processed[k].noiseReason != LateArrival)
      && (job.cfg.lateArrivalWindowSec <= LATE_WINDOW_SEC && ReadSince(events, i) ==>
            HasEvent(t.processed, p.eventId))
  {
    TimelyStaysJudged(job, events, i);
    hide After, Arrived, HasEvent, ReadSince, Timely, WithinLookback;
  }

  lemma {:induction false} TimelyStaysJudged(job: Job, events: seq<Event>, i: nat)
    requires Sane(job) && Timely(events, i) && WithinLookback(job, events, i)
    ensures Judged(After(job, events), events[i].point)
    ensures job.cfg.lateArrivalWindowSec <= LATE_WINDOW_SEC && ReadSince(events, i) ==>
              HasEvent(After(job, events).tables.processed, events[i].point.eventId)
  {
    hide Kept, After, RunOnce, StoreRaw, Judged, HasEvent, Boundary;
    var front, e, p := events[..|events| - 1], events[|events| - 1], events[i].point;
    assert events == front + [e];
    AfterOneMore(job, front, e);
    if i == |front| {
      NothingPassedYet(job, front, p);
      RunsKeepRaw(job, front);
      NewIsJudged(After(job, front), p);
    } else {
      FrontIsTimely(job, events, i);
      TimelyStaysJudged(job, front, i);
      match e
      case Arrival(q) => MoreRawStaysJudged(After(job, front), p, q);
      case Tick(now) =>
        RunTick(job, front, now);
        TickJudges(job, After(job, front), now, p);
    }
  }

  lemma FrontIsTimely(job: Job, events: seq<Event>, i: nat)
    requires Timely(events, i) && WithinLookback(job, events, i) && i < |events| - 1
    ensures
      var front, e := events[..|events| - 1], events[|events| - 1];
      && Timely(front, i) && WithinLookback(job, front, i)
      && (ReadSince(events, i) ==>
            ReadSince(front, i) || (e.Tick? && events[i].point.recordedAt < Boundary(e.now)))
      && (e.Tick? && After(job, front).tables.state.lastProcessedAt.None? ==>
            Boundary(e.now) - MAX_LOOKBACK <= events[i].point.recordedAt)
  {
    hide After, Boundary;
    var front := events[..|events| - 1];
    forall k | 0 <= k < |front| ensures front[..k] == events[..k] && front[k] == events[k] {
    }
  }

  // ---- beyond the lookback ----

  // A pair whose first tick comes more than a day after its first point: that tick reads a
  // later point only, and the next one finds the first point late, although it arrived at once.
  lemma {:induction false} OverlookedIsLate(job: Job, p: RawPoint, q: RawPoint, first: Time, second: Time)
    requires Sane(job) && job.cfg.lateArrivalWindowSec <= LATE_WINDOW_SEC && job.setup.cfg.stationaryMinPoints >= 2
    requires p.eventId != q.eventId && Validate(job.setup.cfg, q) == NoNoise
    requires q.recordedAt - Seconds(LATE_WINDOW_SEC) <= p.recordedAt < q.recordedAt
    requires p.recordedAt < Boundary(first) - MAX_LOOKBACK <= q.recordedAt < Boundary(first) && first <= second
    ensures
      var events := [Arrival(p), Arrival(q), Tick(first), Tick(second)];
      && Timely(events, 0) && !WithinLookback(job, events, 0)
      && exists k :: 0 <= k < |After(job, events).tables.processed|
                     && Records(After(job, events).tables.processed[k], p)
                     && After(job, events).tables.processed[k].noiseReason == LateArrival
  {
    hide *;
    var arrived, ticked := [Arrival(p), Arrival(q)], [Arrival(p), Arrival(q)] + [Tick(first)];
    FirstTickSkips(job, p, q, first);
    OverlookedIsTimely(job, p, q, first, second);
    var w := After(job, ticked);
    FirstIsDue(w, p, q, first, second);
    var rows := CyclesReadTheWindow(job, ticked, second);
    LateIsAmong(w, second, rows, p);
    var k :| 0 <= k < |rows| && Records(rows[k], p) && rows[k].noiseReason == LateArrival;
    var all := After(job, ticked + [Tick(second)]).tables.processed;
    assert all[|w.tables.processed| + k] == rows[k];
    assert ticked + [Tick(second)] == [Arrival(p), Arrival(q), Tick(first), Tick(second)];
  }

  lemma FirstIsDue(w: World, p: RawPoint, q: RawPoint, first: Time, second: Time)
    requires w.raw == [p, q] && w.tables.state.lastProcessedAt == Some(q.recordedAt)
    requires !HasEvent(w.tables.processed, p.eventId) && first <= second
    requires q.recordedAt - Seconds(LATE_WINDOW_SEC) <= p.recordedAt < q.recordedAt
    requires p.recordedAt < Boundary(first) - MAX_LOOKBACK
    ensures IsDue(w, second, p) && IsLate(w.tables.state.lastProcessedAt, p.recordedAt)
  {
    hide HasEvent;
    assert w.raw[0] == p;
  }

  lemma OverlookedIsTimely(job: Job, p: RawPoint, q: RawPoint, first: Time, second: Time)
    requires p.eventId != q.eventId && p.recordedAt < Boundary(first) - MAX_LOOKBACK
    ensures
      var events := [Arrival(p), Arrival(q), Tick(first), Tick(second)];
      Timely(events, 0) && !WithinLookback(job, events, 0)
  {
    var events := [Arrival(p), Arrival(q), Tick(first), Tick(second)];
    BothArrive(job, p, q);
    assert events[..2] == [Arrival(p), Arrival(q)];
    hide After, Boundary;
    assert events[2].Tick? && After(job, events[..2]).tables.state.lastProcessedAt.None?;
  }

  lemma LateIsAmong(w: World, now: Time, rows: seq<ProcessedPoint>, p: RawPoint)
    requires RowsAdded(w, now, rows) && IsDue(w, now, p) && IsLate(w.tables.state.lastProcessedAt, p.recordedAt)
    ensures exists k :: 0 <= k < |rows| && Records(rows[k], p) && rows[k].noiseReason == LateArrival
  {
    hide HasEvent, ReadsFrom, IsLate;
    var k :| 0 <= k < |rows| && Records(rows[k], p);
  }

  lemma BothArrive(job: Job, p: RawPoint, q: RawPoint)
    requires p.eventId != q.eventId
    ensures After(job, [Arrival(p), Arrival(q)]) == EMPTY_WORLD.(raw := [p, q])
  {
    AfterOneMore(job, [], Arrival(p));
    AfterOneMore(job, [Arrival(p)], Arrival(q));
    assert [] + [Arrival(p)] == [Arrival(p)];
    assert [Arrival(p)] + [Arrival(q)] == [Arrival(p), Arrival(q)];
    assert [p] + [q] == [p, q];
    assert StoreRaw([], p) == [p];
    assert !HasRaw([p], q.eventId);
  }

  // The first tick accepts q and does not read p.
  lemma FirstTickSkips(job: Job, p: RawPoint, q: RawPoint, first: Time)
    requires Sane(job) && job.cfg.lateArrivalWindowSec <= LATE_WINDOW_SEC && job.setup.cfg.stationaryMinPoints >= 2
    requires p.eventId != q.eventId && Validate(job.setup.cfg, q) == NoNoise && p.recordedAt < q.recordedAt
    requires p.recordedAt < Boundary(first) - MAX_LOOKBACK <= q.recordedAt
    requires q.recordedAt < Boundary(first)
    ensures
      var w := After(job, [Arrival(p), Arrival(q)] + [Tick(first)]);
      && w.raw == [p, q] && w.tables.state.lastProcessedAt == Some(q.recordedAt)
      && !HasEvent(w.tables.processed, p.eventId)
  {
    hide *;
    var arrived := [Arrival(p), Arrival(q)];
    var before, after := After(job, arrived), After(job, arrived + [Tick(first)]);
    BothArrive(job, p, q);
    RunTick(job, arrived, first);
    SecondIsDue(p, q, first);
    OnlyLaterIsCleaned(job, p, q, first);
    OldEnoughIsRead(job, before, first, q);
    ReadIsCycle(job, before, first);
    CleanedOfRun(job, arrived, first);
    CycleAppends(job, before, first);
    OneRowIsLast(job, before, after, Cleaned(job, before, first).processed, p.eventId);
  }

  lemma SecondIsDue(p: RawPoint, q: RawPoint, first: Time)
    requires Boundary(first) - MAX_LOOKBACK <= q.recordedAt < Boundary(first)
    ensures IsDue(EMPTY_WORLD.(raw := [p, q]), first, q)
    ensures EMPTY_WORLD.raw == [] && EMPTY_WORLD.tables.processed == [] && EMPTY_WORLD.tables.state.WellFormed()
  {
    assert [p, q][1] == q;
  }

  lemma ReadIsCycle(job: Job, w: World, now: Time)
    requires w.tables.state.WellFormed() && w.tables.state.lateArrivalWindowSec == LATE_WINDOW_SEC
    requires IsRead(job, w, now)
    ensures UpTo(w.tables.state, now) > From(w.tables.state, now) && RunOnce(job, w, now) == Cycle(job, w, now)
  {
    hide Selected, Cycle;
  }

  lemma OneRowIsLast(job: Job, before: World, after: World, rows: seq<ProcessedPoint>, id: EventId)
    requires before.tables.processed == [] && after.tables.processed == before.tables.processed + rows
    requires |rows| == 1 && rows[0].isAccepted && rows[0].eventId != id && exists b :: Kept(job, after, b)
    ensures after.tables.state.lastProcessedAt == Some(rows[0].recordedAt) && !HasEvent(after.tables.processed, id)
  {
    hide Kept;
    var b :| Kept(job, after, b);
    LastProcessedIs(job, after, b);
    assert after.tables.processed == rows;
    AcceptedOfOne(rows);
    hide AcceptedOnly;
  }

  lemma CleanedOfRun(job: Job, events: seq<Event>, now: Time)
    requires Sane(job)
    ensures NewEvents(After(job, events).tables.processed, Cleaned(job, After(job, events), now).processed)
  {
    hide Kept, After, Cleaned, BookAfter;
    RunsKeep(job, events);
    WindowStays(job, events);
    CleanedIs(job, After(job, events), now);
  }

  lemma AcceptedOfOne(rows: seq<ProcessedPoint>)
    requires |rows| == 1 && rows[0].isAccepted
    ensures AcceptedOnly(rows) == rows
  {
    FilterAll((p: ProcessedPoint) => p.isAccepted, rows);
  }

  lemma OnlyLaterIsCleaned(job: Job, p: RawPoint, q: RawPoint, first: Time)
    requires Sane(job) && job.setup.cfg.stationaryMinPoints >= 2 && Validate(job.setup.cfg, q) == NoNoise
    requires p.recordedAt < Boundary(first) - MAX_LOOKBACK <= q.recordedAt < Boundary(first)
    ensures
      var rows := Cleaned(job, EMPTY_WORLD.(raw := [p, q]), first).processed;
      |rows| == 1 && rows[0].isAccepted && rows[0].recordedAt == q.recordedAt && rows[0].eventId == q.eventId
  {
    var w := EMPTY_WORLD.(raw := [p, q]);
    var since, to := From(w.tables.state, first), UpTo(w.tables.state, first);
    OnlyLaterIsFetched(p, q, since, to);
    assert FetchHistory([], to) == [];
    OnePointIsAccepted(job.setup, q);
    hide Validate, Steps, FetchUnprocessed;
  }

  lemma OnlyLaterIsFetched(p: RawPoint, q: RawPoint, since: Time, to: Time)
    requires p.recordedAt < since <= q.recordedAt < to
    ensures FetchUnprocessed([p, q], [], since, to) == [q]
  {
    assert [p, q][..1] == [p] && [p][..0] == [];
    assert Pending([], [], since, to) == [];
    assert Pending([p], [], since, to) == [];
    assert Pending([p, q], [], since, to) == [q];
  }

  lemma OnePointIsAccepted(s: Setup, q: RawPoint)
    requires Validate(s.cfg, q) == NoNoise && s.cfg.stationaryMinPoints >= 2 && s.cfg.stationaryWindowSec >= 0
    ensures
      var rows := Pipeline(s, [], [q], None).processed;
      |rows| == 1 && rows[0].isAccepted && rows[0].recordedAt == q.recordedAt && rows[0].eventId == q.eventId
  {
    assert Sort(RawBefore, [q]) == [q];
    assert Steps(s, [], [q], None, 0) == Progress([], [], []);
    assert Steps(s, [], [q], None, 1) == Step(s, Progress([], [], []), q, None, None);
    hide Validate, Trim, AnchorIndex;
    var out := ProcessOne(s, [], q, None, None);
    assert out.isAccepted && !out.isStationary by { FirstIsAccepted(s, q); }
  }

  lemma FirstIsAccepted(s: Setup, q: RawPoint)
    requires Validate(s.cfg, q) == NoNoise && s.cfg.stationaryMinPoints >= 2 && s.cfg.stationaryWindowSec >= 0
    ensures
      var out := ProcessOne(s, [], q, None, None);
      out.isAccepted && !out.isStationary && out.recordedAt == q.recordedAt && out.eventId == q.eventId
  {
    hide Validate, AnchorIndex;
    var smoothed := s.smooth(Trim([], q.recordedAt, s.cfg.segmentMaxGapSec), q);
    var out := Fresh(q).(filtered := Some(smoothed), isAccepted := true);
    assert |[] + [out]| == 1;
    DropOfOne(out, out.recordedAt - Seconds(s.cfg.stationaryWindowSec));
  }

  lemma DropOfOne(p: ProcessedPoint, cutoff: Time)
    ensures |DropBefore([] + [p], cutoff)| <= 1
  {
    assert [] + [p] == [p];
  }

  // ---- the watermark ----

  lemma CycleSetsWatermark(job: Job, events: seq<Event>, now: Time)
    requires Sane(job)
    ensures
      var w, after := After(job, events), After(job, events + [Tick(now)]);
      if IsRead(job, w, now)
      then after.tables.state.lastWatermarkAt == Some(Boundary(now)) && after.tables.state.updatedAt == now
      else after.tables.state == w.tables.state
  {
    var w, b := After(job, events), BookAfter(job, events);
    RunsKeep(job, events);
    RunsKeep(job, events + [Tick(now)]);
    WindowStays(job, events);
    BookKeepsWindow(job, events);
    assert (events + [Tick(now)])[..|events|] == events;
    EnterAllKeepsWindow(job.EnvAt(now), b, Cleaned(job, w, now).accepted);
    hide After, BookAfter, EnterAll, Cleaned, Selected, ClockFits, LinksFit, OpeningsFit, RecordsFit, DistinctEvents,
      IdsBelow, Apart;
    assert BookAfter(job, events + [Tick(now)]) == BookNext(job, w, b, Tick(now)) by {
      BookOneMore(job, events, Tick(now));
    }
  }

  lemma BookOneMore(job: Job, events: seq<Event>, e: Event)
    ensures BookAfter(job, events + [e]) == BookNext(job, After(job, events), BookAfter(job, events), e)
  {
    assert (events + [e])[..|events|] == events;
    hide BookNext, After;
  }

  // Over every run: a cycle that reads leaves its boundary as the watermark, and no raw point
  // that it could look back to and that was recorded before the watermark is left unstored.
  lemma {:induction false} WatermarkIsTrue(job: Job, events: seq<Event>, now: Time)
    requires Sane(job) && IsRead(job, After(job, events), now)
    ensures
      var w, after := After(job, events), After(job, events + [Tick(now)]);
      && after.tables.state.lastWatermarkAt == Some(Boundary(now)) && after.raw == w.raw
      && (forall p :: p in after.raw && ReadsFrom(w, now) <= p.recordedAt < Boundary(now) ==>
            HasEvent(after.tables.processed, p.eventId))
  {
    var w, after := After(job, events), After(job, events + [Tick(now)]);
    CycleSetsWatermark(job, events, now);
    var rows := CyclesReadTheWindow(job, events, now);
    RawStays(job, events, now);
    hide After, IsRead, ReadsFrom, Boundary, Records, HasEvent;
    forall p | p in w.raw && ReadsFrom(w, now) <= p.recordedAt < Boundary(now)
      ensures HasEvent(after.tables.processed, p.eventId)
    {
      HasEventAppend(w.tables.processed, rows, p.eventId);
      if !HasEvent(w.tables.processed, p.eventId) {
        assert IsDue(w, now, p);
        var i :| 0 <= i < |rows| && Records(rows[i], p);
        RecordIsEvent(rows, i, p);
      }
    }
  }

  lemma RawStays(job: Job, events: seq<Event>, now: Time)
    ensures After(job, events + [Tick(now)]).raw == After(job, events).raw
  {
    AfterOneMore(job, events, Tick(now));
    hide After, Cleaned, Outcome, Selected, Applied;
  }

  lemma RecordIsEvent(rows: seq<ProcessedPoint>, i: nat, p: RawPoint)
    requires i < |rows| && Records(rows[i], p)
    ensures HasEvent(rows, p.eventId)
  {
  }
}
