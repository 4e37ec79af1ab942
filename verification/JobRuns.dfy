// Whole runs of the worker: raw points arriving in any order, cycles at any clock readings.
// Every run keeps the trip records, their links and the stored track sound.
module JobRuns {
  import opened Domain
  import opened Sorting
  import opened Noise
  import opened NoiseOutput
  import opened NoiseDistance
  import opened NoiseMovement
  import opened TripDetection
  import opened TripRows
  import opened TripRefinement
  import opened TripGrammar
  import opened Storage
  import opened Ledger
  import opened LedgerRefinement
  import opened SavedCycle
  import opened TripRecords
  import opened TrackingJob

  // ---- fetching ----

  ghost predicate DistinctEvents(raw: seq<RawPoint>) {
    forall i, j :: 0 <= i < j < |raw| ==> raw[i].eventId != raw[j].eventId
  }

  lemma {:induction false} InsertKeepsDistinct(x: RawPoint, s: seq<RawPoint>)
    requires DistinctEvents(s) && forall i :: 0 <= i < |s| ==> s[i].eventId != x.eventId
    ensures DistinctEvents(Insert(RawBefore, x, s))
  {
    if s != [] && RawBefore(s[0], x) {
      var rest := Insert(RawBefore, x, s[1..]);
      InsertKeepsDistinct(x, s[1..]);
      forall j | 0 <= j < |rest| ensures rest[j].eventId != s[0].eventId {
        InsertHolds(RawBefore, x, s[1..], j);
      }
      hide Insert;
    }
  }

  lemma {:induction false} SortKeepsDistinct(s: seq<RawPoint>)
    requires DistinctEvents(s)
    ensures DistinctEvents(Sort(RawBefore, s))
  {
    if s != [] {
      SortKeepsDistinct(s[1..]);
      var rest := Sort(RawBefore, s[1..]);
      SameElements(rest, s[1..]);
      forall i | 0 <= i < |rest| ensures rest[i].eventId != s[0].eventId {
        assert rest[i] in rest;
        assert rest[i] in s[1..];
      }
      InsertKeepsDistinct(s[0], rest);
    }
  }

  lemma {:induction false} PendingIsNew(raw: seq<RawPoint>, processed: seq<ProcessedPoint>, since: Time, to: Time)
    requires DistinctEvents(raw)
    ensures DistinctEvents(Pending(raw, processed, since, to))
    ensures forall p :: p in Pending(raw, processed, since, to) ==> p.recordedAt < to && !HasEvent(processed, p.eventId)
  {
    if raw != [] {
      var front := raw[..|raw| - 1];
      PendingIsNew(front, processed, since, to);
      forall i | 0 <= i < |Pending(front, processed, since, to)|
        ensures Pending(front, processed, since, to)[i].eventId != raw[|raw| - 1].eventId
      {
        assert Pending(front, processed, since, to)[i] in front;
      }
      hide HasEvent;
    }
  }

  // What a cycle fetches, in the order the pipeline takes it: new events, old enough.
  lemma FetchedIsNew(raw: seq<RawPoint>, processed: seq<ProcessedPoint>, since: Time, to: Time)
    requires DistinctEvents(raw)
    ensures
      var points := Sort(RawBefore, FetchUnprocessed(raw, processed, since, to));
      && DistinctEvents(points)
      && forall i :: 0 <= i < |points| ==> points[i].recordedAt < to && !HasEvent(processed, points[i].eventId)
  {
    var pending := Pending(raw, processed, since, to);
    PendingIsNew(raw, processed, since, to);
    SortKeepsDistinct(pending);
    SortKeepsDistinct(Sort(RawBefore, pending));
    var points := Sort(RawBefore, Sort(RawBefore, pending));
    SameElements(points, pending);
    hide Pending, HasEvent, Sort, DistinctEvents;
    forall i | 0 <= i < |points|
      ensures points[i].recordedAt < to && !HasEvent(processed, points[i].eventId)
    {
      assert points[i] in points;
    }
  }

  lemma {:induction false} AcceptedBefore(processed: seq<ProcessedPoint>, to: Time)
    ensures Filter((p: ProcessedPoint) => p.isAccepted && p.recordedAt < to, processed)
            == Filter((p: ProcessedPoint) => p.recordedAt < to, AcceptedOnly(processed))
  {
    if processed != [] {
      AcceptedBefore(processed[..|processed| - 1], to);
    }
  }

  lemma AllBefore(accepted: seq<ProcessedPoint>, to: Time)
    requires Ordered(accepted) && accepted != [] && accepted[|accepted| - 1].recordedAt < to
    ensures Filter((p: ProcessedPoint) => p.recordedAt < to, accepted) == accepted
  {
    FilterAll((p: ProcessedPoint) => p.recordedAt < to, accepted);
  }

  lemma {:induction false} BeforeIsPrefix(accepted: seq<ProcessedPoint>, to: Time) returns (n: nat)
    requires Ordered(accepted)
    ensures n <= |accepted|
    ensures Filter((p: ProcessedPoint) => p.recordedAt < to, accepted) == accepted[..n]
    ensures forall i :: n <= i < |accepted| ==> accepted[i].recordedAt >= to
  {
    hide Ordered;
    if accepted == [] {
      n := 0;
    } else if accepted[|accepted| - 1].recordedAt < to {
      n := |accepted|;
      AllBefore(accepted, to);
      assert accepted[..n] == accepted;
    } else {
      var front := accepted[..|accepted| - 1];
      PrefixIsOrdered(accepted, |accepted| - 1);
      n := BeforeIsPrefix(front, to);
      assert accepted[..n] == front[..n];
    }
  }

  lemma OrderedIsSorted(points: seq<ProcessedPoint>)
    requires Ordered(points)
    ensures Sort(ProcessedBefore, points) == points
  {
    hide IdBefore;
    SortOfSorted(ProcessedBefore, points);
  }

  // The history is the last hundred of a leading part of the stored track; all of it lies
  // before the cycle's upper bound and the rest of the track does not.
  lemma HistoryIs(processed: seq<ProcessedPoint>, to: Time) returns (n: nat, older: nat)
    requires Ordered(AcceptedOnly(processed))
    ensures older <= n <= |AcceptedOnly(processed)| && (n > 0 ==> older < n)
    ensures FetchHistory(processed, to) == AcceptedOnly(processed)[older..n]
    ensures forall i :: n <= i < |AcceptedOnly(processed)| ==> AcceptedOnly(processed)[i].recordedAt >= to
  {
    hide AcceptedOnly, Filter, Sort, Ordered;
    var accepted := AcceptedOnly(processed);
    AcceptedBefore(processed, to);
    n := BeforeIsPrefix(accepted, to);
    PrefixIsOrdered(accepted, n);
    OrderedIsSorted(accepted[..n]);
    older := if n <= HISTORY_LIMIT then 0 else n - HISTORY_LIMIT;
    assert accepted[..n][older..] == accepted[older..n];
    assert older == 0 ==> accepted[older..n] == accepted[..n];
  }

  lemma PrefixIsOrdered(points: seq<ProcessedPoint>, n: nat)
    requires Ordered(points) && n <= |points|
    ensures Ordered(points[..n])
  {
  }

  lemma PartOfAccepted(processed: seq<ProcessedPoint>, i: nat, j: nat)
    requires i <= j <= |AcceptedOnly(processed)|
    ensures AcceptedOnly(AcceptedOnly(processed)[i..j]) == AcceptedOnly(processed)[i..j]
  {
    var part := AcceptedOnly(processed)[i..j];
    forall k | 0 <= k < |part| ensures part[k].isAccepted {
      assert part[k] in AcceptedOnly(processed);
    }
    FilterAll((p: ProcessedPoint) => p.isAccepted, part);
  }

  // ---- one cycle ----

  lemma RecordedIsNew(stored: seq<ProcessedPoint>, processed: seq<ProcessedPoint>, points: seq<RawPoint>)
    requires |processed| == |points| && DistinctEvents(points)
    requires forall i :: 0 <= i < |points| ==> Records(processed[i], points[i]) && !HasEvent(stored, points[i].eventId)
    ensures NewEvents(stored, processed)
  {
    hide HasEvent;
  }

  lemma {:induction false} AcceptedKeepsDistinct(points: seq<ProcessedPoint>)
    requires Distinct(points)
    ensures Distinct(AcceptedOnly(points))
  {
    if points != [] {
      var front, p := points[..|points| - 1], points[|points| - 1];
      AcceptedKeepsDistinct(front);
      forall i | 0 <= i < |AcceptedOnly(front)| ensures AcceptedOnly(front)[i].eventId != p.eventId {
        assert AcceptedOnly(front)[i] in front;
      }
    }
  }

  lemma AcceptedIsNew(stored: seq<ProcessedPoint>, processed: seq<ProcessedPoint>)
    requires NewEvents(stored, processed)
    ensures Distinct(AcceptedOnly(processed))
    ensures forall i, j :: 0 <= i < |AcceptedOnly(stored)| && 0 <= j < |AcceptedOnly(processed)| ==>
              AcceptedOnly(stored)[i].eventId != AcceptedOnly(processed)[j].eventId
  {
    AcceptedKeepsDistinct(processed);
    forall i, j | 0 <= i < |AcceptedOnly(stored)| && 0 <= j < |AcceptedOnly(processed)|
      ensures AcceptedOnly(stored)[i].eventId != AcceptedOnly(processed)[j].eventId
    {
      var p, q := AcceptedOnly(stored)[i], AcceptedOnly(processed)[j];
      assert p in stored && q in processed;
      assert HasEvent(stored, p.eventId);
    }
  }

  // A stationary window of non-negative width.
  predicate Sane(job: Job) {
    job.setup.cfg.stationaryWindowSec >= 0
  }

  // Movement is faster than standstill, and the distance is one.
  ghost predicate Apart(job: Job) {
    job.cfg.movementMinSpeedMps > job.setup.cfg.stationaryMaxSpeedMps && IsMetric(job.setup.dist)
  }

  // What a cycle hands to the detector, relative to everything accepted before it.
  ghost predicate Handed(job: Job, stored: seq<ProcessedPoint>, g: Progress) {
    && g.accepted == AcceptedOnly(g.processed) && NewEvents(stored, g.processed)
    && Increasing(AcceptedOnly(stored) + g.accepted)
    && (forall k :: 0 <= k < |g.accepted| ==>
          && g.accepted[k].IsUsable() && g.accepted[k].recordedAt != 0
          && (Apart(job) ==> Calm(job.cfg, AcceptedOnly(stored) + g.accepted[..k], g.accepted[k])))
  }

  lemma IncreasingIsOrdered(points: seq<ProcessedPoint>)
    requires Increasing(points)
    ensures Ordered(points)
  {
    forall i, j | 0 <= i < j < |points| ensures points[i].recordedAt < points[j].recordedAt {
      IncreasingPairs(points, i, j);
    }
  }

  lemma HandedArrives(job: Job, b: Book, stored: seq<ProcessedPoint>, g: Progress)
    requires Handed(job, stored, g) && b.accepted == AcceptedOnly(stored)
    ensures Arrives(b, g.accepted)
  {
    AcceptedIsNew(stored, g.processed);
    hide AcceptedOnly, Calm, NewEvents;
    var all := b.accepted + g.accepted;
    IncreasingIsOrdered(all);
    hide Increasing;
    forall i, j | 0 <= i < j < |g.accepted| ensures g.accepted[i].recordedAt < g.accepted[j].recordedAt {
      assert all[|b.accepted| + i].recordedAt < all[|b.accepted| + j].recordedAt;
    }
    forall i, j | 0 <= i < |b.accepted| && 0 <= j < |g.accepted|
      ensures b.accepted[i].recordedAt < g.accepted[j].recordedAt
    {
      assert all[i].recordedAt < all[|b.accepted| + j].recordedAt;
    }
  }

  // Every accepted point was recorded before the cycle's upper bound.
  lemma AcceptedBeforeBound(g: Progress, points: seq<RawPoint>, to: Time)
    requires |g.processed| == |points| && g.accepted == AcceptedOnly(g.processed)
    requires forall i :: 0 <= i < |points| ==> Records(g.processed[i], points[i]) && points[i].recordedAt < to
    ensures forall k :: 0 <= k < |g.accepted| ==> g.accepted[k].recordedAt < to
  {
    forall k | 0 <= k < |g.accepted| ensures g.accepted[k].recordedAt < to {
      assert g.accepted[k] in g.processed;
    }
  }

  lemma JoinIncreasing(older: seq<ProcessedPoint>, newer: seq<ProcessedPoint>)
    requires Increasing(older) && Increasing(newer)
    requires older != [] && newer != [] ==> older[|older| - 1].recordedAt < newer[0].recordedAt
    ensures Increasing(older + newer)
  {
  }

  lemma CreditsAreNotNegative(s: Setup, history: seq<ProcessedPoint>, raw: seq<RawPoint>, through: Option<Time>)
    requires IsMetric(s.dist) && InputFits(s, history)
    ensures
      var accepted := Pipeline(s, history, raw, through).accepted;
      forall k :: 0 <= k < |accepted| ==> accepted[k].distanceDeltaM >= 0.0
  {
    var points := Sort(RawBefore, raw);
    var anchors, frontier := StepsKeepCredits(s, history, points, through, |points|);
    hide StartOf;
    CreditsFitAll(s, history, Pipeline(s, history, raw, through).accepted, anchors);
  }

  lemma CreditsFitAll(s: Setup, history: seq<ProcessedPoint>, accepted: seq<ProcessedPoint>, anchors: seq<nat>)
    requires CreditsFit(s, history, accepted, anchors, StartOf(history))
    ensures forall k :: 0 <= k < |accepted| ==> accepted[k].distanceDeltaM >= 0.0
  {
    forall k | 0 <= k < |accepted| ensures accepted[k].distanceDeltaM >= 0.0 {
      assert CreditFits(s, history, accepted, anchors, k);
    }
  }

  // The input of a cycle: new events before the bound, and the last accepted time.
  ghost predicate CycleInput(stored: seq<ProcessedPoint>, to: Time, points: seq<RawPoint>, through: Option<Time>) {
    && Increasing(AcceptedOnly(stored))
    && through == (if AcceptedOnly(stored) == [] then None
                   else Some(AcceptedOnly(stored)[|AcceptedOnly(stored)| - 1].recordedAt))
    && DistinctEvents(points)
    && (forall i :: 0 <= i < |points| ==> points[i].recordedAt < to && !HasEvent(stored, points[i].eventId))
  }

  // The history a cycle sees is well ordered, and is the end of the track if anything is accepted.
  lemma HistoryFits(s: Setup, stored: seq<ProcessedPoint>, to: Time) returns (n: nat, older: nat)
    requires Increasing(AcceptedOnly(stored)) && s.cfg.stationaryWindowSec >= 0
    ensures older <= n <= |AcceptedOnly(stored)| && (n > 0 ==> older < n)
    ensures FetchHistory(stored, to) == AcceptedOnly(stored)[older..n]
    ensures forall i :: n <= i < |AcceptedOnly(stored)| ==> AcceptedOnly(stored)[i].recordedAt >= to
    ensures AcceptedOnly(FetchHistory(stored, to)) == FetchHistory(stored, to)
    ensures InputFits(s, FetchHistory(stored, to))
  {
    hide AcceptedOnly, FetchHistory;
    IncreasingIsOrdered(AcceptedOnly(stored));
    n, older := HistoryIs(stored, to);
    PartOfAccepted(stored, older, n);
    SliceIncreasing(AcceptedOnly(stored), older, n);
  }

  // What the pipeline returns, relative to the whole stored track.
  lemma CycleOrders(s: Setup, stored: seq<ProcessedPoint>, to: Time, raw: seq<RawPoint>, through: Option<Time>)
    requires s.cfg.stationaryWindowSec >= 0 && CycleInput(stored, to, Sort(RawBefore, raw), through)
    requires InputFits(s, FetchHistory(stored, to))
    ensures
      var g := Pipeline(s, FetchHistory(stored, to), raw, through);
      && g.accepted == AcceptedOnly(g.processed) && NewEvents(stored, g.processed)
      && Increasing(AcceptedOnly(stored) + g.accepted)
      && (forall k :: 0 <= k < |g.accepted| ==>
            g.accepted[k].IsUsable() && g.accepted[k].recordedAt != 0 && g.accepted[k].recordedAt < to)
  {
    hide FetchHistory, Pipeline, Sort, Sorted, AcceptedOnly, HasEvent, DistinctEvents, RawBefore, Records, InputFits;
    var history, points := FetchHistory(stored, to), Sort(RawBefore, raw);
    var g := Pipeline(s, history, raw, through);
    OutputInOrder(s, history, raw, through);
    RecordedIsNew(stored, g.processed, points);
    AcceptedBeforeBound(g, points, to);
    JoinIncreasing(AcceptedOnly(stored), g.accepted);
  }

  lemma CycleIsCalm(job: Job, stored: seq<ProcessedPoint>, to: Time, raw: seq<RawPoint>, through: Option<Time>,
                    n: nat, older: nat, k: nat)
    requires Sane(job) && Apart(job)
    requires older <= n <= |AcceptedOnly(stored)| && FetchHistory(stored, to) == AcceptedOnly(stored)[older..n]
    requires forall i :: n <= i < |AcceptedOnly(stored)| ==> AcceptedOnly(stored)[i].recordedAt >= to
    requires AcceptedOnly(FetchHistory(stored, to)) == FetchHistory(stored, to)
    requires InputFits(job.setup, FetchHistory(stored, to))
    requires
      var g := Pipeline(job.setup, FetchHistory(stored, to), raw, through);
      && Increasing(AcceptedOnly(stored) + g.accepted)
      && k < |g.accepted| && g.accepted[k].recordedAt < to
    ensures
      var g := Pipeline(job.setup, FetchHistory(stored, to), raw, through);
      Calm(job.cfg, AcceptedOnly(stored) + g.accepted[..k], g.accepted[k])
  {
    hide FetchHistory, Pipeline, AcceptedOnly, IsMetric, MarksFit, Calm, InputFits, Increasing;
    var track, history := AcceptedOnly(stored), FetchHistory(stored, to);
    var g := Pipeline(job.setup, history, raw, through);
    MarksAreDeclarative(job.setup, history, raw, through);
    CreditsAreNotNegative(job.setup, history, raw, through);
    if n < |track| {
      IncreasingPairs(track + g.accepted, n, |track| + k);
    }
    assert track == track[..older] + history;
    assert track[..older] + Track(history, g.accepted) == track + g.accepted;
    assert track[..older] + Track(history, g.accepted[..k]) == track + g.accepted[..k];
    OutputIsCalm(job.setup, job.cfg, track[..older], history, g.accepted, k);
  }

  // A cycle run on a well ordered track hands over calm, later, new points.
  lemma {:induction false} CycleHands(job: Job, stored: seq<ProcessedPoint>, to: Time, raw: seq<RawPoint>,
                                      through: Option<Time>)
    requires Sane(job) && CycleInput(stored, to, Sort(RawBefore, raw), through)
    ensures Handed(job, stored, Pipeline(job.setup, FetchHistory(stored, to), raw, through))
  {
    hide FetchHistory, Pipeline, Sort, AcceptedOnly, HasEvent, DistinctEvents, RawBefore, IsMetric, Calm, Increasing,
         NewEvents, InputFits;
    var n, older := HistoryFits(job.setup, stored, to);
    CycleOrders(job.setup, stored, to, raw, through);
    var g := Pipeline(job.setup, FetchHistory(stored, to), raw, through);
    forall k | 0 <= k < |g.accepted| && Apart(job)
      ensures Calm(job.cfg, AcceptedOnly(stored) + g.accepted[..k], g.accepted[k])
    {
      CycleIsCalm(job, stored, to, raw, through, n, older, k);
    }
  }

  lemma SliceIncreasing(points: seq<ProcessedPoint>, i: nat, j: nat)
    requires Increasing(points) && i <= j <= |points|
    ensures Increasing(points[i..j]) && NonDecreasing(points[i..j])
  {
  }

  // ---- whole runs ----

  datatype Event = Arrival(point: RawPoint) | Tick(now: Time)

  function Next(job: Job, w: World, e: Event): World
    requires w.tables.state.WellFormed()
  {
    match e
    case Arrival(p) => w.(raw := StoreRaw(w.raw, p))
    case Tick(now) => RunOnce(job, w, now)
  }

  lemma NextStaysWellFormed(job: Job, w: World, e: Event)
    requires w.tables.state.WellFormed()
    ensures Next(job, w, e).tables.state.WellFormed()
  {
    if e.Tick? {
      BatchFollows(job.EnvAt(e.now), w.tables.state, w.nextId, Cleaned(job, w, e.now).accepted);
      BatchIsState(Outcome(job.EnvAt(e.now), w.tables.state, w.nextId, Cleaned(job, w, e.now).accepted));
      hide Outcome, Cleaned, BatchOf;
    }
  }

  lemma BatchIsState(outcome: BatchOutcome)
    ensures BatchOf(outcome.newState, outcome.commands).newState == outcome.newState
  {
    BatchIs(outcome.newState, outcome.commands);
  }

  // Any events at all, from an empty database.
  function After(job: Job, events: seq<Event>): (w: World)
    ensures w.tables.state.WellFormed()
  {
    if events == [] then EMPTY_WORLD
    else
      var before := After(job, events[..|events| - 1]);
      NextStaysWellFormed(job, before, events[|events| - 1]);
      Next(job, before, events[|events| - 1])
  }

  // The book that entering every accepted point the moment it is handed over would have kept.
  function BookNext(job: Job, w: World, b: Book, e: Event): Book
    requires b.tracker.st.WellFormed()
  {
    match e
    case Arrival(p) => b
    case Tick(now) =>
      if !Selected(job, w, now) || UpTo(w.tables.state, now) <= From(w.tables.state, now) then b
      else Stamped(job.EnvAt(now), EnterAll(job.EnvAt(now), b, Cleaned(job, w, now).accepted))
  }

  function BookAfter(job: Job, events: seq<Event>): (b: Book)
    ensures b.tracker.st.WellFormed()
  {
    if events == [] then Book(Tracker(INITIAL_STATE, 1, map[], []), [], map[], [], [])
    else BookNext(job, After(job, events[..|events| - 1]), BookAfter(job, events[..|events| - 1]), events[|events| - 1])
  }

  // What every run keeps.
  ghost predicate Kept(job: Job, w: World, b: Book) {
    && Backs(w.tables, b) && b.tracker.nextId == w.nextId && DistinctEvents(w.raw)
    && ClockFits(b) && LinksFit(b) && OpeningsFit(job.cfg, b)
    && (Apart(job) ==> RecordsFit(job.cfg, b))
  }

  lemma StoreKeepsDistinct(raw: seq<RawPoint>, p: RawPoint)
    requires DistinctEvents(raw)
    ensures DistinctEvents(StoreRaw(raw, p))
  {
  }

  lemma ClockIsCycleInput(job: Job, w: World, b: Book, now: Time)
    requires Backs(w.tables, b) && ClockFits(b) && DistinctEvents(w.raw)
    ensures
      var st := w.tables.state;
      CycleInput(w.tables.processed, UpTo(st, now),
                 Sort(RawBefore, FetchUnprocessed(w.raw, w.tables.processed, From(st, now), UpTo(st, now))),
                     st.lastProcessedAt)
  {
    FetchedIsNew(w.raw, w.tables.processed, From(w.tables.state, now), UpTo(w.tables.state, now));
    hide FetchUnprocessed, Sort, AcceptedOnly, HasEvent, DistinctEvents, RawBefore;
  }

  lemma StampKeepsRecords(env: Env, cfg: DetectionConfig, b: Book)
    requires OpeningsFit(cfg, b)
    ensures OpeningsFit(cfg, Stamped(env, b)) && (RecordsFit(cfg, b) ==> RecordsFit(cfg, Stamped(env, b)))
  {
  }

  lemma HandedIsCalm(job: Job, stored: seq<ProcessedPoint>, g: Progress)
    requires Handed(job, stored, g)
    ensures g.accepted == AcceptedOnly(g.processed) && NewEvents(stored, g.processed)
    ensures forall k :: 0 <= k < |g.accepted| ==>
              && g.accepted[k].IsUsable()
              && (Apart(job) ==> Calm(job.cfg, AcceptedOnly(stored) + g.accepted[..k], g.accepted[k]))
  {
  }

  lemma CycleKeepsBook(job: Job, w: World, b: Book, now: Time)
    requires Sane(job) && Kept(job, w, b)
    ensures Handed(job, w.tables.processed, Cleaned(job, w, now))
    ensures
      var env := job.EnvAt(now);
      var after := Stamped(env, EnterAll(env, b, Cleaned(job, w, now).accepted));
      ClockFits(after) && LinksFit(after) && OpeningsFit(job.cfg, after) && (Apart(job) ==> RecordsFit(job.cfg, after))
  {
    ClockIsCycleInput(job, w, b, now);
    var st, env, g := w.tables.state, job.EnvAt(now), Cleaned(job, w, now);
    CycleHands(job, w.tables.processed, UpTo(st, now),
               FetchUnprocessed(w.raw, w.tables.processed, From(st, now), UpTo(st, now)), st.lastProcessedAt);
    hide Cleaned, Pipeline, FetchUnprocessed, FetchHistory, Sort, AcceptedOnly, Handed, Calm, DistinctEvents,
         ClockFits, LinksFit, RecordsFit, OpeningsFit, EnterAll, NewEvents, Arrives, IdsBelow, CycleInput, Stamp, Apart;
    HandedArrives(job, b, w.tables.processed, g);
    HandedIsCalm(job, w.tables.processed, g);
    KeepThroughCycle(env, b, g.accepted, Apart(job));
  }

  lemma KeepThroughCycle(env: Env, b: Book, points: seq<ProcessedPoint>, apart: bool)
    requires ClockFits(b) && LinksFit(b) && OpeningsFit(env.cfg, b) && Arrives(b, points)
    requires apart ==> RecordsFit(env.cfg, b)
    requires IdsBelow(b.tracker.rows, b.tracker.nextId)
    requires forall k :: 0 <= k < |points| ==>
               points[k].IsUsable() && (apart ==> Calm(env.cfg, b.accepted + points[..k], points[k]))
    ensures b.tracker.st.WellFormed()
    ensures
      var after := Stamped(env, EnterAll(env, b, points));
      ClockFits(after) && LinksFit(after) && OpeningsFit(env.cfg, after) && (apart ==> RecordsFit(env.cfg, after))
  {
    hide Calm, LinksFit, RecordsFit, OpeningsFit, EnterAll, Arrives, IdsBelow, Stamp;
    EnterAllKeepsBooks(env, b, points);
    if apart {
      EnterAllKeepsRecords(env, b, points);
    }
    EnterAllKeepsOpenings(env, b, points);
    hide ClockFits;
    StampKeepsBooks(env, EnterAll(env, b, points));
    StampKeepsRecords(env, env.cfg, EnterAll(env, b, points));
  }

  lemma CycleKeeps(job: Job, w: World, b: Book, now: Time)
    requires Sane(job) && Kept(job, w, b) && w.tables.state.WellFormed()
        && UpTo(w.tables.state, now) > From(w.tables.state, now)
    ensures
      var env := job.EnvAt(now);
      Kept(job, Cycle(job, w, now), Stamped(env, EnterAll(env, b, Cleaned(job, w, now).accepted)))
  {
    CycleKeepsBook(job, w, b, now);
    var env, g := job.EnvAt(now), Cleaned(job, w, now);
    HandedArrives(job, b, w.tables.processed, g);
    HandedIsCalm(job, w.tables.processed, g);
    SavedAsEntered(env, w.tables, b, g.processed);
    SavedTrips(env, b, g.accepted);
    hide Cleaned, AcceptedOnly, Handed, DistinctEvents, ClockFits, LinksFit, RecordsFit, OpeningsFit, EnterAll,
         NewEvents, Arrives, IdsBelow, Stamp, Applied, Outcome, BatchOf, Apart;
  }

  lemma NextKeeps(job: Job, w: World, b: Book, e: Event)
    requires Sane(job) && Kept(job, w, b) && w.tables.state.WellFormed()
    ensures Kept(job, Next(job, w, e), BookNext(job, w, b, e))
  {
    hide Cycle, Backs, ClockFits, LinksFit, OpeningsFit, RecordsFit, DistinctEvents, Selected, StoreRaw, Apart, UpTo,
         From;
    match e
    case Arrival(p) => StoreKeepsDistinct(w.raw, p);
    case Tick(now) =>
      if Selected(job, w, now) && UpTo(w.tables.state, now) > From(w.tables.state, now) {
        CycleKeeps(job, w, b, now);
      } else {
        IdleCycle(job, w, now);
      }
  }

  lemma IdleCycle(job: Job, w: World, now: Time)
    requires w.tables.state.WellFormed()
    requires !Selected(job, w, now) || UpTo(w.tables.state, now) <= From(w.tables.state, now)
    ensures RunOnce(job, w, now) == w
  {
    hide Selected, Cleaned;
  }

  lemma {:induction false} RunsKeep(job: Job, events: seq<Event>)
    requires Sane(job)
    ensures Kept(job, After(job, events), BookAfter(job, events))
  {
    if events == [] {
    } else {
      hide Next, BookNext, Kept;
      RunsKeep(job, events[..|events| - 1]);
      NextKeeps(job, After(job, events[..|events| - 1]), BookAfter(job, events[..|events| - 1]), events[|events| - 1]);
    }
  }

  // Over every run, with movement faster than standstill: a trip ends no earlier than it
  // starts and no later than the last processed point, at most one trip is open, and each
  // trip starts after all earlier ones ended.
  lemma {:induction false} TripsRunForward(job: Job, events: seq<Event>)
    requires Sane(job) && Apart(job)
    ensures
      var w := After(job, events);
      var st := w.tables.state;
      && (w.tables.trips != map[] ==> st.lastProcessedAt.Some?)
      && (st.lastProcessedAt.Some? ==>
            RowsFit(w.tables.trips, st.activeTripId, w.nextId, st.lastProcessedAt.value))
  {
    RunsKeep(job, events);
    hide After, BookAfter, LinksFit, OpeningsFit, AcceptedOnly, Apart, Distinct, IdsBelow, RowsFit;
  }

  // Over every run, with movement faster than standstill: a completed trip ended between its
  // start and the point that completed it.
  lemma {:induction false} TripsEndBeforeCompletion(job: Job, events: seq<Event>, id: TripId)
    returns (completedAt: Time)
    requires Sane(job) && Apart(job)
    requires id in After(job, events).tables.trips && After(job, events).tables.trips[id].endedAt.Some?
    ensures Closing(id, completedAt) in BookAfter(job, events).closings
    ensures
      var row := After(job, events).tables.trips[id];
      row.startedAt <= row.endedAt.value <= completedAt
  {
    RunsKeep(job, events);
    TripsRunForward(job, events);
    hide After, BookAfter, LinksFit, OpeningsFit, AcceptedOnly, Apart, Distinct, IdsBelow, ClockFits, SoundAt;
    var b, w := BookAfter(job, events), After(job, events);
    assert WasClosed(b.closings, id);
    var k :| 0 <= k < |b.closings| && b.closings[k].id == id;
    assert ClosingFits(b.tracker.rows, b.closings[k]);
    assert RowFits(w.tables.trips[id], w.tables.state.lastProcessedAt.value);
    completedAt := b.closings[k].completedAt;
  }

  // Over every run: each trip is linked, up to its confirming point, to exactly the accepted
  // points recorded from its start on, however many cycles its candidate phase spanned.
  lemma {:induction false} BackfillIsExact(job: Job, events: seq<Event>, id: TripId) returns (confirmedAt: Time)
    requires Sane(job) && id in After(job, events).tables.trips
    ensures
      var t := After(job, events).tables;
      var startedAt := t.trips[id].startedAt;
      && confirmedAt - startedAt >= Seconds(job.cfg.motionMinDurationSec)
      && Recorded(AcceptedOnly(t.processed), confirmedAt)
      && forall i :: 0 <= i < |t.processed| && t.processed[i].isAccepted && t.processed[i].recordedAt <= confirmedAt ==>
           (LinkedTo(t.links, t.processed[i].eventId, id) <==> startedAt <= t.processed[i].recordedAt)
  {
    hide After, BookAfter, RecordsFit, Apart, ClockFits, IdsBelow, Filter, Recorded, BackfilledExactly, AcceptedOnly;
    RunsKeep(job, events);
    var b, t := BookAfter(job, events), After(job, events).tables;
    assert WasOpened(b.openings, id);
    var k :| 0 <= k < |b.openings| && b.openings[k].id == id;
    confirmedAt := b.openings[k].confirmedAt;
    assert OpeningFits(job.cfg, t.trips, b.openings[k]);
    BackfillOfTables(t, b, b.openings[k]);
  }

  lemma BackfillOfTables(t: Tables, b: Book, o: Opening)
    requires AcceptedOnly(t.processed) == b.accepted && t.links == b.links && BackfilledExactly(b, o)
    ensures forall i ::
              0 <= i < |t.processed| && t.processed[i].isAccepted && t.processed[i].recordedAt <= o.confirmedAt ==>
              (LinkedTo(t.links, t.processed[i].eventId, o.id) <==> o.startedAt <= t.processed[i].recordedAt)
  {
    forall i | 0 <= i < |t.processed| && t.processed[i].isAccepted && t.processed[i].recordedAt <= o.confirmedAt
      ensures LinkedTo(t.links, t.processed[i].eventId, o.id) <==> o.startedAt <= t.processed[i].recordedAt
    {
      assert t.processed[i] in AcceptedOnly(t.processed);
    }
  }
}
