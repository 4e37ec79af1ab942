// One detection cycle as the database sees it: the batch built from the commands, saved in
// phases with the backfill, leaves what entering the points one at a time would leave. So a
// cycle over many points may be cut into cycles over fewer, and the tables do not tell the
// difference, even when the cut falls inside the candidate phase of a trip.
module SavedCycle {
  import opened Domain
  import opened TripDetection
  import opened TripRows
  import opened TripRefinement
  import opened TripGrammar
  import opened Storage
  import opened Ledger
  import opened LedgerRefinement
  import opened Noise

  // ---- the backfill of a batch ----

  lemma {:induction false} FirstPointIsEarliest(points: seq<TripPoint>, id: TripId)
    requires forall i :: 0 <= i < |points| ==> points[i].recordedAt != 0
    ensures
      var first := FirstPointAt(points, id);
      && (first == 0 <==> forall i :: 0 <= i < |points| ==> points[i].tripId != id)
      && (first != 0 ==> exists i :: 0 <= i < |points| && points[i].tripId == id && points[i].recordedAt == first)
      && (first != 0 ==> forall i :: 0 <= i < |points| && points[i].tripId == id ==> first <= points[i].recordedAt)
  {
    if points != [] {
      var front, p := points[..|points| - 1], points[|points| - 1];
      FirstPointIsEarliest(front, id);
      assert forall i :: 0 <= i < |front| ==> points[i] == front[i];
      if FirstPointAt(front, id) != 0 {
        var i :| 0 <= i < |front| && front[i].tripId == id && front[i].recordedAt == FirstPointAt(front, id);
        assert points[i].recordedAt == FirstPointAt(front, id);
      }
    }
  }

  // The first point of a created trip in the batch is the first of the creation's own points.
  lemma CreationStartsTrip(b: Book, seen: seq<ProcessedPoint>, points: seq<TripPoint>, nextId: TripId,
                           commands: seq<Command>, c: Command)
    requires Arrives(b, seen) && CreationsFit(seen, points, nextId, commands) && c in commands && c.CreateTrip?
    ensures c.createPoints != [] && FirstPointAt(points, c.trip.id) == c.createPoints[0].recordedAt
  {
    forall i | 0 <= i < |points| ensures points[i].recordedAt != 0 {
      assert Recorded(seen, points[i].recordedAt);
    }
    assert CreationFits(seen, points, nextId, c);
    hide Arrives;
    FirstPointIsEarliest(points, c.trip.id);
  }

  // What the backfill reads: the stored accepted points since the start, because the batch's
  // own points are either older than the start or not older than the first linked point.
  lemma {:induction false} BackfillReads(processed: seq<ProcessedPoint>, accepted: seq<ProcessedPoint>, since: Time,
                                         first: Time)
    requires accepted == AcceptedOnly(processed)
    ensures Filter((p: ProcessedPoint) => Backfills(p, since, first), processed)
            == Filter((p: ProcessedPoint) => since <= p.recordedAt < first, accepted)
  {
    if processed != [] {
      BackfillReads(processed[..|processed| - 1], AcceptedOnly(processed[..|processed| - 1]), since, first);
    }
  }

  lemma {:induction false} BeforeFirst(points: seq<ProcessedPoint>, since: Time, first: Time)
    requires forall i :: 0 <= i < |points| ==> points[i].recordedAt < first
    ensures Filter((p: ProcessedPoint) => since <= p.recordedAt < first, points) == Since(points, since)
  {
    if points != [] {
      BeforeFirst(points[..|points| - 1], since, first);
    }
  }

  lemma BackfillIsOld(b: Book, seen: seq<ProcessedPoint>, stored: seq<ProcessedPoint>, since: Time, first: Time)
    requires AcceptedOnly(stored) == b.accepted + seen && Arrives(b, seen) && Recorded(seen, first)
    requires forall i :: 0 <= i < |seen| && since <= seen[i].recordedAt ==> first <= seen[i].recordedAt
    ensures Filter((p: ProcessedPoint) => Backfills(p, since, first), stored) == Since(b.accepted, since)
  {
    BackfillReads(stored, b.accepted + seen, since, first);
    var between := (p: ProcessedPoint) => since <= p.recordedAt < first;
    FilterAppend(between, b.accepted, seen);
    FilterNone(between, seen);
    var i :| 0 <= i < |seen| && seen[i].recordedAt == first;
    assert forall j :: 0 <= j < |b.accepted| ==> b.accepted[j].recordedAt < first;
    BeforeFirst(b.accepted, since, first);
    hide Filter, AcceptedOnly;
    assert Since(b.accepted, since) + [] == Since(b.accepted, since);
  }

  // A batch whose creations are those of the commands, each with its own start.
  ghost predicate Remembers(batch: DetectionBatch, commands: seq<Command>) {
    forall c :: c in commands && c.CreateTrip? ==>
      c.trip.id in batch.backfillSince && batch.backfillSince[c.trip.id] == c.backfillSince
  }

  lemma {:induction false} BatchRemembers(lane: Lane, st: DetectionState, commands: seq<Command>)
    requires Follows(lane, commands)
    ensures Remembers(BatchOf(st, commands), commands)
    ensures forall id :: id in BatchOf(st, commands).backfillSince ==> id < AdvanceAll(lane, commands).next
    ensures BatchOf(st, commands).newPoints == PointsOf(commands)
  {
    if commands != [] {
      var front, c := commands[..|commands| - 1], commands[|commands| - 1];
      BatchRemembers(lane, st, front);
      assert commands == front + [c];
    }
  }

  lemma CreationBackfill(b: Book, seen: seq<ProcessedPoint>, stored: seq<ProcessedPoint>, batch: DetectionBatch,
                         nextId: TripId, all: seq<Command>, c: Command, links: LinkTable)
    requires AcceptedOnly(stored) == b.accepted + seen && Arrives(b, seen)
    requires CreationsFit(seen, batch.newPoints, nextId, all) && Remembers(batch, all)
    requires c in all && c.CreateTrip?
    ensures BackfillTrip(links, stored, batch, c.trip) == LinkAll(links, OldPoints(b.accepted, c))
  {
    hide Filter, Arrives, LinkAll, Since, TripPointsOf, AcceptedOnly, FirstPointAt, CarriedFit;
    CreationStartsTrip(b, seen, batch.newPoints, nextId, all, c);
    assert CreationFits(seen, batch.newPoints, nextId, c);
    BackfillIsOld(b, seen, stored, c.backfillSince, c.createPoints[0].recordedAt);
  }

  lemma BackfillOneMore(links: LinkTable, stored: seq<ProcessedPoint>, b: DetectionBatch, trips: seq<Trip>, trip: Trip)
    ensures BackfillTrips(links, stored, b, trips + [trip])
            == BackfillTrip(BackfillTrips(links, stored, b, trips), stored, b, trip)
  {
    assert (trips + [trip])[..|trips + [trip]| - 1] == trips;
  }

  lemma {:induction false} BackfillsAreOld(b: Book, seen: seq<ProcessedPoint>, stored: seq<ProcessedPoint>,
                                           batch: DetectionBatch,
                          nextId: TripId, all: seq<Command>, commands: seq<Command>, links: LinkTable)
    requires AcceptedOnly(stored) == b.accepted + seen && Arrives(b, seen)
    requires CreationsFit(seen, batch.newPoints, nextId, all) && Remembers(batch, all)
    requires forall c :: c in commands ==> c in all
    ensures BackfillTrips(links, stored, batch, BatchOf(batch.newState, commands).newTrips)
            == LinkAll(links, AllOldPoints(b.accepted, commands))
  {
    hide AcceptedOnly, Arrives, CreationsFit, Remembers, LinkAll, OldPoints, BackfillTrip;
    if commands != [] {
      var front, c := commands[..|commands| - 1], commands[|commands| - 1];
      BackfillsAreOld(b, seen, stored, batch, nextId, all, front, links);
      var reached := AllOldPoints(b.accepted, front);
      if c.CreateTrip? {
        CreationBackfill(b, seen, stored, batch, nextId, all, c, LinkAll(links, reached));
        BackfillOneMore(links, stored, batch, BatchOf(batch.newState, front).newTrips, c.trip);
        LinkAllAppend(links, reached, OldPoints(b.accepted, c));
      } else {
        NoOldPoints(b.accepted, c);
        assert reached + [] == reached;
      }
    } else {
      NothingLinked(links);
    }
  }

  lemma NoOldPoints(stored: seq<ProcessedPoint>, c: Command)
    requires !c.CreateTrip?
    ensures OldPoints(stored, c) == []
  {
  }

  lemma NothingLinked(links: LinkTable)
    ensures LinkAll(links, []) == links
  {
  }

  // ---- a whole detection cycle ----

  // The stored tables say what the book says.
  ghost predicate Backs(t: Tables, b: Book) {
    && t.trips == b.tracker.rows && t.links == b.links && t.state == b.tracker.st
    && AcceptedOnly(t.processed) == b.accepted
    && IdsBelow(t.trips, b.tracker.nextId)
  }

  ghost predicate IdsBelow(rows: TripTable, bound: TripId) {
    forall id :: id in rows ==> id < bound
  }

  // Points not stored yet, each with its own event id.
  ghost predicate NewEvents(stored: seq<ProcessedPoint>, points: seq<ProcessedPoint>) {
    && (forall i, j :: 0 <= i < j < |points| ==> points[i].eventId != points[j].eventId)
    && (forall i :: 0 <= i < |points| ==> !HasEvent(stored, points[i].eventId))
  }

  lemma {:induction false} NewEventsAppend(stored: seq<ProcessedPoint>, points: seq<ProcessedPoint>)
    requires NewEvents(stored, points)
    ensures InsertProcessed(stored, points) == stored + points
  {
    if points == [] {
      assert stored + [] == stored;
    } else {
      var front, p := points[..|points| - 1], points[|points| - 1];
      NewEventsAppend(stored, front);
      assert (stored + front) + [p] == stored + points;
    }
  }

  // The batch one detection cycle saves.
  function CycleBatch(env: Env, st: DetectionState, nextId: TripId, processed: seq<ProcessedPoint>): DetectionBatch
    requires st.WellFormed()
  {
    var outcome := Outcome(env, st, nextId, AcceptedOnly(processed));
    BatchOf(outcome.newState, outcome.commands).(processedPoints := processed)
  }

  // The book after a cycle: the points entered one at a time, then the clock stamped once.
  function Stamped(env: Env, b: Book): Book {
    b.(tracker := b.tracker.(st := Stamp(env, b.tracker.st)))
  }

  lemma {:induction false} BackfillsIgnorePoints(links: LinkTable, stored: seq<ProcessedPoint>, batch: DetectionBatch,
                               processed: seq<ProcessedPoint>, trips: seq<Trip>)
    ensures BackfillTrips(links, stored, batch.(processedPoints := processed), trips)
            == BackfillTrips(links, stored, batch, trips)
  {
    if trips != [] {
      BackfillsIgnorePoints(links, stored, batch, processed, trips[..|trips| - 1]);
    }
  }

  lemma SavedTrips(env: Env, b: Book, points: seq<ProcessedPoint>)
    requires b.tracker.st.WellFormed()
    requires b.tracker.st.activeTripId.Some? ==> b.tracker.st.activeTripId.value < b.tracker.nextId
    requires IdsBelow(b.tracker.rows, b.tracker.nextId)
    ensures
      var outcome := Outcome(env, b.tracker.st, b.tracker.nextId, points);
      && PhasedTrips(b.tracker.rows, BatchOf(outcome.newState, outcome.commands))
          == EnterAll(env, b, points).tracker.rows
      && outcome.newState == Stamp(env, EnterAll(env, b, points).tracker.st)
      && outcome.nextId == EnterAll(env, b, points).tracker.nextId
  {
    var outcome := Outcome(env, b.tracker.st, b.tracker.nextId, points);
    BatchFollows(env, b.tracker.st, b.tracker.nextId, points);
    BatchRefines(env, b.tracker, points);
    hide Outcome, ObserveAll, PhasedTrips, ApplyCommands, Follows, AdvanceAll, BatchOf, Enter, Boundaries;
    PhasesKeepMeaning(Lane(b.tracker.st.activeTripId, b.tracker.nextId), b.tracker.rows, outcome.newState,
        outcome.commands);
  }

  // The end of the batch writes the update it still holds, which is what Flush says.
  lemma FinishFlushes(env: Env, run: Run)
    requires Valid(env, run)
    ensures Finish(env, run).commands == Flush(run).commands
  {
  }

  lemma {:induction false} SameCreations(run: Run, st: DetectionState)
    requires BuffersFit(run)
    ensures BatchOf(st, Flush(run).commands).newTrips == BatchOf(st, run.commands).newTrips
  {
    if run.activePoints != [] {
      BatchOneMore(st, run.commands, PendingUpdate(run));
    }
  }

  lemma SavedLinks(env: Env, b: Book, points: seq<ProcessedPoint>, stored: seq<ProcessedPoint>)
    requires ClockFits(b) && LinksFit(b) && Arrives(b, points)
    requires AcceptedOnly(stored) == b.accepted + points
    ensures
      var outcome := Outcome(env, b.tracker.st, b.tracker.nextId, points);
      var batch := BatchOf(outcome.newState, outcome.commands);
      LinkAll(BackfillTrips(b.links, stored, batch, batch.newTrips), batch.newPoints) == EnterAll(env, b, points).links
  {
    var run := ConsumeAll(env, FreshRun(b.tracker.st, b.tracker.nextId), points);
    var outcome := Outcome(env, b.tracker.st, b.tracker.nextId, points);
    RunTracks(env, b, points);
    RunKeepsCreations(env, b, points);
    FinishFlushes(env, run);
    BatchFollows(env, b.tracker.st, b.tracker.nextId, points);
    SavedLinksOf(env, b, points, stored, run, outcome.newState, EnterAll(env, b, points));
  }

  lemma BatchSays(lane: Lane, st: DetectionState, run: Run)
    requires BuffersFit(run) && Follows(lane, Flush(run).commands)
    ensures
      var batch := BatchOf(st, Flush(run).commands);
      && batch.newState == st && batch.newPoints == PointsOf(Flush(run).commands)
      && batch.newTrips == BatchOf(st, run.commands).newTrips
      && Remembers(batch, run.commands)
  {
    SameCreations(run, st);
    FlushKeepsCommands(run);
    hide Flush, BatchOf, Follows, PointsOf;
    BatchIs(st, Flush(run).commands);
    BatchRemembers(lane, st, Flush(run).commands);
  }

  lemma SavedLinksOf(env: Env, b: Book, points: seq<ProcessedPoint>, stored: seq<ProcessedPoint>, run: Run,
                     st: DetectionState, book: Book)
    requires Valid(env, run) && Arrives(b, points) && Tracks(env, b, points, run, book) && RunCreationsFit(points, run)
    requires Follows(Lane(b.tracker.st.activeTripId, b.tracker.nextId), Flush(run).commands)
    requires AcceptedOnly(stored) == b.accepted + points
    ensures
      var batch := BatchOf(st, Flush(run).commands);
      LinkAll(BackfillTrips(b.links, stored, batch, batch.newTrips), batch.newPoints) == book.links
  {
    hide LinkAll, AllOldPoints, PointsOf, CreationsFit, Follows, View, HoldsCandidate, Flush, Arrives, AcceptedOnly,
         Remembers, BatchOf;
    var commands := Flush(run).commands;
    BatchSays(Lane(b.tracker.st.activeTripId, b.tracker.nextId), st, run);
    BackfillsAreOld(b, points, stored, BatchOf(st, commands), run.nextId, run.commands, run.commands, b.links);
    LinkAllAppend(b.links, AllOldPoints(b.accepted, run.commands), PointsOf(commands));
  }

  lemma FlushKeepsCommands(run: Run)
    requires BuffersFit(run)
    ensures forall c :: c in run.commands ==> c in Flush(run).commands
  {
  }

  lemma {:induction false} BatchIs(st: DetectionState, commands: seq<Command>)
    ensures BatchOf(st, commands).newState == st
  {
    if commands != [] {
      BatchIs(st, commands[..|commands| - 1]);
    }
  }

  // Saving a cycle's batch in phases leaves the trips, links and state that entering its
  // accepted points one at a time would leave.
  lemma {:induction false} SavedAsEntered(env: Env, t: Tables, b: Book, processed: seq<ProcessedPoint>)
    requires ClockFits(b) && LinksFit(b) && Backs(t, b)
    requires Arrives(b, AcceptedOnly(processed)) && NewEvents(t.processed, processed)
    ensures
      var after := EnterAll(env, b, AcceptedOnly(processed));
      Backs(Applied(t, CycleBatch(env, t.state, b.tracker.nextId, processed)), Stamped(env, after))
  {
    var points := AcceptedOnly(processed);
    var outcome := Outcome(env, b.tracker.st, b.tracker.nextId, points);
    var batch, stored := BatchOf(outcome.newState, outcome.commands), t.processed + processed;
    NewEventsAppend(t.processed, processed);
    FilterAppend((p: ProcessedPoint) => p.isAccepted, t.processed, processed);
    assert AcceptedOnly(stored) == b.accepted + points;
    BatchFollows(env, b.tracker.st, b.tracker.nextId, points);
    hide AcceptedOnly, Outcome, Arrives, EnterAll, ClockFits, LinksFit, BatchOf, LinkAll;
    SavedLinks(env, b, points, stored);
    SavedTrips(env, b, points);
    BatchIs(outcome.newState, outcome.commands);
    RowsStayBelow(env, b, points);
    BackfillsIgnorePoints(t.links, stored, batch, processed, batch.newTrips);
  }

  // Row identifiers stay below the next one to be given out.
  lemma {:induction false} RowsStayBelow(env: Env, b: Book, points: seq<ProcessedPoint>)
    requires b.tracker.st.WellFormed() && IdsBelow(b.tracker.rows, b.tracker.nextId)
    ensures IdsBelow(EnterAll(env, b, points).tracker.rows, EnterAll(env, b, points).tracker.nextId)
  {
    if points != [] {
      var front, p := points[..|points| - 1], points[|points| - 1];
      hide IdsBelow, Observe;
      RowsStayBelow(env, b, front);
      RowsStayBelowOnce(env, EnterAll(env, b, front).tracker, p);
    }
  }

  lemma RowsStayBelowOnce(env: Env, t: Tracker, p: ProcessedPoint)
    requires t.st.WellFormed() && IdsBelow(t.rows, t.nextId)
    ensures IdsBelow(Observe(env, t, p).rows, Observe(env, t, p).nextId)
  {
    ObserveAddsRow(env, t, p);
    hide Observe;
  }

  lemma ObserveAddsRow(env: Env, t: Tracker, p: ProcessedPoint)
    requires t.st.WellFormed()
    ensures
      var after := Observe(env, t, p);
      || (after.rows.Keys == t.rows.Keys && after.nextId == t.nextId)
      || (after.rows.Keys == t.rows.Keys + {t.nextId} && after.nextId == t.nextId + 1)
  {
    hide UpdatedRow, CompletedRow, NewRow;
  }

  // ---- cutting a cycle in two ----

  lemma StampIsNotEntered(env: Env, b: Book, p: ProcessedPoint)
    requires b.tracker.st.WellFormed()
    ensures Enter(env, Stamped(env, b), p) == Stamped(env, Enter(env, b, p))
  {
    hide Observe, LinkAll, Since;
    StampIsNotRead(env, b.tracker, p);
    assert CreditOf(env, Stamp(env, b.tracker.st), p) == CreditOf(env, b.tracker.st, p);
    hide CreditOf;
  }

  lemma {:induction false} StampIsNeverEntered(env: Env, b: Book, points: seq<ProcessedPoint>)
    requires b.tracker.st.WellFormed()
    ensures EnterAll(env, Stamped(env, b), points) == Stamped(env, EnterAll(env, b, points))
  {
    if points != [] {
      var front, p := points[..|points| - 1], points[|points| - 1];
      StampIsNeverEntered(env, b, front);
      hide Enter;
      StampIsNotEntered(env, EnterAll(env, b, front), p);
    }
  }

  lemma {:induction false} EnterAllAppend(env: Env, b: Book, first: seq<ProcessedPoint>, second: seq<ProcessedPoint>)
    requires b.tracker.st.WellFormed()
    ensures EnterAll(env, b, first + second) == EnterAll(env, EnterAll(env, b, first), second)
  {
    if second == [] {
      assert first + second == first;
    } else {
      var rest, p := second[..|second| - 1], second[|second| - 1];
      assert first + second == (first + rest) + [p] && second == rest + [p];
      hide *;
      EnterAllAppend(env, b, first, rest);
      EnterAllLast(env, b, first + rest, p);
      EnterAllLast(env, EnterAll(env, b, first), rest, p);
    }
  }

  lemma StampKeepsBooks(env: Env, b: Book)
    requires ClockFits(b) && LinksFit(b)
    ensures ClockFits(Stamped(env, b)) && LinksFit(Stamped(env, b))
  {
    var after := Stamped(env, b);
    assert forall e :: e in b.links ==> LinkFits(b, e) == LinkFits(after, e);
    assert forall k :: 0 <= k < |b.openings| ==>
        BackfilledExactly(b, b.openings[k]) == BackfilledExactly(after, b.openings[k]);
  }

  lemma ArrivesInTwo(b: Book, middle: Book, first: seq<ProcessedPoint>, second: seq<ProcessedPoint>)
    requires Arrives(b, first + second) && middle.accepted == b.accepted + first
    ensures Arrives(b, first) && Arrives(middle, second)
  {
    var all := first + second;
    assert forall i :: 0 <= i < |first| ==> all[i] == first[i];
    assert forall i :: 0 <= i < |second| ==> all[|first| + i] == second[i];
  }

  lemma NewEventsInTwo(stored: seq<ProcessedPoint>, first: seq<ProcessedPoint>, second: seq<ProcessedPoint>)
    requires NewEvents(stored, first + second)
    ensures NewEvents(stored, first) && NewEvents(stored + first, second)
  {
    var all := first + second;
    assert forall i :: 0 <= i < |first| ==> all[i] == first[i];
    assert forall i :: 0 <= i < |second| ==> all[|first| + i] == second[i];
  }

  lemma AppliedStores(env: Env, t: Tables, nextId: TripId, processed: seq<ProcessedPoint>)
    requires t.state.WellFormed() && NewEvents(t.processed, processed)
    ensures Applied(t, CycleBatch(env, t.state, nextId, processed)).processed == t.processed + processed
  {
    NewEventsAppend(t.processed, processed);
    hide InsertProcessed, NewEvents, Outcome, BatchOf;
  }

  lemma CutBooks(env: Env, half: Book, whole: Book, ps: seq<ProcessedPoint>)
    requires half.tracker.st.WellFormed() && Stamped(env, half).tracker.st.WellFormed()
    requires EnterAll(env, half, ps) == whole
    ensures Stamped(env, EnterAll(env, Stamped(env, half), ps)) == Stamped(env, whole)
  {
    hide *;
    StampIsNeverEntered(env, half, ps);
    StampTwice(env, whole);
  }

  lemma StampTwice(env: Env, b: Book)
    ensures Stamped(env, Stamped(env, b)) == Stamped(env, b)
  {
  }

  lemma SameBookSameTables(t: Tables, u: Tables, b: Book)
    requires Backs(t, b) && Backs(u, b) && t.processed == u.processed
    ensures t == u
  {
  }

  // Two cycles over the two halves of a list of points leave the same tables as one cycle
  // over the whole list: trips, links, stored points and saved state alike.
  lemma {:induction false} CyclesMayBeCut(env: Env, t: Tables, b: Book, first: seq<ProcessedPoint>,
                                          second: seq<ProcessedPoint>)
    requires ClockFits(b) && LinksFit(b) && Backs(t, b)
    requires Arrives(b, AcceptedOnly(first + second)) && NewEvents(t.processed, first + second)
    ensures
      var middle := Applied(t, CycleBatch(env, t.state, b.tracker.nextId, first));
      var supply := EnterAll(env, b, AcceptedOnly(first)).tracker.nextId;
      && middle.state.WellFormed()
      && Applied(middle, CycleBatch(env, middle.state, supply, second))
         == Applied(t, CycleBatch(env, t.state, b.tracker.nextId, first + second))
  {
    var pf, ps := AcceptedOnly(first), AcceptedOnly(second);
    FilterAppend((p: ProcessedPoint) => p.isAccepted, first, second);
    assert AcceptedOnly(first + second) == pf + ps;
    var half := EnterAll(env, b, pf);
    var middle := Applied(t, CycleBatch(env, t.state, b.tracker.nextId, first));
    hide AcceptedOnly, EnterAll, ClockFits, LinksFit, Arrives, NewEvents, Applied, CycleBatch, Stamp;
    ArrivesInTwo(b, Stamped(env, half), pf, ps);
    NewEventsInTwo(t.processed, first, second);
    AppliedStores(env, t, b.tracker.nextId, first);
    EnterAllKeepsBooks(env, b, pf);
    StampKeepsBooks(env, half);
    SavedAsEntered(env, t, b, first);
    EnterAllAppend(env, b, pf, ps);
    CutBooks(env, half, EnterAll(env, b, pf + ps), ps);
    CutTables(env, t, b, middle, Stamped(env, half), first, second);
  }

  // Both sides are backed by the same book, so they are the same tables.
  lemma CutTables(env: Env, t: Tables, b: Book, middle: Tables, half: Book, first: seq<ProcessedPoint>,
                  second: seq<ProcessedPoint>)
    requires ClockFits(b) && LinksFit(b) && Backs(t, b) && t.state == b.tracker.st
    requires Arrives(b, AcceptedOnly(first + second)) && NewEvents(t.processed, first + second)
    requires ClockFits(half) && LinksFit(half) && Backs(middle, half) && middle.state == half.tracker.st
    requires Arrives(half, AcceptedOnly(second)) && NewEvents(middle.processed, second)
    requires middle.processed == t.processed + first && t.state.WellFormed() && middle.state.WellFormed()
    requires Stamped(env, EnterAll(env, half, AcceptedOnly(second)))
             == Stamped(env, EnterAll(env, b, AcceptedOnly(first + second)))
    ensures
      Applied(middle, CycleBatch(env, middle.state, half.tracker.nextId, second))
      == Applied(t, CycleBatch(env, t.state, b.tracker.nextId, first + second))
  {
    hide *;
    assert (t.processed + first) + second == t.processed + (first + second);
    SavedAsEntered(env, t, b, first + second);
    SavedAsEntered(env, middle, half, second);
    AppliedStores(env, t, b.tracker.nextId, first + second);
    AppliedStores(env, middle, half.tracker.nextId, second);
    SameBookSameTables(Applied(middle, CycleBatch(env, middle.state, half.tracker.nextId, second)),
                       Applied(t, CycleBatch(env, t.state, b.tracker.nextId, first + second)),
                       Stamped(env, EnterAll(env, b, AcceptedOnly(first + second))));
  }
}
