// Saving one detection batch: buildBatch (usecase/trip_detection_job.go) regroups the
// commands, and ApplyBatch (storage/postgres/trip_repo.go) applies them in phases.
module Storage {
  import opened Domain
  import opened TripDetection
  import opened TripRows
  import opened TripGrammar

  datatype StatsDelta = StatsDelta(tripId: TripId, distanceM: real, points: int, last: Option<LastFix>)

  datatype TripCompletion = TripCompletion(tripId: TripId, endedAt: Time, end: GeoPoint)

  datatype DetectionBatch = DetectionBatch(
    newState: DetectionState,
    processedPoints: seq<ProcessedPoint>,
    newTrips: seq<Trip>,
    backfillSince: map<TripId, Time>,
    updatedTrips: seq<StatsDelta>,
    completedTrips: seq<TripCompletion>,
    newPoints: seq<TripPoint>)

  // One command added to a batch under construction.
  function AddCommand(b: DetectionBatch, c: Command): DetectionBatch {
    match c
    case CreateTrip(trip, since, points) =>
      b.(newTrips := b.newTrips + [trip],
         backfillSince := b.backfillSince[trip.id := since],
         newPoints := b.newPoints + points)
    case UpdateTrip(id, distanceM, n, last, points) =>
      b.(updatedTrips := b.updatedTrips + [StatsDelta(id, distanceM, n, last)],
         newPoints := b.newPoints + points)
    case CompleteTrip(id, endedAt, end) =>
      b.(completedTrips := b.completedTrips + [TripCompletion(id, endedAt, end)])
  }

  function EmptyBatch(newState: DetectionState): DetectionBatch {
    DetectionBatch(newState, [], [], map[], [], [], [])
  }

  function BatchOf(newState: DetectionState, commands: seq<Command>): DetectionBatch {
    if commands == [] then EmptyBatch(newState)
    else AddCommand(BatchOf(newState, commands[..|commands| - 1]), commands[|commands| - 1])
  }

  lemma BatchOneMore(newState: DetectionState, commands: seq<Command>, c: Command)
    ensures BatchOf(newState, commands + [c]) == AddCommand(BatchOf(newState, commands), c)
  {
    assert (commands + [c])[..|commands + [c]| - 1] == commands;
  }

  method BuildBatch(outcome: BatchOutcome) returns (batch: DetectionBatch)
    ensures batch == BatchOf(outcome.newState, outcome.commands)
  {
    batch := EmptyBatch(outcome.newState);
    for i := 0 to |outcome.commands|
      invariant batch == BatchOf(outcome.newState, outcome.commands[..i])
    {
      assert outcome.commands[..i + 1][..i] == outcome.commands[..i];
      match outcome.commands[i] {
        case CreateTrip(trip, since, points) =>
          batch := batch.(newTrips := batch.newTrips + [trip],
                          backfillSince := batch.backfillSince[trip.id := since],
                          newPoints := batch.newPoints + points);
        case UpdateTrip(id, distanceM, n, last, points) =>
          batch := batch.(updatedTrips := batch.updatedTrips + [StatsDelta(id, distanceM, n, last)],
                          newPoints := batch.newPoints + points);
        case CompleteTrip(id, endedAt, end) =>
          batch := batch.(completedTrips := batch.completedTrips + [TripCompletion(id, endedAt, end)]);
      }
    }
    assert outcome.commands[..|outcome.commands|] == outcome.commands;
  }

  // ---- tables ----

  datatype Link = Link(tripId: TripId, recordedAt: Time)

  // trip_points: a point belongs to at most one trip, so its event id is the key.
  type LinkTable = map<EventId, Link>

  datatype Tables = Tables(
    processed: seq<ProcessedPoint>,
    trips: TripTable,
    links: LinkTable,
    state: DetectionState)

  predicate HasEvent(processed: seq<ProcessedPoint>, id: EventId) {
    exists i :: 0 <= i < |processed| && processed[i].eventId == id
  }

  // ON CONFLICT DO NOTHING, on the event id
  function InsertProcessed(processed: seq<ProcessedPoint>, points: seq<ProcessedPoint>): seq<ProcessedPoint> {
    if points == [] then processed
    else
      var before := InsertProcessed(processed, points[..|points| - 1]);
      var p := points[|points| - 1];
      if HasEvent(before, p.eventId) then before else before + [p]
  }

  function InsertTrips(rows: TripTable, trips: seq<Trip>): TripTable {
    if trips == [] then rows
    else InsertTrip(InsertTrips(rows, trips[..|trips| - 1]), trips[|trips| - 1])
  }

  function LinkPoint(links: LinkTable, p: TripPoint): LinkTable {
    if p.eventId in links then links else links[p.eventId := Link(p.tripId, p.recordedAt)]
  }

  function LinkAll(links: LinkTable, points: seq<TripPoint>): LinkTable {
    if points == [] then links
    else LinkPoint(LinkAll(links, points[..|points| - 1]), points[|points| - 1])
  }

  // The earliest of the trip's points in the batch; the zero instant when there is none.
  function FirstPointAt(points: seq<TripPoint>, id: TripId): Time {
    if points == [] then 0
    else
      var first, p := FirstPointAt(points[..|points| - 1], id), points[|points| - 1];
      if p.tripId == id && (first == 0 || p.recordedAt < first) then p.recordedAt else first
  }

  predicate Backfills(p: ProcessedPoint, since: Time, before: Time) {
    p.isAccepted && since <= p.recordedAt < before
  }

  function TripPointsOf(points: seq<ProcessedPoint>, id: TripId): seq<TripPoint> {
    seq(|points|, i requires 0 <= i < |points| => TripPoint(id, points[i].eventId, points[i].recordedAt))
  }

  // Already stored accepted points of the trip's candidate phase.
  function BackfillRows(processed: seq<ProcessedPoint>, id: TripId, since: Time, before: Time): seq<TripPoint> {
    TripPointsOf(Filter((p: ProcessedPoint) => Backfills(p, since, before), processed), id)
  }

  function BackfillTrip(links: LinkTable, processed: seq<ProcessedPoint>, b: DetectionBatch, trip: Trip): LinkTable {
    if trip.id in b.backfillSince
    then LinkAll(links, BackfillRows(processed, trip.id, b.backfillSince[trip.id], FirstPointAt(b.newPoints, trip.id)))
    else links
  }

  function BackfillTrips(links: LinkTable, processed: seq<ProcessedPoint>, b: DetectionBatch,
                         trips: seq<Trip>): LinkTable {
    if trips == [] then links
    else BackfillTrip(BackfillTrips(links, processed, b, trips[..|trips| - 1]), processed, b, trips[|trips| - 1])
  }

  function UpdateTrips(rows: TripTable, updates: seq<StatsDelta>): TripTable {
    if updates == [] then rows
    else
      var u := updates[|updates| - 1];
      UpdateStats(UpdateTrips(rows, updates[..|updates| - 1]), u.tripId, u.distanceM, u.points, u.last)
  }

  function CompleteTrips(rows: TripTable, completions: seq<TripCompletion>): TripTable {
    if completions == [] then rows
    else
      var c := completions[|completions| - 1];
      Complete(CompleteTrips(rows, completions[..|completions| - 1]), c.tripId, c.endedAt, c.end)
  }

  // The six phases of ApplyBatch.
  function Applied(t: Tables, b: DetectionBatch): Tables {
    var processed := InsertProcessed(t.processed, b.processedPoints);
    var inserted := InsertTrips(t.trips, b.newTrips);
    var backfilled := BackfillTrips(t.links, processed, b, b.newTrips);
    var links := LinkAll(backfilled, b.newPoints);
    var updated := UpdateTrips(inserted, b.updatedTrips);
    Tables(processed, CompleteTrips(updated, b.completedTrips), links, b.newState)
  }

  class TripStore {
    var processed: seq<ProcessedPoint>
    var trips: TripTable
    var links: LinkTable
    var state: DetectionState

    ghost function Contents(): Tables
      reads this
    {
      Tables(processed, trips, links, state)
    }

    constructor ()
      ensures Contents() == Tables([], map[], map[], INITIAL_STATE)
    {
      processed, trips, links, state := [], map[], map[], INITIAL_STATE;
    }

    method InsertProcessedPoints(points: seq<ProcessedPoint>)
      modifies `processed
      ensures processed == InsertProcessed(old(processed), points)
    {
      for i := 0 to |points|
        modifies `processed
        invariant processed == InsertProcessed(old(processed), points[..i])
      {
        assert points[..i + 1][..i] == points[..i];
        if !HasEvent(processed, points[i].eventId) {
          processed := processed + [points[i]];
        }
      }
      assert points[..|points|] == points;
    }

    method InsertTripPoints(points: seq<TripPoint>)
      modifies `links
      ensures links == LinkAll(old(links), points)
    {
      for i := 0 to |points|
        modifies `links
        invariant links == LinkAll(old(links), points[..i])
      {
        assert points[..i + 1][..i] == points[..i];
        var p := points[i];
        if p.eventId !in links {
          links := links[p.eventId := Link(p.tripId, p.recordedAt)];
        }
      }
      assert points[..|points|] == points;
    }

    method BackfillTripPoints(id: TripId, since: Time, before: Time)
      modifies `links
      ensures links == LinkAll(old(links), BackfillRows(processed, id, since, before))
    {
      InsertTripPoints(BackfillRows(processed, id, since, before));
    }

    method InsertNewTrips(batch: DetectionBatch)
      modifies `trips
      ensures trips == InsertTrips(old(trips), batch.newTrips)
    {
      for i := 0 to |batch.newTrips|
        modifies `trips
        invariant trips == InsertTrips(old(trips), batch.newTrips[..i])
      {
        assert batch.newTrips[..i + 1][..i] == batch.newTrips[..i];
        var trip := batch.newTrips[i];
        if trip.id !in trips {
          trips := trips[trip.id := NewRow(trip)];
        }
      }
      assert batch.newTrips[..|batch.newTrips|] == batch.newTrips;
    }

    method BackfillNewTrips(batch: DetectionBatch)
      modifies `links
      ensures links == BackfillTrips(old(links), processed, batch, batch.newTrips)
    {
      for i := 0 to |batch.newTrips|
        modifies `links
        invariant links == BackfillTrips(old(links), processed, batch, batch.newTrips[..i])
      {
        assert batch.newTrips[..i + 1][..i] == batch.newTrips[..i];
        var trip := batch.newTrips[i];
        if trip.id in batch.backfillSince {
          var first := EarliestPoint(batch.newPoints, trip.id);
          BackfillTripPoints(trip.id, batch.backfillSince[trip.id], first);
        }
      }
      assert batch.newTrips[..|batch.newTrips|] == batch.newTrips;
    }

    method ApplyBatch(batch: DetectionBatch)
      modifies this
      ensures Contents() == Applied(old(Contents()), batch)
    {
      InsertProcessedPoints(batch.processedPoints);
      InsertNewTrips(batch);
      BackfillNewTrips(batch);
      InsertTripPoints(batch.newPoints);
      for i := 0 to |batch.updatedTrips|
        modifies `trips
        invariant trips == UpdateTrips(InsertTrips(old(trips), batch.newTrips), batch.updatedTrips[..i])
      {
        assert batch.updatedTrips[..i + 1][..i] == batch.updatedTrips[..i];
        var u := batch.updatedTrips[i];
        if u.tripId in trips {
          trips := trips[u.tripId := UpdatedRow(trips[u.tripId], u.distanceM, u.points, u.last)];
        }
      }
      assert batch.updatedTrips[..|batch.updatedTrips|] == batch.updatedTrips;
      ghost var updated := trips;
      for i := 0 to |batch.completedTrips|
        modifies `trips
        invariant trips == CompleteTrips(updated, batch.completedTrips[..i])
      {
        assert batch.completedTrips[..i + 1][..i] == batch.completedTrips[..i];
        var c := batch.completedTrips[i];
        if c.tripId in trips {
          trips := trips[c.tripId := CompletedRow(trips[c.tripId], c.endedAt, c.end)];
        }
      }
      assert batch.completedTrips[..|batch.completedTrips|] == batch.completedTrips;
      state := batch.newState;
    }
  }

  method EarliestPoint(points: seq<TripPoint>, id: TripId) returns (first: Time)
    ensures first == FirstPointAt(points, id)
  {
    first := 0;
    for i := 0 to |points|
      invariant first == FirstPointAt(points[..i], id)
    {
      assert points[..i + 1][..i] == points[..i];
      if points[i].tripId == id {
        if first == 0 || points[i].recordedAt < first {
          first := points[i].recordedAt;
        }
      }
    }
    assert points[..|points|] == points;
  }

  // ---- regrouping the commands by kind does not change the trips table ----

  lemma {:induction false} UpdatesLeaveOthers(rows: TripTable, updates: seq<StatsDelta>, id: TripId, row: TripRow)
    requires id !in rows && forall i :: 0 <= i < |updates| ==> updates[i].tripId != id
    ensures UpdateTrips(rows[id := row], updates) == UpdateTrips(rows, updates)[id := row]
    ensures id !in UpdateTrips(rows, updates)
  {
    if updates != [] {
      UpdatesLeaveOthers(rows, updates[..|updates| - 1], id, row);
    }
  }

  lemma {:induction false} CompletionsLeaveOthers(rows: TripTable, completions: seq<TripCompletion>, id: TripId,
                                                  row: TripRow)
    requires forall i :: 0 <= i < |completions| ==> completions[i].tripId != id
    ensures CompleteTrips(rows[id := row], completions) == CompleteTrips(rows, completions)[id := row]
    ensures id in CompleteTrips(rows, completions) <==> id in rows
    ensures id in rows ==> CompleteTrips(rows, completions)[id] == rows[id]
  {
    if completions != [] {
      CompletionsLeaveOthers(rows, completions[..|completions| - 1], id, row);
    }
  }

  // The identifiers a batch mentions, given the lane its commands keep to.
  ghost predicate BatchFits(lane: Lane, b: DetectionBatch) {
    && (forall i :: 0 <= i < |b.newTrips| ==> b.newTrips[i].id < lane.next)
    && (forall i :: 0 <= i < |b.updatedTrips| ==> b.updatedTrips[i].tripId < lane.next)
    && (forall i :: 0 <= i < |b.completedTrips| ==>
          b.completedTrips[i].tripId < lane.next && lane.open != Some(b.completedTrips[i].tripId))
    && (lane.open.Some? ==> lane.open.value < lane.next)
  }

  lemma {:induction false} BatchKeepsLane(start: Lane, newState: DetectionState, commands: seq<Command>)
    requires Follows(start, commands) && (start.open.Some? ==> start.open.value < start.next)
    ensures BatchFits(AdvanceAll(start, commands), BatchOf(newState, commands))
    ensures start.next <= AdvanceAll(start, commands).next
  {
    if commands != [] {
      BatchKeepsLane(start, newState, commands[..|commands| - 1]);
    }
  }

  lemma {:induction false} InsertedAreKnown(rows: TripTable, trips: seq<Trip>, bound: TripId)
    requires forall id :: id in rows ==> id < bound
    requires forall i :: 0 <= i < |trips| ==> trips[i].id < bound
    ensures forall id :: id in InsertTrips(rows, trips) ==> id < bound
  {
    if trips != [] {
      InsertedAreKnown(rows, trips[..|trips| - 1], bound);
    }
  }

  function PhasedTrips(rows: TripTable, b: DetectionBatch): TripTable {
    CompleteTrips(UpdateTrips(InsertTrips(rows, b.newTrips), b.updatedTrips), b.completedTrips)
  }

  lemma PhaseInCreate(start: Lane, rows: TripTable, b: DetectionBatch, lane: Lane, c: Command)
    requires c.CreateTrip? && Allowed(lane, c) && BatchFits(lane, b)
    requires forall id :: id in rows ==> id < lane.next
    ensures PhasedTrips(rows, AddCommand(b, c)) == ApplyCommand(PhasedTrips(rows, b), c)
  {
    var inserted, row := InsertTrips(rows, b.newTrips), NewRow(c.trip);
    InsertedAreKnown(rows, b.newTrips, lane.next);
    assert (b.newTrips + [c.trip])[..|b.newTrips|] == b.newTrips;
    UpdatesLeaveOthers(inserted, b.updatedTrips, c.trip.id, row);
    CompletionsLeaveOthers(UpdateTrips(inserted, b.updatedTrips), b.completedTrips, c.trip.id, row);
  }

  lemma PhaseInUpdate(rows: TripTable, b: DetectionBatch, lane: Lane, c: Command)
    requires c.UpdateTrip? && Allowed(lane, c) && BatchFits(lane, b)
    ensures PhasedTrips(rows, AddCommand(b, c)) == ApplyCommand(PhasedTrips(rows, b), c)
  {
    var updated := UpdateTrips(InsertTrips(rows, b.newTrips), b.updatedTrips);
    var u := StatsDelta(c.updatedId, c.deltaDistanceM, c.deltaPointsCount, c.last);
    assert (b.updatedTrips + [u])[..|b.updatedTrips|] == b.updatedTrips;
    if c.updatedId in updated {
      CompletionsLeaveOthers(updated, b.completedTrips, c.updatedId,
                             UpdatedRow(updated[c.updatedId], c.deltaDistanceM, c.deltaPointsCount, c.last));
    } else {
      CompletionsLeaveOthers(updated, b.completedTrips, c.updatedId,
          NewRow(Trip(0, 0, GeoPoint(0.0, 0.0), 0.0, 0, 0, 0)));
    }
  }

  // Inserting all new trips, then applying all updates, then all completions leaves the
  // trips table exactly as applying the commands in the order they were emitted.
  lemma {:induction false} PhasesKeepMeaning(start: Lane, rows: TripTable, newState: DetectionState,
                                             commands: seq<Command>)
    requires Follows(start, commands) && (start.open.Some? ==> start.open.value < start.next)
    requires forall id :: id in rows ==> id < start.next
    ensures PhasedTrips(rows, BatchOf(newState, commands)) == ApplyCommands(rows, commands)
  {
    if commands != [] {
      var front, c := commands[..|commands| - 1], commands[|commands| - 1];
      PhasesKeepMeaning(start, rows, newState, front);
      BatchKeepsLane(start, newState, front);
      var b, lane := BatchOf(newState, front), AdvanceAll(start, front);
      hide PhasedTrips, BatchFits;
      match c
      case CreateTrip(_, _, _) => PhaseInCreate(start, rows, b, lane, c);
      case UpdateTrip(_, _, _, _, _) => PhaseInUpdate(rows, b, lane, c);
      case CompleteTrip(id, endedAt, end) => PhaseInComplete(rows, b, c);
    }
  }

  lemma PhaseInComplete(rows: TripTable, b: DetectionBatch, c: Command)
    requires c.CompleteTrip?
    ensures PhasedTrips(rows, AddCommand(b, c)) == ApplyCommand(PhasedTrips(rows, b), c)
  {
    var done := TripCompletion(c.completedId, c.endedAt, c.end);
    assert (b.completedTrips + [done])[..|b.completedTrips|] == b.completedTrips;
  }
}
