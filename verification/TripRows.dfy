// The trips table of one (user, device) pair and what each command does to it
// (insertTrip, updateTripStats and completeTrip in storage/postgres/trip_repo.go).
module TripRows {
  import opened Domain
  import opened TripDetection

  datatype TripStatus = Active | Completed

  datatype TripRow = TripRow(
    status: TripStatus,
    startedAt: Time,
    endedAt: Option<Time>,
    start: GeoPoint,
    end: Option<GeoPoint>,
    distanceM: real,
    durationSec: int,
    pointsCount: int,
    createdAt: Time)

  type TripTable = map<TripId, TripRow>

  // EXTRACT(EPOCH FROM d)::bigint rounds to the nearest second, halves away from zero.
  function RoundedSeconds(d: int): int {
    if d >= 0 then (d + SECOND / 2) / SECOND else -((-d + SECOND / 2) / SECOND)
  }

  function NewRow(trip: Trip): TripRow {
    TripRow(Active, trip.startedAt, None, trip.start, None,
            trip.distanceM, trip.durationSec, trip.pointsCount, trip.createdAt)
  }

  // ON CONFLICT (id) DO NOTHING
  function InsertTrip(rows: TripTable, trip: Trip): TripTable {
    if trip.id in rows then rows else rows[trip.id := NewRow(trip)]
  }

  function UpdatedRow(row: TripRow, distanceM: real, points: int, last: Option<LastFix>): TripRow {
    row.(distanceM := row.distanceM + distanceM,
         pointsCount := row.pointsCount + points,
         durationSec := if last.Some? then RoundedSeconds(last.value.at - row.startedAt) else row.durationSec,
         end := if last.Some? then Some(last.value.position) else row.end)
  }

  function UpdateStats(rows: TripTable, id: TripId, distanceM: real, points: int, last: Option<LastFix>): TripTable {
    if id in rows then rows[id := UpdatedRow(rows[id], distanceM, points, last)] else rows
  }

  function CompletedRow(row: TripRow, endedAt: Time, end: GeoPoint): TripRow {
    row.(status := Completed, endedAt := Some(endedAt), end := Some(end),
         durationSec := RoundedSeconds(endedAt - row.startedAt))
  }

  function Complete(rows: TripTable, id: TripId, endedAt: Time, end: GeoPoint): TripTable {
    if id in rows then rows[id := CompletedRow(rows[id], endedAt, end)] else rows
  }

  function ApplyCommand(rows: TripTable, c: Command): TripTable {
    match c
    case CreateTrip(trip, _, _) => InsertTrip(rows, trip)
    case UpdateTrip(id, distanceM, points, last, _) => UpdateStats(rows, id, distanceM, points, last)
    case CompleteTrip(id, endedAt, end) => Complete(rows, id, endedAt, end)
  }

  // The commands applied one after the other, in the order they were emitted.
  function ApplyCommands(rows: TripTable, commands: seq<Command>): TripTable {
    if commands == [] then rows
    else ApplyCommand(ApplyCommands(rows, commands[..|commands| - 1]), commands[|commands| - 1])
  }

  lemma ApplyOneMore(rows: TripTable, commands: seq<Command>, c: Command)
    ensures ApplyCommands(rows, commands + [c]) == ApplyCommand(ApplyCommands(rows, commands), c)
  {
    assert (commands + [c])[..|commands + [c]| - 1] == commands;
  }

}
