// What every trip row says, over any history of entered points: a trip ends no earlier than
// it starts, later trips start after earlier ones end, only the open trip is active, stored
// durations and totals are those of the interval and never negative, and every row was opened
// exactly once by a point late enough after its start.
module TripRecords {
  import opened Domain
  import opened TripDetection
  import opened TripRows
  import opened TripRefinement
  import opened Ledger
  import opened Storage
  import opened LedgerRefinement
  import opened SavedCycle

  // Movement was recorded at this very time.
  ghost predicate Evidence(cfg: DetectionConfig, accepted: seq<ProcessedPoint>, at: Time) {
    exists i :: 0 <= i < |accepted| && accepted[i].recordedAt == at && Moves(cfg, accepted[i])
  }

  function StillSince(p: ProcessedPoint): Time {
    if p.stationarySince.Some? then p.stationarySince.value else p.recordedAt
  }

  // A stationary point dates its standstill no later than itself and after the last movement;
  // no point moves backwards.
  ghost predicate Calm(cfg: DetectionConfig, accepted: seq<ProcessedPoint>, p: ProcessedPoint) {
    && p.distanceDeltaM >= 0.0
    && (p.isStationary ==>
          && StillSince(p) <= p.recordedAt
          && forall i :: 0 <= i < |accepted| && StillSince(p) <= accepted[i].recordedAt ==> !Moves(cfg, accepted[i]))
  }

  ghost predicate RowFits(row: TripRow, last: Time) {
    && row.startedAt <= last
    && row.distanceM >= 0.0 && row.pointsCount >= 1 && row.durationSec >= 0
    && (row.status == Completed <==> row.endedAt.Some?)
    && (row.endedAt.Some? ==>
          && row.startedAt <= row.endedAt.value <= last
          && row.durationSec == RoundedSeconds(row.endedAt.value - row.startedAt))
  }

  // Each row is sound, only the open trip is active, and trips follow one another.
  ghost predicate RowsFit(rows: TripTable, open: Option<TripId>, nextId: TripId, last: Time) {
    && (forall id :: id in rows ==> id < nextId && RowFits(rows[id], last))
    && (forall id :: id in rows ==> (rows[id].status == Active <==> open == Some(id)))
    && (forall a, b :: a in rows && b in rows && a < b ==>
          rows[a].endedAt.Some? && rows[a].endedAt.value < rows[b].startedAt)
    && (open.Some? ==> open.value in rows)
  }

  // All ended trips ended before this time.
  ghost predicate EndedBefore(rows: TripTable, at: Time) {
    forall id :: id in rows ==> rows[id].endedAt.Some? && rows[id].endedAt.value < at
  }

  // What a tracker's state and rows say about the points seen so far, the last one at this time.
  ghost predicate SoundAt(cfg: DetectionConfig, accepted: seq<ProcessedPoint>, t: Tracker, last: Time) {
    && RowsFit(t.rows, t.st.activeTripId, t.nextId, last)
    && (t.st.activeTripId.Some? && t.st.activeTripId.value in t.rows ==>
          Evidence(cfg, accepted, t.rows[t.st.activeTripId.value].startedAt))
    && (t.st.stopStartedAt.Some? && t.st.activeTripId.Some? && t.st.activeTripId.value in t.rows ==>
          t.rows[t.st.activeTripId.value].startedAt <= t.st.stopStartedAt.value <= last)
    && (t.st.candidateStartedAt.Some? ==>
          && EndedBefore(t.rows, t.st.candidateStartedAt.value)
          && Evidence(cfg, accepted, t.st.candidateStartedAt.value)
          && t.st.candidateStartedAt.value <= last
          && t.st.candidateDistanceM >= 0.0 && t.st.candidateGoodPoints >= 1)
  }

  ghost predicate RecordsFit(cfg: DetectionConfig, b: Book) {
    && (if b.accepted == [] then b.tracker.rows == map[]
        else SoundAt(cfg, b.accepted, b.tracker, b.accepted[|b.accepted| - 1].recordedAt))
    && ClosingsFit(b)
  }

  // Every completed trip was completed once, by a point no earlier than its end.
  ghost predicate ClosingsFit(b: Book) {
    && (forall k :: 0 <= k < |b.closings| ==> ClosingFits(b.tracker.rows, b.closings[k]))
    && (forall id :: id in b.tracker.rows && b.tracker.rows[id].endedAt.Some? ==> WasClosed(b.closings, id))
  }

  ghost predicate ClosingFits(rows: TripTable, c: Closing) {
    c.id in rows && rows[c.id].endedAt.Some? && rows[c.id].endedAt.value <= c.completedAt
  }

  ghost predicate WasClosed(closings: seq<Closing>, id: TripId) {
    exists k :: 0 <= k < |closings| && closings[k].id == id
  }

  // ---- arithmetic ----

  lemma RoundedIsNonNegative(d: int)
    requires d >= 0
    ensures RoundedSeconds(d) >= 0 && TruncatedSeconds(d) >= 0
  {
  }

  // Whole seconds: the nearest of them, or the last one that has passed.
  lemma {:induction false} SecondsAreWhole(d: int)
    requires d >= 0
    ensures -SECOND <= 2 * (RoundedSeconds(d) * SECOND - d) <= SECOND
    ensures TruncatedSeconds(d) * SECOND <= d < (TruncatedSeconds(d) + 1) * SECOND
  {
  }

  // ---- rows ----

  lemma RowsLast(rows: TripTable, open: Option<TripId>, nextId: TripId, last: Time, later: Time)
    requires RowsFit(rows, open, nextId, last) && last <= later
    ensures RowsFit(rows, open, nextId, later)
  {
  }

  lemma ExtendedRowFits(row: TripRow, last: Time, distance: real, fix: LastFix)
    requires RowFits(row, last) && row.endedAt.None? && last <= fix.at && distance >= 0.0
    ensures RowFits(UpdatedRow(row, distance, 1, Some(fix)), fix.at)
  {
    hide RoundedSeconds;
    RoundedIsNonNegative(fix.at - row.startedAt);
  }

  lemma ExtendKeepsRows(rows: TripTable, id: TripId, nextId: TripId, last: Time, distance: real, fix: LastFix)
    requires RowsFit(rows, Some(id), nextId, last) && last <= fix.at && distance >= 0.0
    ensures RowsFit(UpdateStats(rows, id, distance, 1, Some(fix)), Some(id), nextId, fix.at)
    ensures id in rows && UpdateStats(rows, id, distance, 1, Some(fix))[id].startedAt == rows[id].startedAt
  {
    var after := UpdateStats(rows, id, distance, 1, Some(fix));
    ExtendedRowFits(rows[id], last, distance, fix);
    RowsLast(rows, Some(id), nextId, last, fix.at);
    hide RowFits;
    assert forall other :: other in rows && other != id ==> other in after && after[other] == rows[other];
  }

  lemma CompletedRowFits(row: TripRow, last: Time, endedAt: Time, end: GeoPoint)
    requires RowFits(row, last) && row.startedAt <= endedAt <= last
    ensures
      var done := CompletedRow(row, endedAt, end);
      && RowFits(done, last) && done.startedAt == row.startedAt
      && done.endedAt == Some(endedAt) && done.status == Completed
  {
    hide RoundedSeconds;
    RoundedIsNonNegative(endedAt - row.startedAt);
  }

  lemma CompleteKeepsRows(rows: TripTable, id: TripId, nextId: TripId, last: Time, endedAt: Time, end: GeoPoint)
    requires RowsFit(rows, Some(id), nextId, last) && id in rows && rows[id].startedAt <= endedAt <= last
    ensures RowsFit(Complete(rows, id, endedAt, end), None, nextId, last)
    ensures forall at :: last < at ==> EndedBefore(Complete(rows, id, endedAt, end), at)
  {
    CompletedRowsFit(rows, id, nextId, last, endedAt, end);
    hide Complete, RowFits, RowsFit, EndedBefore;
    var done := Complete(rows, id, endedAt, end);
    forall at | last < at ensures EndedBefore(done, at) {
      ClosedRowsEnded(done, nextId, last, at);
    }
  }

  lemma CompletedRowsFit(rows: TripTable, id: TripId, nextId: TripId, last: Time, endedAt: Time, end: GeoPoint)
    requires RowsFit(rows, Some(id), nextId, last) && id in rows && rows[id].startedAt <= endedAt <= last
    ensures RowsFit(Complete(rows, id, endedAt, end), None, nextId, last)
  {
    hide CompletedRow, RoundedSeconds;
    var done := Complete(rows, id, endedAt, end);
    CompletedRowFits(rows[id], last, endedAt, end);
    assert forall other :: other in rows && other != id ==> other in done && done[other] == rows[other];
    forall a, b | a in done && b in done && a < b
      ensures done[a].endedAt.Some? && done[a].endedAt.value < done[b].startedAt
    {
      assert a in rows && b in rows;
    }
  }

  lemma InsertKeepsRows(rows: TripTable, trip: Trip, last: Time)
    requires RowsFit(rows, None, trip.id, last) && EndedBefore(rows, trip.startedAt)
    requires trip.startedAt <= last && trip.distanceM >= 0.0 && trip.pointsCount >= 1 && trip.durationSec >= 0
    ensures RowsFit(InsertTrip(rows, trip), Some(trip.id), trip.id + 1, last)
    ensures InsertTrip(rows, trip)[trip.id].startedAt == trip.startedAt
  {
  }

  // With no open trip, everything ended before any later time.
  lemma ClosedRowsEnded(rows: TripTable, nextId: TripId, last: Time, at: Time)
    requires RowsFit(rows, None, nextId, last) && last < at
    ensures EndedBefore(rows, at)
  {
  }

  lemma EvidenceStays(cfg: DetectionConfig, accepted: seq<ProcessedPoint>, p: ProcessedPoint, at: Time)
    ensures Evidence(cfg, accepted, at) ==> Evidence(cfg, accepted + [p], at)
    ensures Moves(cfg, p) ==> Evidence(cfg, accepted + [p], p.recordedAt)
  {
    if Evidence(cfg, accepted, at) {
      var i :| 0 <= i < |accepted| && accepted[i].recordedAt == at && Moves(cfg, accepted[i]);
      assert (accepted + [p])[i] == accepted[i];
    }
    assert (accepted + [p])[|accepted|] == p;
  }

  // A standstill begins after the movement that started the trip.
  lemma StopFollowsStart(cfg: DetectionConfig, accepted: seq<ProcessedPoint>, p: ProcessedPoint, startedAt: Time)
    requires Calm(cfg, accepted, p) && p.isStationary && Evidence(cfg, accepted, startedAt)
    ensures startedAt < StillSince(p) <= p.recordedAt
  {
  }

  // ---- one point ----

  lemma StartKeeps(env: Env, accepted: seq<ProcessedPoint>, t: Tracker, last: Time, p: ProcessedPoint)
    requires SoundAt(env.cfg, accepted, t, last) && last < p.recordedAt && p.filtered.Some?
    requires t.st.activeTripId.None? && t.st.candidateStartedAt.None?
    ensures SoundAt(env.cfg, accepted + [p], MaybeStart(env, t, p), p.recordedAt)
  {
    EvidenceStays(env.cfg, accepted, p, p.recordedAt);
    hide Evidence;
    RowsLast(t.rows, None, t.nextId, last, p.recordedAt);
    ClosedRowsEnded(t.rows, t.nextId, last, p.recordedAt);
  }

  lemma CloseKeeps(cfg: DetectionConfig, accepted: seq<ProcessedPoint>, t: Tracker, last: Time, endedAt: Time,
                   end: GeoPoint)
    requires SoundAt(cfg, accepted, t, last) && t.st.activeTripId.Some? && t.st.candidateStartedAt.None?
    requires t.rows[t.st.activeTripId.value].startedAt <= endedAt <= last
    ensures SoundAt(cfg, accepted, CloseTrip(t, endedAt, end), last)
  {
    hide RowsFit, Evidence, EndedBefore;
    assert t.st.activeTripId.value in t.rows by { OpenRow(t.rows, t.st.activeTripId, t.nextId, last); }
    CompleteKeepsRows(t.rows, t.st.activeTripId.value, t.nextId, last, endedAt, end);
  }

  lemma OpenRow(rows: TripTable, open: Option<TripId>, nextId: TripId, last: Time)
    requires RowsFit(rows, open, nextId, last)
    ensures open.Some? ==> open.value in rows && rows[open.value].startedAt <= last
  {
  }

  lemma ExtendKeeps(cfg: DetectionConfig, accepted: seq<ProcessedPoint>, t: Tracker, last: Time, p: ProcessedPoint)
    requires SoundAt(cfg, accepted, t, last) && last < p.recordedAt && p.filtered.Some? && p.distanceDeltaM >= 0.0
    requires t.st.activeTripId.Some? && t.st.candidateStartedAt.None? && t.st.stopStartedAt.None?
    ensures SoundAt(cfg, accepted + [p], Extend(t, p), p.recordedAt)
  {
    var id := t.st.activeTripId.value;
    hide RowsFit, Evidence;
    ExtendKeepsRows(t.rows, id, t.nextId, last, p.distanceDeltaM, LastFixOf(p));
    EvidenceStays(cfg, accepted, p, t.rows[id].startedAt);
  }

  // The tracker moves on to p without touching any row.
  lemma WaitKeeps(cfg: DetectionConfig, accepted: seq<ProcessedPoint>, t: Tracker, last: Time, p: ProcessedPoint)
    requires SoundAt(cfg, accepted, t, last) && last < p.recordedAt
    ensures SoundAt(cfg, accepted + [p], t, p.recordedAt)
  {
    if t.st.candidateStartedAt.Some? {
      EvidenceStays(cfg, accepted, p, t.st.candidateStartedAt.value);
    }
    if t.st.activeTripId.Some? && t.st.activeTripId.value in t.rows {
      EvidenceStays(cfg, accepted, p, t.rows[t.st.activeTripId.value].startedAt);
    }
    hide Evidence;
    RowsLast(t.rows, t.st.activeTripId, t.nextId, last, p.recordedAt);
  }

  lemma ConfirmKeeps(env: Env, accepted: seq<ProcessedPoint>, t: Tracker, last: Time, p: ProcessedPoint)
    requires SoundAt(env.cfg, accepted, t, last) && t.st.activeTripId.None? && t.st.stopStartedAt.None?
    requires t.st.candidateStartedAt.Some? && t.st.candidateStart.Some? && last <= p.recordedAt
    ensures SoundAt(env.cfg, accepted, OpenTrip(env, t, p), last)
  {
    var trip := NewTrip(env, t.st, p, t.nextId);
    RoundedIsNonNegative(p.recordedAt - t.st.candidateStartedAt.value);
    hide RowsFit, Evidence, TruncatedSeconds, EndedBefore;
    InsertKeepsRows(t.rows, trip, last);
  }

  lemma CandidateKeeps(env: Env, accepted: seq<ProcessedPoint>, t: Tracker, last: Time, p: ProcessedPoint)
    requires t.st.WellFormed() && t.st.state == MotionCandidate && p.filtered.Some?
    requires SoundAt(env.cfg, accepted, t, last) && last < p.recordedAt && p.distanceDeltaM >= 0.0
    ensures SoundAt(env.cfg, accepted + [p], ObserveCandidate(env, t, p), p.recordedAt)
  {
    hide RowsFit, Evidence, OpenTrip, EndedBefore;
    if p.isStationary || env.GapExceeded(t.st, p) {
      StartKeeps(env, accepted, t.(st := Reset(t.st)), last, p);
    } else {
      var kept := t.(st := Counted(env, t.st, p));
      WaitKeeps(env.cfg, accepted, kept, last, p);
      if ObserveCandidate(env, t, p) != kept {
        ConfirmKeeps(env, accepted + [p], kept, p.recordedAt, p);
      }
    }
  }

  lemma ActiveKeeps(env: Env, accepted: seq<ProcessedPoint>, t: Tracker, last: Time, p: ProcessedPoint)
    requires t.st.WellFormed() && t.st.state == TripActive && p.filtered.Some? && t.st.lastProcessedAt == Some(last)
    requires SoundAt(env.cfg, accepted, t, last) && last < p.recordedAt && Calm(env.cfg, accepted, p)
    ensures SoundAt(env.cfg, accepted + [p], ObserveActive(env, t, p), p.recordedAt)
  {
    OpenRow(t.rows, t.st.activeTripId, t.nextId, last);
    hide RowsFit, Evidence, CloseTrip, Extend, MaybeStart;
    if env.GapExceeded(t.st, p) {
      CloseKeeps(env.cfg, accepted, t, last, last, t.st.lastPoint.value);
      ClosedHasNoTrip(t, last, t.st.lastPoint.value);
      StartKeeps(env, accepted, CloseTrip(t, last, t.st.lastPoint.value), last, p);
    } else if p.isStationary {
      StopFollowsStart(env.cfg, accepted, p, t.rows[t.st.activeTripId.value].startedAt);
      WaitKeeps(env.cfg, accepted, t, last, p);
    } else {
      ExtendKeeps(env.cfg, accepted, t, last, p);
    }
  }

  lemma ClosedHasNoTrip(t: Tracker, endedAt: Time, end: GeoPoint)
    requires t.st.activeTripId.Some?
    ensures CloseTrip(t, endedAt, end).st == Ended(t.st)
  {
  }

  lemma StopKeeps(env: Env, accepted: seq<ProcessedPoint>, t: Tracker, last: Time, p: ProcessedPoint)
    requires t.st.WellFormed() && t.st.state == StopCandidate && p.filtered.Some?
    requires SoundAt(env.cfg, accepted, t, last) && last < p.recordedAt && p.distanceDeltaM >= 0.0
    ensures SoundAt(env.cfg, accepted + [p], ObserveStop(env, t, p), p.recordedAt)
  {
    OpenRow(t.rows, t.st.activeTripId, t.nextId, last);
    hide RowsFit, Evidence, CloseTrip, Extend;
    if !p.isStationary && env.dist(t.st.stopCenter.value, p.filtered.value) > env.cfg.stopRadiusM {
      ExtendKeeps(env.cfg, accepted, t.(st := t.st.(state := TripActive, stopStartedAt := None, stopCenter := None)),
          last, p);
    } else {
      WaitKeeps(env.cfg, accepted, t, last, p);
      if ObserveStop(env, t, p) != t {
        CloseKeeps(env.cfg, accepted + [p], t, p.recordedAt, t.st.stopStartedAt.value, t.st.stopCenter.value);
      }
    }
  }

  // Touching the last position does not matter here.
  lemma TouchKeeps(cfg: DetectionConfig, accepted: seq<ProcessedPoint>, t: Tracker, last: Time, p: ProcessedPoint)
    requires SoundAt(cfg, accepted, t, last)
    ensures SoundAt(cfg, accepted, t.(st := Touch(t.st, p)), last)
  {
  }

  lemma ObserveKeepsSound(env: Env, accepted: seq<ProcessedPoint>, t: Tracker, last: Time, p: ProcessedPoint)
    requires t.st.WellFormed() && p.IsUsable() && (t.st.lastProcessedAt.Some? ==> t.st.lastProcessedAt == Some(last))
    requires SoundAt(env.cfg, accepted, t, last) && last < p.recordedAt && Calm(env.cfg, accepted, p)
    ensures SoundAt(env.cfg, accepted + [p], Observe(env, t, p), p.recordedAt)
  {
    hide SoundAt, MaybeStart, ObserveCandidate, ObserveActive, ObserveStop;
    match t.st.state
    case Idle =>
      StartKeeps(env, accepted, t, last, p);
      TouchKeeps(env.cfg, accepted + [p], MaybeStart(env, t, p), p.recordedAt, p);
    case MotionCandidate =>
      CandidateKeeps(env, accepted, t, last, p);
      TouchKeeps(env.cfg, accepted + [p], ObserveCandidate(env, t, p), p.recordedAt, p);
    case TripActive =>
      ActiveKeeps(env, accepted, t, last, p);
      TouchKeeps(env.cfg, accepted + [p], ObserveActive(env, t, p), p.recordedAt, p);
    case StopCandidate =>
      StopKeeps(env, accepted, t, last, p);
      TouchKeeps(env.cfg, accepted + [p], ObserveStop(env, t, p), p.recordedAt, p);
  }

  lemma {:induction false} EnterKeepsRecords(env: Env, b: Book, p: ProcessedPoint)
    requires ClockFits(b) && Next(b, p) && RecordsFit(env.cfg, b) && Calm(env.cfg, b.accepted, p)
    ensures RecordsFit(env.cfg, Enter(env, b, p))
  {
    hide Observe, Calm, LinkAll, NewLinks;
    var last := if b.accepted == [] then p.recordedAt - 1 else b.accepted[|b.accepted| - 1].recordedAt;
    assert SoundAt(env.cfg, b.accepted, b.tracker, last);
    hide SoundAt, ClosingsFit;
    ObserveKeepsSound(env, b.accepted, b.tracker, last, p);
    EnterKeepsClosings(env, b, last, p);
  }

  lemma EnterKeepsClosings(env: Env, b: Book, last: Time, p: ProcessedPoint)
    requires b.tracker.st.WellFormed() && p.IsUsable() && ClosingsFit(b)
    requires SoundAt(env.cfg, b.accepted, b.tracker, last)
    requires SoundAt(env.cfg, b.accepted + [p], Observe(env, b.tracker, p), p.recordedAt)
    ensures ClosingsFit(Enter(env, b, p))
  {
    var t, after := b.tracker, Enter(env, b, p);
    SoundRows(env.cfg, b.accepted, t, last);
    SoundRows(env.cfg, b.accepted + [p], after.tracker, p.recordedAt);
    ObserveOpens(env, t, p);
    ObserveLeavesClosed(env, t, p);
    hide Observe, LinkAll, NewLinks, SoundAt, Confirming, ClosingFits, WasClosed;
    ClosingsStay(t.rows, after.tracker.rows, t.st.activeTripId, after.tracker.st.activeTripId, b.closings,
                 after.closings, p.recordedAt);
  }

  ghost predicate EndedUnlessOpen(rows: TripTable, open: Option<TripId>) {
    forall id :: id in rows ==> (rows[id].endedAt.Some? <==> open != Some(id))
  }

  lemma ClosingsStay(rows: TripTable, after: TripTable, open: Option<TripId>, next: Option<TripId>,
                     closings: seq<Closing>, more: seq<Closing>, at: Time)
    requires EndedUnlessOpen(rows, open) && EndedUnlessOpen(after, next)
    requires forall id :: id in after && after[id].endedAt.Some? ==> after[id].endedAt.value <= at
    requires forall id :: id in rows && open != Some(id) ==> id in after && after[id] == rows[id]
    requires forall id :: id in after ==> id in rows || next == Some(id)
    requires open.Some? ==> open.value in after
    requires more == if open.Some? && next != open then closings + [Closing(open.value, at)] else closings
    requires forall k :: 0 <= k < |closings| ==> ClosingFits(rows, closings[k])
    requires forall id :: id in rows && rows[id].endedAt.Some? ==> WasClosed(closings, id)
    ensures forall k :: 0 <= k < |more| ==> ClosingFits(after, more[k])
    ensures forall id :: id in after && after[id].endedAt.Some? ==> WasClosed(more, id)
  {
    forall k | 0 <= k < |more| ensures ClosingFits(after, more[k]) {
      if k < |closings| {
        assert ClosingFits(rows, closings[k]);
      }
    }
    forall id | id in after && after[id].endedAt.Some? ensures WasClosed(more, id) {
      if open == Some(id) {
        assert more[|closings|].id == id;
      } else {
        var k :| 0 <= k < |closings| && closings[k].id == id;
        assert more[k].id == id;
      }
    }
  }

  // A row is ended exactly when its trip is not the open one.
  lemma SoundRows(cfg: DetectionConfig, accepted: seq<ProcessedPoint>, t: Tracker, last: Time)
    requires SoundAt(cfg, accepted, t, last)
    ensures t.nextId !in t.rows && (t.st.activeTripId.Some? ==> t.st.activeTripId.value in t.rows)
    ensures EndedUnlessOpen(t.rows, t.st.activeTripId)
    ensures forall id :: id in t.rows && t.rows[id].endedAt.Some? ==> t.rows[id].endedAt.value <= last
  {
    assert forall id :: id in t.rows ==> RowFits(t.rows[id], last);
  }

  // Only the open trip's row is ever touched, and an opened trip is open.
  lemma ObserveLeavesClosed(env: Env, t: Tracker, p: ProcessedPoint)
    requires t.st.WellFormed() && p.IsUsable()
    ensures
      var after := Observe(env, t, p);
      && (forall id :: id in t.rows && t.st.activeTripId != Some(id)
                ==> id in after.rows && after.rows[id] == t.rows[id])
      && (Confirming(env, t, p) ==> after.st.activeTripId == Some(t.nextId))
  {
    hide RoundedSeconds, TruncatedSeconds, UpdatedRow, CompletedRow;
  }

  lemma {:induction false} EnterAllKeepsRecords(env: Env, b: Book, points: seq<ProcessedPoint>)
    requires ClockFits(b) && LinksFit(b) && RecordsFit(env.cfg, b) && Arrives(b, points)
    requires forall k :: 0 <= k < |points| ==> Calm(env.cfg, b.accepted + points[..k], points[k])
    ensures RecordsFit(env.cfg, EnterAll(env, b, points))
  {
    if points != [] {
      var front, p := points[..|points| - 1], points[|points| - 1];
      assert forall k :: 0 <= k < |front| ==> front[..k] == points[..k] && front[k] == points[k];
      LastIsCalm(env.cfg, b.accepted, points);
      ArrivingIsNext(b, points, EnterAll(env, b, front));
      hide ClockFits, LinksFit, RecordsFit, Arrives, Next, Calm, Enter;
      EnterAllKeepsRecords(env, b, front);
      EnterAllKeepsBooks(env, b, front);
      EnterKeepsRecords(env, EnterAll(env, b, front), p);
    }
  }

  lemma LastIsCalm(cfg: DetectionConfig, accepted: seq<ProcessedPoint>, points: seq<ProcessedPoint>)
    requires points != []
    requires forall k :: 0 <= k < |points| ==> Calm(cfg, accepted + points[..k], points[k])
    ensures Calm(cfg, accepted + points[..|points| - 1], points[|points| - 1])
  {
    hide Calm;
  }

  // ---- openings ----

  // Every trip was opened once, by a point late enough after its start.
  ghost predicate OpeningsFit(cfg: DetectionConfig, b: Book) {
    && (forall k :: 0 <= k < |b.openings| ==>
          OpeningFits(cfg, b.tracker.rows, b.openings[k]) && Recorded(b.accepted, b.openings[k].confirmedAt))
    && (forall id :: id in b.tracker.rows ==> WasOpened(b.openings, id))
  }

  ghost predicate OpeningFits(cfg: DetectionConfig, rows: TripTable, o: Opening) {
    && o.id in rows && rows[o.id].startedAt == o.startedAt
    && o.confirmedAt - o.startedAt >= Seconds(cfg.motionMinDurationSec)
  }

  ghost predicate WasOpened(openings: seq<Opening>, id: TripId) {
    exists k :: 0 <= k < |openings| && openings[k].id == id
  }

  // Only a confirming point adds a row, and no start ever changes.
  lemma ObserveOpens(env: Env, t: Tracker, p: ProcessedPoint)
    requires t.st.WellFormed() && p.IsUsable() && t.nextId !in t.rows
    ensures
      var after := Observe(env, t, p).rows;
      && (forall id :: id in t.rows ==> id in after && after[id].startedAt == t.rows[id].startedAt)
      && (if Confirming(env, t, p) then
            && after.Keys == t.rows.Keys + {t.nextId}
            && after[t.nextId].startedAt == t.st.candidateStartedAt.value
            && p.recordedAt - t.st.candidateStartedAt.value >= Seconds(env.cfg.motionMinDurationSec)
          else after.Keys == t.rows.Keys)
  {
    hide RoundedSeconds, TruncatedSeconds;
  }

  lemma {:induction false} EnterKeepsOpenings(env: Env, b: Book, p: ProcessedPoint)
    requires b.tracker.st.WellFormed() && p.IsUsable() && b.tracker.nextId !in b.tracker.rows
    requires OpeningsFit(env.cfg, b)
    ensures OpeningsFit(env.cfg, Enter(env, b, p))
  {
    ObserveOpens(env, b.tracker, p);
    hide Observe, LinkAll, NewLinks;
    var after := Enter(env, b, p);
    assert after.accepted[|b.accepted|] == p;
    hide Enter, Recorded;
    forall k | 0 <= k < |after.openings| ensures Recorded(after.accepted, after.openings[k].confirmedAt) {
      if k < |b.openings| {
        RecordedStays(b.accepted, p, b.openings[k].confirmedAt);
      }
    }
    forall id | id in after.tracker.rows ensures WasOpened(after.openings, id) {
      if id in b.tracker.rows {
        var k :| 0 <= k < |b.openings| && b.openings[k].id == id;
        assert after.openings[k].id == id;
      } else {
        assert after.openings[|b.openings|].id == id;
      }
    }
  }

  lemma {:induction false} EnterAllKeepsOpenings(env: Env, b: Book, points: seq<ProcessedPoint>)
    requires b.tracker.st.WellFormed() && OpeningsFit(env.cfg, b) && IdsBelow(b.tracker.rows, b.tracker.nextId)
    requires forall k :: 0 <= k < |points| ==> points[k].IsUsable()
    ensures OpeningsFit(env.cfg, EnterAll(env, b, points))
  {
    if points != [] {
      var front, p := points[..|points| - 1], points[|points| - 1];
      EnterAllKeepsOpenings(env, b, front);
      RowsStayBelow(env, b, front);
      NextIdIsFree(EnterAll(env, b, front).tracker);
      hide OpeningsFit, Enter, IdsBelow;
      EnterKeepsOpenings(env, EnterAll(env, b, front), p);
    }
  }

  lemma NextIdIsFree(t: Tracker)
    requires IdsBelow(t.rows, t.nextId)
    ensures t.nextId !in t.rows
  {
  }
}
