// What opens a trip and what its totals add up to, in terms of the accepted points alone: the
// movement since its start up to the point that confirmed it, and every point linked later.
module TripTotals {
  import opened Domain
  import opened TripDetection
  import opened TripRows
  import opened TripRefinement
  import opened TripGrammar
  import opened Storage
  import opened Ledger
  import opened TripRecords

  // ---- sums over points ----

  // Distance of the movement after one time and up to another.
  function Moved(cfg: DetectionConfig, points: seq<ProcessedPoint>, since: Time, to: Time): real {
    if points == [] then 0.0
    else
      var p := points[|points| - 1];
      Moved(cfg, points[..|points| - 1], since, to)
      + if since < p.recordedAt <= to && Moves(cfg, p) then p.distanceDeltaM else 0.0
  }

  // Movement points from one time up to another.
  function MovedCount(cfg: DetectionConfig, points: seq<ProcessedPoint>, since: Time, to: Time): nat {
    if points == [] then 0
    else
      var p := points[|points| - 1];
      MovedCount(cfg, points[..|points| - 1], since, to) + if since <= p.recordedAt <= to && Moves(cfg, p) then 1 else 0
  }

  // Distance and number of the points linked to a trip that were recorded after a time.
  function LinkedDistance(points: seq<ProcessedPoint>, links: LinkTable, id: TripId, after: Time): real {
    if points == [] then 0.0
    else
      var p := points[|points| - 1];
      LinkedDistance(points[..|points| - 1], links, id, after)
      + if p.recordedAt > after && LinkedTo(links, p.eventId, id) then p.distanceDeltaM else 0.0
  }

  function LinkedCount(points: seq<ProcessedPoint>, links: LinkTable, id: TripId, after: Time): nat {
    if points == [] then 0
    else
      var p := points[|points| - 1];
      LinkedCount(points[..|points| - 1], links, id, after)
      + if p.recordedAt > after && LinkedTo(links, p.eventId, id) then 1 else 0
  }

  lemma OneMore(points: seq<ProcessedPoint>, p: ProcessedPoint)
    ensures (points + [p])[..|points|] == points && (points + [p])[|points|] == p
  {
  }

  lemma MovedOneMore(cfg: DetectionConfig, points: seq<ProcessedPoint>, p: ProcessedPoint, since: Time, to: Time)
    ensures Moved(cfg, points + [p], since, to)
            == Moved(cfg, points, since, to)
               + if since < p.recordedAt <= to && Moves(cfg, p) then p.distanceDeltaM else 0.0
    ensures MovedCount(cfg, points + [p], since, to)
            == MovedCount(cfg, points, since, to) + if since <= p.recordedAt <= to && Moves(cfg, p) then 1 else 0
  {
    OneMore(points, p);
    hide Moves;
  }

  lemma LinkedOneMore(points: seq<ProcessedPoint>, p: ProcessedPoint, links: LinkTable, id: TripId, after: Time)
    ensures LinkedDistance(points + [p], links, id, after)
            == LinkedDistance(points, links, id, after)
               + if p.recordedAt > after && LinkedTo(links, p.eventId, id) then p.distanceDeltaM else 0.0
    ensures LinkedCount(points + [p], links, id, after)
            == LinkedCount(points, links, id, after)
               + if p.recordedAt > after && LinkedTo(links, p.eventId, id) then 1 else 0
  {
    OneMore(points, p);
    hide LinkedTo;
  }

  // Past the last point, the upper bound does not matter.
  lemma {:induction false} MovedSoFar(cfg: DetectionConfig, points: seq<ProcessedPoint>, since: Time, to: Time,
                                      later: Time)
    requires to <= later && forall i :: 0 <= i < |points| ==> points[i].recordedAt <= to
    ensures Moved(cfg, points, since, later) == Moved(cfg, points, since, to)
    ensures MovedCount(cfg, points, since, later) == MovedCount(cfg, points, since, to)
  {
    hide Moves;
    if points != [] {
      MovedSoFar(cfg, points[..|points| - 1], since, to, later);
    }
  }

  lemma {:induction false} NothingMovedYet(cfg: DetectionConfig, points: seq<ProcessedPoint>, since: Time, to: Time)
    requires forall i :: 0 <= i < |points| ==> points[i].recordedAt < since
    ensures Moved(cfg, points, since, to) == 0.0 && MovedCount(cfg, points, since, to) == 0
  {
    hide Moves;
    if points != [] {
      NothingMovedYet(cfg, points[..|points| - 1], since, to);
    }
  }

  // Sums only look at which points are linked to the trip.
  lemma {:induction false} SameLinksSameSums(points: seq<ProcessedPoint>, links: LinkTable, after: LinkTable,
                                             id: TripId, at: Time)
    requires forall i :: 0 <= i < |points| ==>
               (LinkedTo(after, points[i].eventId, id) <==> LinkedTo(links, points[i].eventId, id))
    ensures LinkedDistance(points, after, id, at) == LinkedDistance(points, links, id, at)
    ensures LinkedCount(points, after, id, at) == LinkedCount(points, links, id, at)
  {
    hide LinkedTo;
    if points != [] {
      SameLinksSameSums(points[..|points| - 1], links, after, id, at);
    }
  }

  lemma {:induction false} NothingLinkedLater(points: seq<ProcessedPoint>, links: LinkTable, id: TripId, at: Time)
    requires forall i :: 0 <= i < |points| ==> points[i].recordedAt <= at
    ensures LinkedDistance(points, links, id, at) == 0.0 && LinkedCount(points, links, id, at) == 0
  {
    hide LinkedTo;
    if points != [] {
      NothingLinkedLater(points[..|points| - 1], links, id, at);
    }
  }

  // ---- what opens a trip ----

  // Long enough, far enough, and with enough movement points.
  predicate Ripe(cfg: DetectionConfig, points: seq<ProcessedPoint>, since: Time, to: Time) {
    && to - since >= Seconds(cfg.motionMinDurationSec)
    && Moved(cfg, points, since, to) >= cfg.motionMinDistanceM
    && MovedCount(cfg, points, since, to) >= cfg.motionMinGoodPoints
  }

  // No standstill and no long silence after one time and up to another.
  predicate Unbroken(cfg: DetectionConfig, points: seq<ProcessedPoint>, since: Time, to: Time) {
    forall i :: 0 < i < |points| && since < points[i].recordedAt <= to ==>
      !points[i].isStationary && points[i].recordedAt - points[i - 1].recordedAt <= Seconds(cfg.stopMinDurationSec)
  }

  // Movement was recorded at this very time and place.
  ghost predicate MovedFrom(cfg: DetectionConfig, points: seq<ProcessedPoint>, at: Time, start: GeoPoint) {
    exists i :: 0 <= i < |points| && points[i].recordedAt == at && Moves(cfg, points[i])
                && points[i].filtered == Some(start)
  }

  // No earlier point after the start would have been enough.
  ghost predicate NotRipeBefore(cfg: DetectionConfig, points: seq<ProcessedPoint>, since: Time, to: Time) {
    forall i :: 0 <= i < |points| && since < points[i].recordedAt < to ==>
      !Ripe(cfg, points, since, points[i].recordedAt)
  }

  lemma RipeOneMore(cfg: DetectionConfig, points: seq<ProcessedPoint>, p: ProcessedPoint, since: Time, to: Time)
    requires to < p.recordedAt
    ensures Ripe(cfg, points + [p], since, to) <==> Ripe(cfg, points, since, to)
  {
    MovedOneMore(cfg, points, p, since, to);
    hide Moved, MovedCount, Moves;
  }

  lemma UnbrokenOneMore(cfg: DetectionConfig, points: seq<ProcessedPoint>, p: ProcessedPoint, since: Time, to: Time)
    requires Unbroken(cfg, points, since, to)
    requires p.recordedAt <= to && points != [] ==>
               && !p.isStationary
               && p.recordedAt - points[|points| - 1].recordedAt <= Seconds(cfg.stopMinDurationSec)
    ensures Unbroken(cfg, points + [p], since, to)
  {
  }

  lemma MovedFromStays(cfg: DetectionConfig, points: seq<ProcessedPoint>, p: ProcessedPoint, at: Time, start: GeoPoint)
    ensures MovedFrom(cfg, points, at, start) ==> MovedFrom(cfg, points + [p], at, start)
    ensures Moves(cfg, p) && p.filtered == Some(start) ==> MovedFrom(cfg, points + [p], p.recordedAt, start)
  {
    OneMore(points, p);
    hide Moves;
    if MovedFrom(cfg, points, at, start) {
      var i :| 0 <= i < |points| && points[i].recordedAt == at && Moves(cfg, points[i])
               && points[i].filtered == Some(start);
      assert (points + [p])[i] == points[i];
    }
  }

  lemma NotRipeStays(cfg: DetectionConfig, points: seq<ProcessedPoint>, p: ProcessedPoint, since: Time, to: Time)
    requires NotRipeBefore(cfg, points, since, to) && to <= p.recordedAt
    ensures NotRipeBefore(cfg, points + [p], since, to)
  {
    hide Ripe;
    forall i | 0 <= i < |points + [p]| && since < (points + [p])[i].recordedAt < to
      ensures !Ripe(cfg, points + [p], since, (points + [p])[i].recordedAt)
    {
      RipeOneMore(cfg, points, p, since, points[i].recordedAt);
    }
  }

  // ---- what every book keeps ----

  // Candidate totals are those of the movement since the candidate's start, and were never
  // enough.
  ghost predicate CandidateFits(cfg: DetectionConfig, b: Book) {
    var st := b.tracker.st;
    st.candidateStartedAt.Some? && st.candidateStart.Some? && st.lastProcessedAt.Some? ==>
      var since, last := st.candidateStartedAt.value, st.lastProcessedAt.value;
      && since <= last && MovedFrom(cfg, b.accepted, since, st.candidateStart.value)
      && Unbroken(cfg, b.accepted, since, last) && NotRipeBefore(cfg, b.accepted, since, last + 1)
      && st.candidateDistanceM == Moved(cfg, b.accepted, since, last)
      && st.candidateGoodPoints == MovedCount(cfg, b.accepted, since, last)
  }

  // An opened trip began with movement that went on without a break and was enough exactly from
  // its confirming point on; its totals are those of that movement and of all points linked
  // later.
  ghost predicate OpeningIs(cfg: DetectionConfig, b: Book, o: Opening) {
    && o.id in b.tracker.rows && o.id < b.tracker.nextId
    && var row := b.tracker.rows[o.id];
       && row.startedAt == o.startedAt && MovedFrom(cfg, b.accepted, o.startedAt, row.start)
       && Unbroken(cfg, b.accepted, o.startedAt, o.confirmedAt)
       && Ripe(cfg, b.accepted, o.startedAt, o.confirmedAt)
       && NotRipeBefore(cfg, b.accepted, o.startedAt, o.confirmedAt)
       && row.distanceM == Moved(cfg, b.accepted, o.startedAt, o.confirmedAt)
                           + LinkedDistance(b.accepted, b.links, o.id, o.confirmedAt)
       && row.pointsCount == MovedCount(cfg, b.accepted, o.startedAt, o.confirmedAt)
                             + LinkedCount(b.accepted, b.links, o.id, o.confirmedAt)
  }

  ghost predicate TotalsFit(cfg: DetectionConfig, b: Book) {
    && CandidateFits(cfg, b)
    && forall k :: 0 <= k < |b.openings| ==> OpeningIs(cfg, b, b.openings[k])
  }

  // ---- what one point does ----

  // What a point adds to the totals of a candidate.
  function Gain(cfg: DetectionConfig, p: ProcessedPoint): real {
    if Moves(cfg, p) then p.distanceDeltaM else 0.0
  }

  function GoodGain(cfg: DetectionConfig, p: ProcessedPoint): nat {
    if Moves(cfg, p) then 1 else 0
  }

  predicate Enough(cfg: DetectionConfig, st: DetectionState, p: ProcessedPoint)
    requires st.candidateStartedAt.Some?
  {
    && p.recordedAt - st.candidateStartedAt.value >= Seconds(cfg.motionMinDurationSec)
    && st.candidateDistanceM + Gain(cfg, p) >= cfg.motionMinDistanceM
    && st.candidateGoodPoints + GoodGain(cfg, p) >= cfg.motionMinGoodPoints
  }

  // The point neither stands nor follows a long silence.
  predicate Continues(cfg: DetectionConfig, st: DetectionState, p: ProcessedPoint) {
    && !p.isStationary
    && (st.lastProcessedAt.Some? ==> p.recordedAt - st.lastProcessedAt.value <= Seconds(cfg.stopMinDurationSec))
  }

  predicate IsFresh(cfg: DetectionConfig, st: DetectionState, p: ProcessedPoint) {
    && Moves(cfg, p) && st.candidateStartedAt == Some(p.recordedAt) && st.candidateStart == p.filtered
    && st.candidateDistanceM == 0.0 && st.candidateGoodPoints == 1
  }

  predicate IsKept(cfg: DetectionConfig, st: DetectionState, after: DetectionState, p: ProcessedPoint) {
    && after.candidateStartedAt == st.candidateStartedAt && after.candidateStart == st.candidateStart
    && after.candidateStartedAt.Some? && Continues(cfg, st, p) && !Enough(cfg, st, p)
    && after.candidateDistanceM == st.candidateDistanceM + Gain(cfg, p)
    && after.candidateGoodPoints == st.candidateGoodPoints + GoodGain(cfg, p)
  }

  lemma CandidateMoves(env: Env, t: Tracker, p: ProcessedPoint)
    requires t.st.WellFormed() && p.IsUsable() && t.nextId !in t.rows
    ensures
      var after := Observe(env, t, p);
      && after.st.lastProcessedAt == Some(p.recordedAt)
      && (after.st.candidateStartedAt.Some? ==>
            IsFresh(env.cfg, after.st, p) || IsKept(env.cfg, t.st, after.st, p))
      && (Confirming(env, t, p) ==>
            && t.st.candidateStartedAt.Some? && t.st.candidateStart.Some?
            && Continues(env.cfg, t.st, p) && Enough(env.cfg, t.st, p)
            && t.nextId in after.rows && after.nextId == t.nextId + 1
            && after.rows[t.nextId].startedAt == t.st.candidateStartedAt.value
            && after.rows[t.nextId].start == t.st.candidateStart.value
            && after.rows[t.nextId].distanceM == t.st.candidateDistanceM + Gain(env.cfg, p)
            && after.rows[t.nextId].pointsCount == t.st.candidateGoodPoints + GoodGain(env.cfg, p))
      && (!Confirming(env, t, p) ==> after.nextId == t.nextId)
  {
    hide RoundedSeconds, TruncatedSeconds, UpdatedRow, CompletedRow, Moves;
  }

  lemma RowMoves(env: Env, t: Tracker, p: ProcessedPoint, id: TripId)
    requires t.st.WellFormed() && p.IsUsable() && t.nextId !in t.rows && id in t.rows
    ensures
      var after := Observe(env, t, p).rows;
      var credited := CreditOf(env, t.st, p) != [] && t.st.activeTripId == Some(id);
      && id in after && after[id].startedAt == t.rows[id].startedAt && after[id].start == t.rows[id].start
      && after[id].distanceM == t.rows[id].distanceM + (if credited then p.distanceDeltaM else 0.0)
      && after[id].pointsCount == t.rows[id].pointsCount + (if credited then 1 else 0)
  {
    hide RoundedSeconds, TruncatedSeconds;
  }

  // Entering a point links no earlier point to an earlier trip, and itself only as its credit.
  lemma LinksMove(env: Env, b: Book, p: ProcessedPoint, id: TripId)
    requires ClockFits(b) && LinksFit(b) && Ledger.Next(b, p) && id < b.tracker.nextId
    ensures
      var links := Enter(env, b, p).links;
      && (forall i :: 0 <= i < |b.accepted| ==>
            (LinkedTo(links, b.accepted[i].eventId, id) <==> LinkedTo(b.links, b.accepted[i].eventId, id)))
      && (LinkedTo(links, p.eventId, id)
          <==> CreditOf(env, b.tracker.st, p) != [] && b.tracker.st.activeTripId == Some(id))
  {
    NextIsNotLinked(b, p);
    StateMoves(env, b.tracker, p);
    hide Observe, LinksFit;
    if Confirming(env, b.tracker, p) {
      ConfirmingIsNoCredit(env, b.tracker, p);
      OpeningLinks(env, b, p);
      hide LinkAll, NewLinks, Since, ClockFits, CreditOf;
      forall e ensures LinkedTo(Enter(env, b, p).links, e, id) <==> LinkedTo(b.links, e, id) {
        if e !in b.links {
          OpenedLinksAreNew(env, b, p, e);
        }
      }
    } else {
      var credit := CreditOf(env, b.tracker.st, p);
      if credit == [] {
        assert NewLinks(env, b, p) == [];
      } else {
        assert NewLinks(env, b, p) == [TripPoint(credit[0].tripId, p.eventId, p.recordedAt)];
        LinkOne(b.links, NewLinks(env, b, p)[0]);
      }
      hide CreditOf, ClockFits;
    }
  }

  lemma ConfirmingIsNoCredit(env: Env, t: Tracker, p: ProcessedPoint)
    requires t.st.WellFormed() && p.IsUsable() && Confirming(env, t, p)
    ensures CreditOf(env, t.st, p) == [] && t.st.activeTripId.None?
  {
    hide Observe;
  }

  // ---- one point keeps the totals ----

  lemma LastIs(b: Book, p: ProcessedPoint)
    requires ClockFits(b) && Ledger.Next(b, p) && b.tracker.st.lastProcessedAt.Some?
    ensures b.accepted != [] && b.accepted[|b.accepted| - 1].recordedAt == b.tracker.st.lastProcessedAt.value
    ensures b.tracker.st.lastProcessedAt.value < p.recordedAt
    ensures forall i :: 0 <= i < |b.accepted| ==> b.accepted[i].recordedAt <= b.tracker.st.lastProcessedAt.value
  {
    hide Distinct;
  }

  // The totals over one more point that goes on.
  lemma SumsGrow(cfg: DetectionConfig, points: seq<ProcessedPoint>, p: ProcessedPoint, since: Time, last: Time)
    requires since <= last < p.recordedAt && forall i :: 0 <= i < |points| ==> points[i].recordedAt <= last
    ensures Moved(cfg, points + [p], since, p.recordedAt) == Moved(cfg, points, since, last) + Gain(cfg, p)
    ensures MovedCount(cfg, points + [p], since, p.recordedAt)
            == MovedCount(cfg, points, since, last) + GoodGain(cfg, p)
  {
    hide Moved, MovedCount, Moves;
    MovedOneMore(cfg, points, p, since, p.recordedAt);
    MovedSoFar(cfg, points, since, last, p.recordedAt);
  }

  lemma UnbrokenGoesOn(cfg: DetectionConfig, points: seq<ProcessedPoint>, p: ProcessedPoint, since: Time, last: Time)
    requires Unbroken(cfg, points, since, last)
    requires points != [] && points[|points| - 1].recordedAt == last < p.recordedAt
    requires forall i :: 0 <= i < |points| ==> points[i].recordedAt <= last
    requires !p.isStationary && p.recordedAt - last <= Seconds(cfg.stopMinDurationSec)
    ensures Unbroken(cfg, points + [p], since, p.recordedAt)
  {
    assert Unbroken(cfg, points, since, p.recordedAt);
    UnbrokenOneMore(cfg, points, p, since, p.recordedAt);
  }

  // With this point the candidate's movement is enough exactly when its totals are.
  lemma EnoughIsRipe(env: Env, b: Book, p: ProcessedPoint)
    requires ClockFits(b) && Ledger.Next(b, p) && CandidateFits(env.cfg, b)
    requires b.tracker.st.candidateStartedAt.Some?
    ensures
      var st := b.tracker.st;
      var since, all := st.candidateStartedAt.value, b.accepted + [p];
      && Enough(env.cfg, st, p) == Ripe(env.cfg, all, since, p.recordedAt)
      && st.candidateDistanceM + Gain(env.cfg, p) == Moved(env.cfg, all, since, p.recordedAt)
      && st.candidateGoodPoints + GoodGain(env.cfg, p) == MovedCount(env.cfg, all, since, p.recordedAt)
      && NotRipeBefore(env.cfg, all, since, p.recordedAt)
  {
    hide Moved, MovedCount, Moves, Gain, GoodGain, NotRipeBefore, Unbroken, MovedFrom;
    LastIs(b, p);
    var st := b.tracker.st;
    SumsGrow(env.cfg, b.accepted, p, st.candidateStartedAt.value, st.lastProcessedAt.value);
    hide ClockFits, Ledger.Next;
    NotRipeUpTo(env.cfg, b.accepted, st.candidateStartedAt.value, st.lastProcessedAt.value, p.recordedAt);
    NotRipeStays(env.cfg, b.accepted, p, st.candidateStartedAt.value, p.recordedAt);
  }

  lemma NotRipeUpTo(cfg: DetectionConfig, points: seq<ProcessedPoint>, since: Time, last: Time, to: Time)
    requires NotRipeBefore(cfg, points, since, last + 1)
    requires forall i :: 0 <= i < |points| ==> points[i].recordedAt <= last
    ensures NotRipeBefore(cfg, points, since, to)
  {
    hide Ripe;
  }

  lemma FreshFits(cfg: DetectionConfig, after: Book, accepted: seq<ProcessedPoint>, p: ProcessedPoint)
    requires after.accepted == accepted + [p] && p.filtered.Some? && IsFresh(cfg, after.tracker.st, p)
    requires after.tracker.st.lastProcessedAt == Some(p.recordedAt)
    requires forall i :: 0 <= i < |accepted| ==> accepted[i].recordedAt < p.recordedAt
    ensures CandidateFits(cfg, after)
  {
    var at := p.recordedAt;
    MovedFromStays(cfg, accepted, p, at, p.filtered.value);
    MovedOneMore(cfg, accepted, p, at, at);
    NothingMovedYet(cfg, accepted, at, at);
    hide Moved, MovedCount, Moves, MovedFrom, Ripe;
  }

  lemma KeptFits(env: Env, b: Book, after: Book, p: ProcessedPoint)
    requires ClockFits(b) && Ledger.Next(b, p) && CandidateFits(env.cfg, b) && after.accepted == b.accepted + [p]
    requires b.tracker.st.candidateStartedAt.Some? && IsKept(env.cfg, b.tracker.st, after.tracker.st, p)
    requires after.tracker.st.lastProcessedAt == Some(p.recordedAt)
    ensures CandidateFits(env.cfg, after)
  {
    var st := b.tracker.st;
    var since, last := st.candidateStartedAt.value, st.lastProcessedAt.value;
    LastIs(b, p);
    EnoughIsRipe(env, b, p);
    hide Moved, MovedCount, Moves, Gain, GoodGain, Ripe, Enough, Ledger.Next, Distinct;
    if st.candidateStart.Some? {
      MovedFromStays(env.cfg, b.accepted, p, since, st.candidateStart.value);
    }
    UnbrokenGoesOn(env.cfg, b.accepted, p, since, last);
    hide ClockFits, Unbroken, MovedFrom;
    NotRipeAtLast(env.cfg, b.accepted, p, since);
  }

  lemma NotRipeAtLast(cfg: DetectionConfig, points: seq<ProcessedPoint>, p: ProcessedPoint, since: Time)
    requires NotRipeBefore(cfg, points + [p], since, p.recordedAt) && !Ripe(cfg, points + [p], since, p.recordedAt)
    ensures NotRipeBefore(cfg, points + [p], since, p.recordedAt + 1)
  {
    hide Ripe;
  }

  lemma EnterKeepsCandidate(env: Env, b: Book, p: ProcessedPoint)
    requires ClockFits(b) && Ledger.Next(b, p) && CandidateFits(env.cfg, b) && b.tracker.nextId !in b.tracker.rows
    ensures CandidateFits(env.cfg, Enter(env, b, p))
  {
    var after := Enter(env, b, p);
    CandidateMoves(env, b.tracker, p);
    hide Observe, NewLinks, LinkAll, IsFresh, IsKept, Confirming, Completing;
    if after.tracker.st.candidateStartedAt.Some? {
      if IsFresh(env.cfg, after.tracker.st, p) {
        FreshFits(env.cfg, after, b.accepted, p);
      } else {
        KeptHasStart(env.cfg, b.tracker.st, after.tracker.st, p);
        KeptFits(env, b, after, p);
      }
    }
  }

  lemma KeptHasStart(cfg: DetectionConfig, st: DetectionState, after: DetectionState, p: ProcessedPoint)
    requires IsKept(cfg, st, after, p)
    ensures st.candidateStartedAt.Some? && after.candidateStartedAt == st.candidateStartedAt
  {
  }

  // An earlier opening stays what it was, with its totals grown by the point's credit.
  lemma OpeningStays(env: Env, b: Book, p: ProcessedPoint, o: Opening)
    requires ClockFits(b) && LinksFit(b) && Ledger.Next(b, p) && b.tracker.nextId !in b.tracker.rows
    requires OpeningIs(env.cfg, b, o) && o.confirmedAt < p.recordedAt
    ensures OpeningIs(env.cfg, Enter(env, b, p), o)
  {
    hide *;
    OpeningParts(env.cfg, b, o);
    EnteredIs(env, b, p);
    RowMoves(env, b.tracker, p, o.id);
    LinksMove(env, b, p, o.id);
    var after := Enter(env, b, p);
    CandidateMoves(env, b.tracker, p);
    MovedOneMore(env.cfg, b.accepted, p, o.startedAt, o.confirmedAt);
    SameLinksSameSums(b.accepted, b.links, after.links, o.id, o.confirmedAt);
    LinkedOneMore(b.accepted, p, after.links, o.id, o.confirmedAt);
    MovedFromStays(env.cfg, b.accepted, p, o.startedAt, b.tracker.rows[o.id].start);
    RipeOneMore(env.cfg, b.accepted, p, o.startedAt, o.confirmedAt);
    UnbrokenOneMore(env.cfg, b.accepted, p, o.startedAt, o.confirmedAt);
    NotRipeStays(env.cfg, b.accepted, p, o.startedAt, o.confirmedAt);
    OpeningFromParts(env.cfg, after, o);
  }

  lemma EnteredIs(env: Env, b: Book, p: ProcessedPoint)
    requires ClockFits(b) && Ledger.Next(b, p)
    ensures b.tracker.st.WellFormed() && p.IsUsable()
    ensures Enter(env, b, p).tracker == Observe(env, b.tracker, p) && Enter(env, b, p).accepted == b.accepted + [p]
    ensures forall i :: 0 <= i < |b.accepted| ==> b.accepted[i].recordedAt < p.recordedAt
  {
    hide Observe, NewLinks, LinkAll, Distinct;
  }

  lemma OpeningParts(cfg: DetectionConfig, b: Book, o: Opening)
    requires OpeningIs(cfg, b, o)
    ensures o.id in b.tracker.rows && o.id < b.tracker.nextId
    ensures
      var row := b.tracker.rows[o.id];
      && row.startedAt == o.startedAt && MovedFrom(cfg, b.accepted, o.startedAt, row.start)
      && Unbroken(cfg, b.accepted, o.startedAt, o.confirmedAt) && Ripe(cfg, b.accepted, o.startedAt, o.confirmedAt)
      && NotRipeBefore(cfg, b.accepted, o.startedAt, o.confirmedAt)
      && row.distanceM == Moved(cfg, b.accepted, o.startedAt, o.confirmedAt)
                          + LinkedDistance(b.accepted, b.links, o.id, o.confirmedAt)
      && row.pointsCount == MovedCount(cfg, b.accepted, o.startedAt, o.confirmedAt)
                            + LinkedCount(b.accepted, b.links, o.id, o.confirmedAt)
  {
    hide MovedFrom, Unbroken, Ripe, NotRipeBefore, Moved, MovedCount, LinkedDistance, LinkedCount;
  }

  lemma OpeningFromParts(cfg: DetectionConfig, b: Book, o: Opening)
    requires o.id in b.tracker.rows && o.id < b.tracker.nextId
    requires
      var row := b.tracker.rows[o.id];
      && row.startedAt == o.startedAt && MovedFrom(cfg, b.accepted, o.startedAt, row.start)
      && Unbroken(cfg, b.accepted, o.startedAt, o.confirmedAt) && Ripe(cfg, b.accepted, o.startedAt, o.confirmedAt)
      && NotRipeBefore(cfg, b.accepted, o.startedAt, o.confirmedAt)
      && row.distanceM == Moved(cfg, b.accepted, o.startedAt, o.confirmedAt)
                          + LinkedDistance(b.accepted, b.links, o.id, o.confirmedAt)
      && row.pointsCount == MovedCount(cfg, b.accepted, o.startedAt, o.confirmedAt)
                            + LinkedCount(b.accepted, b.links, o.id, o.confirmedAt)
    ensures OpeningIs(cfg, b, o)
  {
    hide MovedFrom, Unbroken, Ripe, NotRipeBefore, Moved, MovedCount, LinkedDistance, LinkedCount;
  }

  // The opening a confirming point makes.
  lemma NewOpeningIs(env: Env, b: Book, p: ProcessedPoint)
    requires ClockFits(b) && Ledger.Next(b, p) && CandidateFits(env.cfg, b) && b.tracker.nextId !in b.tracker.rows
    requires b.tracker.st.WellFormed() && Confirming(env, b.tracker, p)
    ensures b.tracker.st.candidateStartedAt.Some?
    ensures OpeningIs(env.cfg, Enter(env, b, p),
                      Opening(b.tracker.nextId, b.tracker.st.candidateStartedAt.value, p.recordedAt))
  {
    hide *;
    EnteredIs(env, b, p);
    CandidateMoves(env, b.tracker, p);
    EnoughIsRipe(env, b, p);
    CandidateParts(env, b, p);
    var st, after := b.tracker.st, Enter(env, b, p);
    var since := st.candidateStartedAt.value;
    MovedFromStays(env.cfg, b.accepted, p, since, st.candidateStart.value);
    NothingLinkedLater(after.accepted, after.links, b.tracker.nextId, p.recordedAt);
    OpeningFromParts(env.cfg, after, Opening(b.tracker.nextId, since, p.recordedAt));
  }

  lemma CandidateParts(env: Env, b: Book, p: ProcessedPoint)
    requires ClockFits(b) && Ledger.Next(b, p) && CandidateFits(env.cfg, b)
    requires b.tracker.st.candidateStartedAt.Some? && b.tracker.st.candidateStart.Some?
    requires Continues(env.cfg, b.tracker.st, p)
    ensures MovedFrom(env.cfg, b.accepted, b.tracker.st.candidateStartedAt.value, b.tracker.st.candidateStart.value)
    ensures Unbroken(env.cfg, b.accepted + [p], b.tracker.st.candidateStartedAt.value, p.recordedAt)
  {
    LastIs(b, p);
    hide Moved, MovedCount, Moves, NotRipeBefore, MovedFrom, Distinct;
    UnbrokenGoesOn(env.cfg, b.accepted, p, b.tracker.st.candidateStartedAt.value, b.tracker.st.lastProcessedAt.value);
    hide Unbroken;
  }

  lemma {:induction false} EnterKeepsTotals(env: Env, b: Book, p: ProcessedPoint)
    requires ClockFits(b) && LinksFit(b) && Ledger.Next(b, p) && TotalsFit(env.cfg, b)
    requires b.tracker.nextId !in b.tracker.rows
    ensures TotalsFit(env.cfg, Enter(env, b, p))
  {
    var after := Enter(env, b, p);
    EnterKeepsCandidate(env, b, p);
    OpeningsAreOld(b, p);
    hide CandidateFits, OpeningIs, ClockFits, LinksFit, Ledger.Next, Observe, NewLinks, LinkAll, Confirming, Completing;
    forall k | 0 <= k < |after.openings| ensures OpeningIs(env.cfg, after, after.openings[k]) {
      if k < |b.openings| {
        OpeningStays(env, b, p, b.openings[k]);
      } else {
        NewOpeningIs(env, b, p);
      }
    }
  }

  lemma OpeningsAreOld(b: Book, p: ProcessedPoint)
    requires ClockFits(b) && LinksFit(b) && Ledger.Next(b, p)
    ensures b.tracker.st.WellFormed()
    ensures forall k :: 0 <= k < |b.openings| ==> b.openings[k].confirmedAt < p.recordedAt
  {
    hide LinkFits, BackfilledExactly, Distinct;
    if b.tracker.st.lastProcessedAt.Some? {
      LastIs(b, p);
    }
  }
}
