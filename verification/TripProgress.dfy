// While a trip is open: its row follows the latest point linked to it, and after a standstill
// only a point beyond the stop radius takes it up again.
module TripProgress {
  import opened Domain
  import opened TripDetection
  import opened TripRows
  import opened TripRefinement
  import opened TripGrammar
  import opened Storage
  import opened Ledger
  import opened TripRecords
  import opened TripTotals
  import opened TripEnds

  // ---- the row of an open trip ----

  // Nothing was linked to the trip after it was confirmed.
  ghost predicate NothingLater(b: Book, o: Opening) {
    forall i :: 0 <= i < |b.accepted| && b.accepted[i].recordedAt > o.confirmedAt ==>
      !LinkedTo(b.links, b.accepted[i].eventId, o.id)
  }

  // The i-th point is the latest one linked to the trip since it was confirmed.
  ghost predicate LatestIs(b: Book, o: Opening, i: nat) {
    && i < |b.accepted| && b.accepted[i].recordedAt > o.confirmedAt && LinkedTo(b.links, b.accepted[i].eventId, o.id)
    && forall j :: i < j < |b.accepted| ==> !LinkedTo(b.links, b.accepted[j].eventId, o.id)
  }

  predicate RowAsConfirmed(row: TripRow, o: Opening) {
    row.end.None? && row.durationSec == TruncatedSeconds(o.confirmedAt - o.startedAt)
  }

  predicate RowAsOf(row: TripRow, p: ProcessedPoint) {
    row.end == p.filtered && row.durationSec == RoundedSeconds(p.recordedAt - row.startedAt)
  }

  // The row is active; it ends, so far, at the latest linked point, or nowhere yet.
  ghost predicate OpenRowIs(b: Book, o: Opening) {
    && o.id in b.tracker.rows
    && var row := b.tracker.rows[o.id];
       && row.status == Active && row.endedAt.None? && row.startedAt == o.startedAt
       && (|| (NothingLater(b, o) && RowAsConfirmed(row, o))
           || exists i :: 0 <= i < |b.accepted| && LatestIs(b, o, i) && RowAsOf(row, b.accepted[i]))
  }

  ghost predicate OpenRowFits(b: Book) {
    forall k :: 0 <= k < |b.openings| && b.tracker.st.activeTripId == Some(b.openings[k].id) ==>
      OpenRowIs(b, b.openings[k])
  }

  // What a point does to the row of a trip that stays open.
  lemma OpenRowMoves(env: Env, t: Tracker, p: ProcessedPoint, id: TripId)
    requires t.st.WellFormed() && p.IsUsable() && t.nextId !in t.rows && id in t.rows
    requires t.st.activeTripId == Some(id) && Observe(env, t, p).st.activeTripId == Some(id)
    ensures
      var after := Observe(env, t, p).rows;
      && id in after
      && if CreditOf(env, t.st, p) == [] then after[id] == t.rows[id]
         else
           && after[id].status == t.rows[id].status && after[id].endedAt == t.rows[id].endedAt
           && after[id].startedAt == t.rows[id].startedAt && RowAsOf(after[id], p)
  {
    hide RoundedSeconds, TruncatedSeconds, Moves;
  }

  lemma ConfirmedRowIs(env: Env, t: Tracker, p: ProcessedPoint)
    requires t.st.WellFormed() && p.IsUsable() && t.nextId !in t.rows && Confirming(env, t, p)
    ensures t.st.candidateStartedAt.Some?
    ensures
      var after := Observe(env, t, p);
      && t.nextId in after.rows && after.st.activeTripId == Some(t.nextId)
      && var row := after.rows[t.nextId];
         && row.status == Active && row.endedAt.None? && row.startedAt == t.st.candidateStartedAt.value
         && RowAsConfirmed(row, Opening(t.nextId, t.st.candidateStartedAt.value, p.recordedAt))
  {
    hide RoundedSeconds, TruncatedSeconds, Moves, UpdatedRow, CompletedRow;
  }

  // The trip that is open after a point was open before it, or was opened by it.
  lemma OpenWas(env: Env, t: Tracker, p: ProcessedPoint)
    requires t.st.WellFormed() && p.IsUsable() && Observe(env, t, p).st.activeTripId.Some?
    ensures
      var open := Observe(env, t, p).st.activeTripId;
      if Confirming(env, t, p) then open == Some(t.nextId) else open == t.st.activeTripId
  {
    hide InsertTrip, UpdateStats, Complete, Moves;
  }

  lemma OpenRowStays(env: Env, b: Book, p: ProcessedPoint, o: Opening)
    requires ClockFits(b) && LinksFit(b) && Ledger.Next(b, p) && b.tracker.nextId !in b.tracker.rows
    requires OpenRowIs(b, o) && o.id < b.tracker.nextId && o.confirmedAt < p.recordedAt
    requires b.tracker.st.activeTripId == Some(o.id) && Enter(env, b, p).tracker.st.activeTripId == Some(o.id)
    ensures OpenRowIs(Enter(env, b, p), o)
  {
    hide ClockFits, LinksFit, Ledger.Next, Enter, Observe, CreditOf, RowAsConfirmed, RowAsOf, LinkedTo;
    EnteredIs(env, b, p);
    OpenRowMoves(env, b.tracker, p, o.id);
    LinksMove(env, b, p, o.id);
    var after := Enter(env, b, p);
    assert after.accepted[|b.accepted|] == p;
    if CreditOf(env, b.tracker.st, p) != [] {
      assert LatestIs(after, o, |b.accepted|);
    } else if !(NothingLater(b, o) && RowAsConfirmed(b.tracker.rows[o.id], o)) {
      var i :| 0 <= i < |b.accepted| && LatestIs(b, o, i) && RowAsOf(b.tracker.rows[o.id], b.accepted[i]);
      assert after.accepted[i] == b.accepted[i];
      assert LatestIs(after, o, i);
    }
  }

  lemma NewRowIsOpen(env: Env, b: Book, p: ProcessedPoint)
    requires ClockFits(b) && Ledger.Next(b, p) && b.tracker.nextId !in b.tracker.rows
    requires b.tracker.st.WellFormed() && Confirming(env, b.tracker, p)
    ensures b.tracker.st.candidateStartedAt.Some?
    ensures OpenRowIs(Enter(env, b, p),
                      Opening(b.tracker.nextId, b.tracker.st.candidateStartedAt.value, p.recordedAt))
  {
    EnteredIs(env, b, p);
    ConfirmedRowIs(env, b.tracker, p);
    hide ClockFits, Ledger.Next, Enter, Observe, RowAsConfirmed, LinkedTo, Confirming;
  }

  lemma {:induction false} EnterKeepsOpenRow(env: Env, b: Book, p: ProcessedPoint)
    requires ClockFits(b) && LinksFit(b) && Ledger.Next(b, p) && OpenRowFits(b) && b.tracker.nextId !in b.tracker.rows
    ensures OpenRowFits(Enter(env, b, p))
  {
    var after := Enter(env, b, p);
    OpeningsAreOld(b, p);
    OpeningIdsAreOld(b);
    EnteredIs(env, b, p);
    hide OpenRowIs, ClockFits, LinksFit, Ledger.Next, Observe, NewLinks, LinkAll, Confirming, Completing;
    forall k | 0 <= k < |after.openings| && after.tracker.st.activeTripId == Some(after.openings[k].id)
      ensures OpenRowIs(after, after.openings[k])
    {
      OpenWas(env, b.tracker, p);
      if k < |b.openings| {
        OpenRowStays(env, b, p, b.openings[k]);
      } else {
        NewRowIsOpen(env, b, p);
      }
    }
  }

  lemma OpeningIdsAreOld(b: Book)
    requires LinksFit(b)
    ensures forall k :: 0 <= k < |b.openings| ==> b.openings[k].id < b.tracker.nextId
  {
    hide LinkFits, BackfilledExactly;
  }

  // ---- taking a trip up again ----

  // The i-th point is linked to a trip that was open before, and the point before it is not.
  ghost predicate TakesUp(b: Book, i: nat, o: Opening) {
    && 0 < i < |b.accepted| && b.accepted[i].recordedAt > o.confirmedAt
    && LinkedTo(b.links, b.accepted[i].eventId, o.id) && !LinkedTo(b.links, b.accepted[i - 1].eventId, o.id)
  }

  // Up to the i-th point the device stood, and that point lies beyond the stop radius.
  ghost predicate Leaves(r: Rules, points: seq<ProcessedPoint>, i: nat) {
    && i < |points| && points[i].filtered.Some?
    && exists since, at :: Stands(r, points, i, since, at) && !Stays(r, at, points[i])
  }

  ghost predicate ResumesFit(r: Rules, b: Book) {
    && (forall i, k :: 0 <= i && 0 <= k < |b.openings| && TakesUp(b, i, b.openings[k]) ==> Leaves(r, b.accepted, i))
    && (b.tracker.st.state == TripActive && b.accepted != [] && b.tracker.st.activeTripId.Some? ==>
          LinkedTo(b.links, b.accepted[|b.accepted| - 1].eventId, b.tracker.st.activeTripId.value))
  }

  lemma CreditMoves(env: Env, t: Tracker, p: ProcessedPoint)
    requires t.st.WellFormed() && p.IsUsable()
    ensures CreditOf(env, t.st, p) != [] ==>
              || t.st.state == TripActive
              || (t.st.stopStartedAt.Some? && t.st.stopCenter.Some? && !Stays(RulesOf(env), t.st.stopCenter.value, p))
    ensures
      var after := Observe(env, t, p).st;
      after.state == TripActive ==>
        && after.activeTripId.Some?
        && (Confirming(env, t, p) || (CreditOf(env, t.st, p) != [] && after.activeTripId == t.st.activeTripId))
  {
    hide InsertTrip, UpdateStats, Complete, Moves;
  }

  lemma LeavesStays(r: Rules, points: seq<ProcessedPoint>, p: ProcessedPoint, i: nat)
    requires Leaves(r, points, i)
    ensures Leaves(r, points + [p], i)
  {
    hide Stands, Stays;
    var since, at :| Stands(r, points, i, since, at) && !Stays(r, at, points[i]);
    StandsOn(r, points, p, i, since, at);
    assert (points + [p])[i] == points[i];
  }

  lemma LeavesNow(r: Rules, points: seq<ProcessedPoint>, p: ProcessedPoint, since: Time, at: GeoPoint)
    requires Stands(r, points, |points|, since, at) && p.filtered.Some? && !Stays(r, at, p)
    ensures Leaves(r, points + [p], |points|)
  {
    hide Stands, Stays;
    StandsOn(r, points, p, |points|, since, at);
    assert (points + [p])[|points|] == p;
  }

  lemma TakenUpBefore(env: Env, b: Book, p: ProcessedPoint, i: nat, o: Opening)
    requires ClockFits(b) && LinksFit(b) && Ledger.Next(b, p) && i < |b.accepted| && o.id < b.tracker.nextId
    requires TakesUp(Enter(env, b, p), i, o)
    ensures TakesUp(b, i, o)
  {
    hide ClockFits, LinksFit, Ledger.Next, Enter, Observe, CreditOf, LinkedTo;
    EnteredIs(env, b, p);
    LinksMove(env, b, p, o.id);
    var after := Enter(env, b, p);
    assert after.accepted[i] == b.accepted[i] && (i > 0 ==> after.accepted[i - 1] == b.accepted[i - 1]);
  }

  lemma TakenUpNow(env: Env, b: Book, p: ProcessedPoint, o: Opening)
    requires ClockFits(b) && LinksFit(b) && Ledger.Next(b, p) && o.id < b.tracker.nextId
    requires EndsFit(RulesOf(env), b) && ResumesFit(RulesOf(env), b)
    requires TakesUp(Enter(env, b, p), |b.accepted|, o)
    ensures Leaves(RulesOf(env), b.accepted + [p], |b.accepted|)
  {
    hide *;
    EnteredIs(env, b, p);
    LinksMove(env, b, p, o.id);
    CreditMoves(env, b.tracker, p);
    EndsParts(RulesOf(env), b);
    ActiveIsLinked(RulesOf(env), b);
    TakesUpIs(Enter(env, b, p), |b.accepted|, o);
    UsableIs(p);
    var st := b.tracker.st;
    assert Enter(env, b, p).accepted[|b.accepted| - 1] == b.accepted[|b.accepted| - 1];
    assert Enter(env, b, p).accepted[|b.accepted|] == p;
    if st.state != TripActive {
      LeavesNow(RulesOf(env), b.accepted, p, st.stopStartedAt.value, st.stopCenter.value);
    }
  }

  lemma TakesUpIs(b: Book, i: nat, o: Opening)
    requires TakesUp(b, i, o)
    ensures 0 < i < |b.accepted|
    ensures LinkedTo(b.links, b.accepted[i].eventId, o.id) && !LinkedTo(b.links, b.accepted[i - 1].eventId, o.id)
    ensures b.accepted[i].recordedAt > o.confirmedAt
  {
    hide LinkedTo;
  }

  lemma ActiveIsLinked(r: Rules, b: Book)
    requires ResumesFit(r, b)
    ensures b.tracker.st.state == TripActive && b.accepted != [] && b.tracker.st.activeTripId.Some? ==>
              LinkedTo(b.links, b.accepted[|b.accepted| - 1].eventId, b.tracker.st.activeTripId.value)
  {
    hide LinkedTo, TakesUp, Leaves;
  }

  lemma ActiveStaysLinked(env: Env, b: Book, p: ProcessedPoint)
    requires ClockFits(b) && LinksFit(b) && Ledger.Next(b, p)
    ensures
      var after := Enter(env, b, p);
      after.tracker.st.state == TripActive && after.tracker.st.activeTripId.Some? ==>
        LinkedTo(after.links, p.eventId, after.tracker.st.activeTripId.value)
  {
    hide *;
    EnteredIs(env, b, p);
    CreditMoves(env, b.tracker, p);
    IdsAreKnown(env, b, p);
    var after := Enter(env, b, p);
    if after.tracker.st.state == TripActive && after.tracker.st.activeTripId.Some? {
      if Confirming(env, b.tracker, p) {
        OpenWas(env, b.tracker, p);
        OpeningIsExact(env, b, p, |b.accepted|);
        StartIsEarlier(env, b, p);
        assert (b.accepted + [p])[|b.accepted|] == p;
      } else {
        LinksMove(env, b, p, after.tracker.st.activeTripId.value);
      }
    }
  }

  lemma StartIsEarlier(env: Env, b: Book, p: ProcessedPoint)
    requires ClockFits(b) && Ledger.Next(b, p) && b.tracker.st.WellFormed() && Confirming(env, b.tracker, p)
    ensures b.tracker.st.candidateStartedAt.Some? && b.tracker.st.candidateStartedAt.value <= p.recordedAt
  {
    if b.tracker.st.lastProcessedAt.Some? {
      LastIs(b, p);
    }
    hide Observe, Distinct, Ledger.Next;
  }

  lemma {:induction false} EnterKeepsResumes(env: Env, b: Book, p: ProcessedPoint)
    requires ClockFits(b) && LinksFit(b) && Ledger.Next(b, p)
    requires EndsFit(RulesOf(env), b) && ResumesFit(RulesOf(env), b)
    ensures ResumesFit(RulesOf(env), Enter(env, b, p))
  {
    hide *;
    EnteredIs(env, b, p);
    var after := Enter(env, b, p);
    ActiveStaysLinked(env, b, p);
    assert after.accepted[|b.accepted|] == p;
    forall i, k | 0 <= i && 0 <= k < |after.openings| && TakesUp(after, i, after.openings[k])
      ensures Leaves(RulesOf(env), after.accepted, i)
    {
      TakenUpLeaves(env, b, p, i, after.openings[k]);
    }
    ResumesFromParts(RulesOf(env), after);
  }

  lemma ResumesFromParts(r: Rules, b: Book)
    requires forall i, k :: 0 <= i && 0 <= k < |b.openings| && TakesUp(b, i, b.openings[k]) ==> Leaves(r, b.accepted, i)
    requires b.tracker.st.state == TripActive && b.accepted != [] && b.tracker.st.activeTripId.Some? ==>
               LinkedTo(b.links, b.accepted[|b.accepted| - 1].eventId, b.tracker.st.activeTripId.value)
    ensures ResumesFit(r, b)
  {
    hide TakesUp, Leaves, LinkedTo;
  }

  lemma ResumesAre(r: Rules, b: Book, i: nat, o: Opening)
    requires ResumesFit(r, b) && o in b.openings && TakesUp(b, i, o)
    ensures Leaves(r, b.accepted, i)
  {
    hide TakesUp, Leaves, LinkedTo;
    var k :| 0 <= k < |b.openings| && b.openings[k] == o;
  }

  lemma TakenUpLeaves(env: Env, b: Book, p: ProcessedPoint, i: nat, o: Opening)
    requires ClockFits(b) && LinksFit(b) && Ledger.Next(b, p)
    requires EndsFit(RulesOf(env), b) && ResumesFit(RulesOf(env), b)
    requires b.tracker.st.WellFormed() && o in Enter(env, b, p).openings && TakesUp(Enter(env, b, p), i, o)
    ensures Leaves(RulesOf(env), Enter(env, b, p).accepted, i)
  {
    hide *;
    EnteredIs(env, b, p);
    var after := Enter(env, b, p);
    OpeningsAre(env, b, p, o);
    TakesUpIs(after, i, o);
    if o in b.openings {
      if i < |b.accepted| {
        TakenUpBefore(env, b, p, i, o);
        ResumesAre(RulesOf(env), b, i, o);
        LeavesStays(RulesOf(env), b.accepted, p, i);
      } else {
        TakenUpNow(env, b, p, o);
      }
    } else {
      NothingTakenUpYet(after, o);
    }
  }

  lemma OpeningsAre(env: Env, b: Book, p: ProcessedPoint, o: Opening)
    requires ClockFits(b) && LinksFit(b) && Ledger.Next(b, p) && b.tracker.st.WellFormed()
    requires o in Enter(env, b, p).openings
    ensures if o in b.openings then o.id < b.tracker.nextId else o.confirmedAt == p.recordedAt
  {
    OpeningIdsAreOld(b);
    hide ClockFits, LinksFit, Ledger.Next, Observe, NewLinks, LinkAll, Confirming, Completing;
  }

  lemma NothingTakenUpYet(b: Book, o: Opening)
    requires forall i :: 0 <= i < |b.accepted| ==> b.accepted[i].recordedAt <= o.confirmedAt
    ensures forall i :: 0 <= i ==> !TakesUp(b, i, o)
  {
    hide LinkedTo;
  }
}
