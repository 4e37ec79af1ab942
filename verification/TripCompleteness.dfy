// No trip is missed and none outlives its end: movement without a break that is enough opens a
// trip, and a standstill that lasts ends whatever was open.
module TripCompleteness {
  import opened Domain
  import opened TripDetection
  import opened TripRows
  import opened TripRefinement
  import opened TripGrammar
  import opened Storage
  import opened Ledger
  import opened TripRecords
  import opened TripTotals
  import opened TripEnds

  // ---- which trips are open ----

  ghost predicate HasOpening(openings: seq<Opening>, id: TripId) {
    exists k :: 0 <= k < |openings| && openings[k].id == id
  }

  // Every opened trip is the open one or was closed, and never both.
  ghost predicate OpensFit(b: Book) {
    var open, last := b.tracker.st.activeTripId, b.tracker.st.lastProcessedAt;
    && (open.Some? ==> HasOpening(b.openings, open.value) && !WasClosed(b.closings, open.value))
    && (forall k :: 0 <= k < |b.openings| ==>
          && b.openings[k].id < b.tracker.nextId && last.Some? && b.openings[k].confirmedAt <= last.value
          && (open == Some(b.openings[k].id) || WasClosed(b.closings, b.openings[k].id)))
    && (forall k :: 0 <= k < |b.closings| ==>
          b.closings[k].id < b.tracker.nextId && last.Some? && b.closings[k].completedAt <= last.value)
  }

  lemma OpenMoves(env: Env, t: Tracker, p: ProcessedPoint)
    requires t.st.WellFormed() && p.IsUsable()
    ensures
      var after := Observe(env, t, p);
      && (Completing(env, t, p) ==> t.st.activeTripId.Some? && after.st.activeTripId.None? && !Confirming(env, t, p))
      && (Confirming(env, t, p) ==> t.st.activeTripId.None? && after.st.activeTripId == Some(t.nextId))
      && (!Completing(env, t, p) && !Confirming(env, t, p) ==> after.st.activeTripId == t.st.activeTripId)
      && after.nextId == t.nextId + (if Confirming(env, t, p) then 1 else 0)
      && after.st.lastProcessedAt == Some(p.recordedAt)
  {
    hide InsertTrip, UpdateStats, Complete, Moves;
  }

  // The log of openings and closings grows by at most one of them.
  lemma LogMoves(env: Env, b: Book, p: ProcessedPoint)
    requires ClockFits(b) && Ledger.Next(b, p)
    ensures b.tracker.st.WellFormed()
    ensures
      var after := Enter(env, b, p);
      && after.openings == b.openings
           + (if Confirming(env, b.tracker, p) && b.tracker.st.candidateStartedAt.Some?
              then [Opening(b.tracker.nextId, b.tracker.st.candidateStartedAt.value, p.recordedAt)] else [])
      && after.closings == b.closings
           + (if Completing(env, b.tracker, p) && b.tracker.st.activeTripId.Some?
              then [Closing(b.tracker.st.activeTripId.value, p.recordedAt)] else [])
    ensures Confirming(env, b.tracker, p) ==> b.tracker.st.candidateStartedAt.Some?
    ensures b.tracker.st.lastProcessedAt.Some? ==> b.tracker.st.lastProcessedAt.value < p.recordedAt
  {
    if b.tracker.st.lastProcessedAt.Some? {
      LastIs(b, p);
    }
    hide Observe, NewLinks, LinkAll, Distinct, Ledger.Next;
  }

  lemma {:induction false} EnterKeepsOpens(env: Env, b: Book, p: ProcessedPoint)
    requires ClockFits(b) && Ledger.Next(b, p) && OpensFit(b)
    ensures OpensFit(Enter(env, b, p))
  {
    EnteredIs(env, b, p);
    OpenMoves(env, b.tracker, p);
    LogMoves(env, b, p);
    var after := Enter(env, b, p);
    hide Observe, Enter, ClockFits, Ledger.Next, Confirming, Completing;
    LogKeepsOpens(b.openings, after.openings, b.closings, after.closings, b.tracker.st.activeTripId,
                  after.tracker.st.activeTripId, b.tracker.nextId, p.recordedAt);
  }

  lemma LogKeepsOpens(openings: seq<Opening>, moreOpenings: seq<Opening>, closings: seq<Closing>,
                      moreClosings: seq<Closing>, open: Option<TripId>, next: Option<TripId>, nextId: TripId, at: Time)
    requires open.Some? ==> HasOpening(openings, open.value) && !WasClosed(closings, open.value)
    requires forall k :: 0 <= k < |openings| ==>
               openings[k].id < nextId && (open == Some(openings[k].id) || WasClosed(closings, openings[k].id))
    requires forall k :: 0 <= k < |closings| ==> closings[k].id < nextId
    requires || (moreOpenings == openings && moreClosings == closings && next == open)
             || (open.Some? && next.None? && moreOpenings == openings
                 && moreClosings == closings + [Closing(open.value, at)])
             || (open.None? && next == Some(nextId) && moreClosings == closings && |moreOpenings| == |openings| + 1
                 && openings <= moreOpenings && moreOpenings[|openings|].id == nextId)
    ensures next.Some? ==> HasOpening(moreOpenings, next.value) && !WasClosed(moreClosings, next.value)
    ensures forall k :: 0 <= k < |moreOpenings| ==>
              next == Some(moreOpenings[k].id) || WasClosed(moreClosings, moreOpenings[k].id)
  {
    forall k | 0 <= k < |moreOpenings|
      ensures next == Some(moreOpenings[k].id) || WasClosed(moreClosings, moreOpenings[k].id)
    {
      if k < |openings| && WasClosed(closings, openings[k].id) {
        var j :| 0 <= j < |closings| && closings[j].id == openings[k].id;
        assert moreClosings[j].id == openings[k].id;
      } else if k < |openings| && |moreClosings| > |closings| {
        assert moreClosings[|closings|].id == openings[k].id;
      }
    }
  }

  // ---- walks ----

  // A trip that was opened before this time was not closed before it.
  ghost predicate OpenBefore(b: Book, at: Time) {
    exists k :: 0 <= k < |b.openings| && StillOpen(b, b.openings[k], at)
  }

  ghost predicate StillOpen(b: Book, o: Opening, at: Time) {
    && o.confirmedAt < at
    && forall j :: 0 <= j < |b.closings| && b.closings[j].id == o.id ==> b.closings[j].completedAt >= at
  }

  // The trip that the point before the s-th is linked to was open, and then there was silence.
  ghost predicate WentSilent(cfg: DetectionConfig, b: Book, s: nat) {
    && 0 < s < |b.accepted|
    && b.accepted[s].recordedAt - b.accepted[s - 1].recordedAt > Seconds(cfg.stopMinDurationSec)
    && exists k :: 0 <= k < |b.openings| && WasOn(b, s, b.openings[k])
  }

  ghost predicate WasOn(b: Book, s: nat, o: Opening)
    requires 0 < s < |b.accepted|
  {
    StillOpen(b, o, b.accepted[s].recordedAt) && LinkedTo(b.links, b.accepted[s - 1].eventId, o.id)
  }

  // No trip is open when the s-th point comes, or it comes after a silence that ends the trip.
  ghost predicate MayStart(cfg: DetectionConfig, b: Book, s: nat) {
    s < |b.accepted| && (!OpenBefore(b, b.accepted[s].recordedAt) || WentSilent(cfg, b, s))
  }

  // Movement at the s-th point, where a trip may start, that goes on without a break up to a time.
  ghost predicate Walks(cfg: DetectionConfig, b: Book, s: nat, to: Time) {
    && s < |b.accepted| && Moves(cfg, b.accepted[s]) && MayStart(cfg, b, s)
    && Unbroken(cfg, b.accepted, b.accepted[s].recordedAt, to)
  }

  // A trip that started no later was opened between the two times.
  ghost predicate OpensBy(b: Book, at: Time, to: Time) {
    exists k :: 0 <= k < |b.openings| && b.openings[k].startedAt <= at <= b.openings[k].confirmedAt <= to
  }

  ghost predicate CandidateSince(b: Book, at: Time) {
    b.tracker.st.candidateStartedAt.Some? && b.tracker.st.candidateStartedAt.value <= at
  }

  // Whoever walks up to the last point has a trip or a candidate that reaches back to the start.
  ghost predicate WalksFit(cfg: DetectionConfig, b: Book) {
    forall s :: 0 <= s < |b.accepted| && Walks(cfg, b, s, b.accepted[|b.accepted| - 1].recordedAt) ==>
      || CandidateSince(b, b.accepted[s].recordedAt)
      || OpensBy(b, b.accepted[s].recordedAt, b.accepted[|b.accepted| - 1].recordedAt)
  }

  // Movement that is enough has opened a trip by then.
  ghost predicate NoneMissed(cfg: DetectionConfig, b: Book) {
    forall s, e :: 0 <= s < e < |b.accepted| && Walks(cfg, b, s, b.accepted[e].recordedAt)
                   && Ripe(cfg, b.accepted, b.accepted[s].recordedAt, b.accepted[e].recordedAt) ==>
      OpensBy(b, b.accepted[s].recordedAt, b.accepted[e].recordedAt)
  }

  // What the entry of a point leaves of the log, seen from a time no later than the point's.
  lemma OpenBeforeStays(env: Env, b: Book, p: ProcessedPoint, at: Time)
    requires ClockFits(b) && Ledger.Next(b, p) && at <= p.recordedAt
    ensures OpenBefore(Enter(env, b, p), at) <==> OpenBefore(b, at)
  {
    LogMoves(env, b, p);
    EnteredIs(env, b, p);
    var after := Enter(env, b, p);
    hide Observe, Enter, ClockFits, Ledger.Next, Confirming, Completing;
    forall k | 0 <= k < |b.openings| ensures StillOpen(after, b.openings[k], at) <==> StillOpen(b, b.openings[k], at) {
      assert forall j :: 0 <= j < |b.closings| ==> after.closings[j] == b.closings[j];
    }
    if OpenBefore(b, at) {
      var k :| 0 <= k < |b.openings| && StillOpen(b, b.openings[k], at);
      assert after.openings[k] == b.openings[k];
    }
  }

  lemma WentSilentBefore(env: Env, b: Book, p: ProcessedPoint, s: nat)
    requires ClockFits(b) && LinksFit(b) && Ledger.Next(b, p) && OpensFit(b) && s < |b.accepted|
    requires WentSilent(env.cfg, Enter(env, b, p), s)
    ensures WentSilent(env.cfg, b, s)
  {
    hide *;
    EnteredIs(env, b, p);
    var after := Enter(env, b, p);
    var o := SilentTrip(env.cfg, after, s);
    assert after.accepted[s] == b.accepted[s] && after.accepted[s - 1] == b.accepted[s - 1];
    IsEarlier(b, p, s);
    OldOpeningIs(env, b, p, o, b.accepted[s].recordedAt);
    OldLinkIs(env, b, p, s - 1, o.id);
    SilenceFromParts(env.cfg, b, s, o);
  }

  lemma IsEarlier(b: Book, p: ProcessedPoint, s: nat)
    requires Ledger.Next(b, p) && s < |b.accepted|
    ensures b.accepted[s].recordedAt < p.recordedAt
  {
  }

  lemma SilentTrip(cfg: DetectionConfig, b: Book, s: nat) returns (o: Opening)
    requires WentSilent(cfg, b, s)
    ensures 0 < s < |b.accepted| && o in b.openings && StillOpen(b, o, b.accepted[s].recordedAt)
    ensures LinkedTo(b.links, b.accepted[s - 1].eventId, o.id)
    ensures b.accepted[s].recordedAt - b.accepted[s - 1].recordedAt > Seconds(cfg.stopMinDurationSec)
  {
    hide StillOpen, LinkedTo;
    var k :| 0 <= k < |b.openings| && WasOn(b, s, b.openings[k]);
    o := b.openings[k];
  }

  lemma SilenceFromParts(cfg: DetectionConfig, b: Book, s: nat, o: Opening)
    requires 0 < s < |b.accepted| && o in b.openings && StillOpen(b, o, b.accepted[s].recordedAt)
    requires LinkedTo(b.links, b.accepted[s - 1].eventId, o.id)
    requires b.accepted[s].recordedAt - b.accepted[s - 1].recordedAt > Seconds(cfg.stopMinDurationSec)
    ensures WentSilent(cfg, b, s)
  {
    hide StillOpen, LinkedTo;
    var k :| 0 <= k < |b.openings| && b.openings[k] == o;
    assert WasOn(b, s, b.openings[k]);
  }

  // A trip opened before a time no later than the point's was so before the point.
  lemma OldOpeningIs(env: Env, b: Book, p: ProcessedPoint, o: Opening, at: Time)
    requires ClockFits(b) && Ledger.Next(b, p) && OpensFit(b) && at <= p.recordedAt
    requires o in Enter(env, b, p).openings && StillOpen(Enter(env, b, p), o, at)
    ensures o in b.openings && StillOpen(b, o, at) && o.id < b.tracker.nextId
  {
    LogMoves(env, b, p);
    var after := Enter(env, b, p);
    hide Observe, Enter, ClockFits, Ledger.Next, Confirming, Completing;
    var k :| 0 <= k < |after.openings| && after.openings[k] == o;
    assert forall j :: 0 <= j < |b.closings| ==> after.closings[j] == b.closings[j];
  }

  lemma OpensByStays(env: Env, b: Book, p: ProcessedPoint, at: Time, to: Time, later: Time)
    requires ClockFits(b) && Ledger.Next(b, p) && OpensBy(b, at, to) && to <= later
    ensures OpensBy(Enter(env, b, p), at, later)
  {
    LogMoves(env, b, p);
    EnteredIs(env, b, p);
    hide Observe, Enter, ClockFits, Ledger.Next, Confirming, Completing;
    var k :| 0 <= k < |b.openings| && b.openings[k].startedAt <= at <= b.openings[k].confirmedAt <= to;
    assert Enter(env, b, p).openings[k] == b.openings[k];
  }

  lemma UnbrokenBefore(cfg: DetectionConfig, points: seq<ProcessedPoint>, p: ProcessedPoint, since: Time, to: Time,
                       before: Time)
    requires Unbroken(cfg, points + [p], since, to) && before <= to
    ensures Unbroken(cfg, points, since, before)
    ensures points != [] && since < p.recordedAt <= to ==>
              !p.isStationary && p.recordedAt - points[|points| - 1].recordedAt <= Seconds(cfg.stopMinDurationSec)
  {
    var all := points + [p];
    assert forall i :: 0 <= i < |points| ==> all[i] == points[i];
    assert all[|points|] == p;
    assert points != [] ==> all[|points| - 1] == points[|points| - 1];
  }

  // A walk that reaches past the last point is one up to it.
  lemma WalkedBefore(env: Env, b: Book, p: ProcessedPoint, s: nat, to: Time, before: Time)
    requires ClockFits(b) && LinksFit(b) && Ledger.Next(b, p) && OpensFit(b) && s < |b.accepted| && before <= to
    requires Walks(env.cfg, Enter(env, b, p), s, to)
    ensures Walks(env.cfg, b, s, before)
    ensures p.recordedAt <= to ==> Continues(env.cfg, b.tracker.st, p)
  {
    hide Moves, Unbroken, OpenBefore, Distinct, WentSilent, OpensFit, LinksFit;
    EnteredIs(env, b, p);
    var after := Enter(env, b, p);
    assert after.accepted[s] == b.accepted[s];
    OpenBeforeStays(env, b, p, b.accepted[s].recordedAt);
    if WentSilent(env.cfg, after, s) {
      WentSilentBefore(env, b, p, s);
    }
    UnbrokenBefore(env.cfg, b.accepted, p, b.accepted[s].recordedAt, to, before);
    hide Enter, Ledger.Next;
  }

  // A candidate goes on or becomes a trip when the point continues it.
  lemma CandidateGoesOn(env: Env, t: Tracker, p: ProcessedPoint)
    requires t.st.WellFormed() && p.IsUsable() && t.st.candidateStartedAt.Some? && Continues(env.cfg, t.st, p)
    ensures Confirming(env, t, p) || Observe(env, t, p).st.candidateStartedAt == t.st.candidateStartedAt
  {
    hide InsertTrip, UpdateStats, Complete, Moves;
  }

  // With no trip open, movement starts a candidate unless one goes on already.
  lemma MovementStarts(env: Env, t: Tracker, p: ProcessedPoint)
    requires t.st.WellFormed() && p.IsUsable() && t.st.activeTripId.None? && Moves(env.cfg, p)
    ensures
      var after := Observe(env, t, p).st.candidateStartedAt;
      || Confirming(env, t, p) || after == Some(p.recordedAt)
      || (after.Some? && after == t.st.candidateStartedAt)
  {
    hide InsertTrip, UpdateStats, Complete;
  }

  lemma OpenedNow(env: Env, b: Book, p: ProcessedPoint, at: Time)
    requires ClockFits(b) && Ledger.Next(b, p) && b.tracker.st.WellFormed() && Confirming(env, b.tracker, p)
    requires CandidateSince(b, at) && at <= p.recordedAt
    ensures OpensBy(Enter(env, b, p), at, p.recordedAt)
  {
    LogMoves(env, b, p);
    hide Observe, Enter, ClockFits, Ledger.Next, Confirming, Completing;
    var after := Enter(env, b, p);
    assert after.openings[|b.openings|]
           == Opening(b.tracker.nextId, b.tracker.st.candidateStartedAt.value, p.recordedAt);
  }

  lemma WalkGoesOn(env: Env, b: Book, p: ProcessedPoint, s: nat)
    requires ClockFits(b) && LinksFit(b) && Ledger.Next(b, p) && OpensFit(b)
    requires WalksFit(env.cfg, b) && s < |b.accepted| && Walks(env.cfg, Enter(env, b, p), s, p.recordedAt)
    ensures CandidateSince(Enter(env, b, p), b.accepted[s].recordedAt)
            || OpensBy(Enter(env, b, p), b.accepted[s].recordedAt, p.recordedAt)
  {
    hide *;
    EnteredIs(env, b, p);
    var last, at := b.accepted[|b.accepted| - 1].recordedAt, b.accepted[s].recordedAt;
    WalkedBefore(env, b, p, s, p.recordedAt, last);
    WalkIs(env.cfg, b, s);
    if OpensBy(b, at, last) {
      OpensByStays(env, b, p, at, last, p.recordedAt);
    } else {
      SinceIs(b, at);
      CandidateGoesOn(env, b.tracker, p);
      if Confirming(env, b.tracker, p) {
        OpenedNow(env, b, p, at);
      } else {
        SinceStays(b, Enter(env, b, p), at);
      }
    }
  }

  lemma WalkIs(cfg: DetectionConfig, b: Book, s: nat)
    requires WalksFit(cfg, b) && s < |b.accepted| && Walks(cfg, b, s, b.accepted[|b.accepted| - 1].recordedAt)
    ensures || CandidateSince(b, b.accepted[s].recordedAt)
            || OpensBy(b, b.accepted[s].recordedAt, b.accepted[|b.accepted| - 1].recordedAt)
  {
    hide Walks, CandidateSince, OpensBy;
  }

  lemma SinceIs(b: Book, at: Time)
    ensures CandidateSince(b, at) ==> b.tracker.st.candidateStartedAt.Some?
  {
  }

  lemma SinceStays(b: Book, after: Book, at: Time)
    requires CandidateSince(b, at) && after.tracker.st.candidateStartedAt == b.tracker.st.candidateStartedAt
    ensures CandidateSince(after, at)
  {
  }

  // An open trip is open before the next point.
  lemma ActiveIsOpen(b: Book, p: ProcessedPoint)
    requires ClockFits(b) && Ledger.Next(b, p) && OpensFit(b) && b.tracker.st.activeTripId.Some?
    ensures OpenBefore(b, p.recordedAt)
  {
    if b.tracker.st.lastProcessedAt.Some? {
      LastIs(b, p);
    }
    hide ClockFits, Ledger.Next;
    var id := b.tracker.st.activeTripId.value;
    var k :| 0 <= k < |b.openings| && b.openings[k].id == id;
    assert StillOpen(b, b.openings[k], p.recordedAt);
  }

  // After a silence, movement starts a candidate at the point that ends the trip.
  lemma SilenceStarts(env: Env, t: Tracker, p: ProcessedPoint)
    requires t.st.WellFormed() && p.IsUsable() && t.st.state == TripActive && Moves(env.cfg, p)
    requires t.st.lastProcessedAt.Some?
    requires p.recordedAt - t.st.lastProcessedAt.value > Seconds(env.cfg.stopMinDurationSec)
    ensures Observe(env, t, p).st.candidateStartedAt == Some(p.recordedAt)
  {
    hide InsertTrip, UpdateStats, Complete, Moves;
  }

  lemma SilentIsActive(env: Env, b: Book, p: ProcessedPoint)
    requires ClockFits(b) && LinksFit(b) && Ledger.Next(b, p) && OpensFit(b) && NeighboursFit(env.cfg, b)
    requires WentSilent(env.cfg, Enter(env, b, p), |b.accepted|)
    ensures b.tracker.st.WellFormed() && b.tracker.st.state == TripActive && b.accepted != []
    ensures p.recordedAt - b.accepted[|b.accepted| - 1].recordedAt > Seconds(env.cfg.stopMinDurationSec)
  {
    hide *;
    EnteredIs(env, b, p);
    var after := Enter(env, b, p);
    var o := SilentTrip(env.cfg, after, |b.accepted|);
    assert after.accepted[|b.accepted|] == p && after.accepted[|b.accepted| - 1] == b.accepted[|b.accepted| - 1];
    OldOpeningIs(env, b, p, o, p.recordedAt);
    OldLinkIs(env, b, p, |b.accepted| - 1, o.id);
    StillOpenIsActive(b, p, o);
    StopIsUnlinked(env.cfg, b);
    OpenStates(b.tracker.st);
  }

  lemma StillOpenIsActive(b: Book, p: ProcessedPoint, o: Opening)
    requires ClockFits(b) && Ledger.Next(b, p) && OpensFit(b) && o in b.openings && StillOpen(b, o, p.recordedAt)
    ensures b.tracker.st.WellFormed() && b.tracker.st.activeTripId == Some(o.id)
  {
    if b.tracker.st.lastProcessedAt.Some? {
      LastIs(b, p);
    }
    hide Distinct, Ledger.Next;
  }

  lemma OpenStates(st: DetectionState)
    requires st.WellFormed() && st.activeTripId.Some?
    ensures st.state == TripActive || st.state == StopCandidate
  {
  }

  lemma WalkBegins(env: Env, b: Book, p: ProcessedPoint)
    requires ClockFits(b) && LinksFit(b) && Ledger.Next(b, p) && OpensFit(b) && NeighboursFit(env.cfg, b)
    requires Walks(env.cfg, Enter(env, b, p), |b.accepted|, p.recordedAt)
    ensures CandidateSince(Enter(env, b, p), p.recordedAt) || OpensBy(Enter(env, b, p), p.recordedAt, p.recordedAt)
  {
    hide *;
    EnteredIs(env, b, p);
    var after := Enter(env, b, p);
    WalkStartsAt(env.cfg, after, |b.accepted|, p.recordedAt);
    OpenBeforeStays(env, b, p, p.recordedAt);
    if WentSilent(env.cfg, after, |b.accepted|) {
      SilentIsActive(env, b, p);
      LastProcessed(b);
      SilenceStarts(env, b.tracker, p);
      SinceNow(b, after, p.recordedAt);
    } else {
      FreeWalkBegins(env, b, p);
    }
  }

  lemma FreeWalkBegins(env: Env, b: Book, p: ProcessedPoint)
    requires ClockFits(b) && Ledger.Next(b, p) && OpensFit(b)
    requires Moves(env.cfg, p) && !OpenBefore(b, p.recordedAt)
    ensures CandidateSince(Enter(env, b, p), p.recordedAt) || OpensBy(Enter(env, b, p), p.recordedAt, p.recordedAt)
  {
    hide *;
    EnteredIs(env, b, p);
    var after := Enter(env, b, p);
    if b.tracker.st.activeTripId.Some? {
      ActiveIsOpen(b, p);
      assert false;
    }
    LogMoves(env, b, p);
    MovementStarts(env, b.tracker, p);
    CandidateIsEarlier(b, p);
    if Confirming(env, b.tracker, p) {
      OpenedNow(env, b, p, p.recordedAt);
    } else {
      SinceNow(b, after, p.recordedAt);
    }
  }

  lemma WalkStartsAt(cfg: DetectionConfig, b: Book, s: nat, to: Time)
    requires Walks(cfg, b, s, to)
    ensures s < |b.accepted| && Moves(cfg, b.accepted[s])
    ensures !OpenBefore(b, b.accepted[s].recordedAt) || WentSilent(cfg, b, s)
  {
    hide Moves, OpenBefore, WentSilent, Unbroken;
  }

  lemma CandidateIsEarlier(b: Book, p: ProcessedPoint)
    requires ClockFits(b) && Ledger.Next(b, p)
    ensures b.tracker.st.candidateStartedAt.Some? ==>
              b.tracker.st.candidateStartedAt.value <= p.recordedAt && CandidateSince(b, p.recordedAt)
  {
    if b.tracker.st.lastProcessedAt.Some? {
      LastIs(b, p);
    }
    hide Observe, Distinct, Ledger.Next;
  }

  lemma SinceNow(b: Book, after: Book, at: Time)
    requires after.tracker.st.candidateStartedAt.Some?
    requires || after.tracker.st.candidateStartedAt == Some(at)
             || (after.tracker.st.candidateStartedAt == b.tracker.st.candidateStartedAt && CandidateSince(b, at))
    ensures CandidateSince(after, at)
  {
  }

  lemma {:induction false} EnterKeepsWalks(env: Env, b: Book, p: ProcessedPoint)
    requires ClockFits(b) && LinksFit(b) && Ledger.Next(b, p) && OpensFit(b) && NeighboursFit(env.cfg, b)
    requires WalksFit(env.cfg, b)
    ensures WalksFit(env.cfg, Enter(env, b, p))
  {
    hide ClockFits, LinksFit, Ledger.Next, NeighboursFit, OpensFit, Walks, CandidateSince, OpensBy, Enter;
    EnteredIs(env, b, p);
    var after := Enter(env, b, p);
    assert after.accepted[|after.accepted| - 1] == p;
    forall s | 0 <= s < |after.accepted| && Walks(env.cfg, after, s, p.recordedAt)
      ensures CandidateSince(after, after.accepted[s].recordedAt)
              || OpensBy(after, after.accepted[s].recordedAt, p.recordedAt)
    {
      if s < |b.accepted| {
        WalkGoesOn(env, b, p, s);
      } else {
        WalkBegins(env, b, p);
      }
    }
  }

  // ---- nothing is missed ----

  // Looking back further only adds movement.
  lemma {:induction false} MovedEarlier(cfg: DetectionConfig, points: seq<ProcessedPoint>, since: Time, later: Time,
                                        to: Time)
    requires since <= later
    ensures Moved(cfg, points, since, to) >= Moved(cfg, points, later, to)
    ensures MovedCount(cfg, points, since, to) >= MovedCount(cfg, points, later, to)
  {
    if points != [] {
      MovedEarlier(cfg, points[..|points| - 1], since, later, to);
    }
  }

  lemma RipeEarlier(cfg: DetectionConfig, points: seq<ProcessedPoint>, since: Time, later: Time, to: Time)
    requires since <= later && Ripe(cfg, points, later, to)
    ensures Ripe(cfg, points, since, to)
  {
    MovedEarlier(cfg, points, since, later, to);
    hide Moved, MovedCount;
  }

  lemma CandidateIsNotRipe(cfg: DetectionConfig, b: Book, at: Time)
    requires ClockFits(b) && CandidateFits(cfg, b) && CandidateSince(b, at) && b.accepted != []
    requires at < b.accepted[|b.accepted| - 1].recordedAt
    ensures !Ripe(cfg, b.accepted, at, b.accepted[|b.accepted| - 1].recordedAt)
  {
    hide Ripe, Unbroken, MovedFrom, Moved, MovedCount, Distinct;
    var last := b.accepted[|b.accepted| - 1].recordedAt;
    assert !Ripe(cfg, b.accepted, b.tracker.st.candidateStartedAt.value, last);
    if Ripe(cfg, b.accepted, at, last) {
      RipeEarlier(cfg, b.accepted, b.tracker.st.candidateStartedAt.value, at, last);
    }
  }

  lemma NewEndIsNotMissed(env: Env, b: Book, p: ProcessedPoint, s: nat)
    requires ClockFits(b) && LinksFit(b) && Ledger.Next(b, p) && s < |b.accepted|
    requires ClockFits(Enter(env, b, p))
    requires CandidateFits(env.cfg, Enter(env, b, p)) && WalksFit(env.cfg, Enter(env, b, p))
    requires Walks(env.cfg, Enter(env, b, p), s, p.recordedAt)
    requires Ripe(env.cfg, Enter(env, b, p).accepted, b.accepted[s].recordedAt, p.recordedAt)
    ensures OpensBy(Enter(env, b, p), b.accepted[s].recordedAt, p.recordedAt)
  {
    hide *;
    EnteredIs(env, b, p);
    var after := Enter(env, b, p);
    assert after.accepted[|after.accepted| - 1] == p && after.accepted[s] == b.accepted[s];
    WalkIs(env.cfg, after, s);
    if CandidateSince(after, b.accepted[s].recordedAt) {
      CandidateIsNotRipe(env.cfg, after, b.accepted[s].recordedAt);
    }
  }

  lemma OldEndIsNotMissed(env: Env, b: Book, p: ProcessedPoint, s: nat, e: nat)
    requires ClockFits(b) && LinksFit(b) && Ledger.Next(b, p) && OpensFit(b)
    requires NoneMissed(env.cfg, b) && s < e < |b.accepted|
    requires Walks(env.cfg, Enter(env, b, p), s, b.accepted[e].recordedAt)
    requires Ripe(env.cfg, Enter(env, b, p).accepted, b.accepted[s].recordedAt, b.accepted[e].recordedAt)
    ensures OpensBy(Enter(env, b, p), b.accepted[s].recordedAt, b.accepted[e].recordedAt)
  {
    hide *;
    EnteredIs(env, b, p);
    var at, to := b.accepted[s].recordedAt, b.accepted[e].recordedAt;
    WalkedBefore(env, b, p, s, to, to);
    RipeOneMore(env.cfg, b.accepted, p, at, to);
    NoneMissedIs(env.cfg, b, s, e);
    OpensByStays(env, b, p, at, to, to);
  }

  lemma NoneMissedIs(cfg: DetectionConfig, b: Book, s: nat, e: nat)
    requires NoneMissed(cfg, b) && s < e < |b.accepted| && Walks(cfg, b, s, b.accepted[e].recordedAt)
    requires Ripe(cfg, b.accepted, b.accepted[s].recordedAt, b.accepted[e].recordedAt)
    ensures OpensBy(b, b.accepted[s].recordedAt, b.accepted[e].recordedAt)
  {
    hide Walks, Ripe, OpensBy;
  }

  lemma {:induction false} EnterMissesNone(env: Env, b: Book, p: ProcessedPoint)
    requires ClockFits(b) && LinksFit(b) && Ledger.Next(b, p) && OpensFit(b) && NoneMissed(env.cfg, b)
    requires ClockFits(Enter(env, b, p))
    requires CandidateFits(env.cfg, Enter(env, b, p)) && WalksFit(env.cfg, Enter(env, b, p))
    ensures NoneMissed(env.cfg, Enter(env, b, p))
  {
    hide ClockFits, LinksFit, Ledger.Next, OpensFit, Walks, Ripe, OpensBy, Enter, CandidateFits, WalksFit;
    EnteredIs(env, b, p);
    var after := Enter(env, b, p);
    forall s, e | 0 <= s < e < |after.accepted| && Walks(env.cfg, after, s, after.accepted[e].recordedAt)
                  && Ripe(env.cfg, after.accepted, after.accepted[s].recordedAt, after.accepted[e].recordedAt)
      ensures OpensBy(after, after.accepted[s].recordedAt, after.accepted[e].recordedAt)
    {
      if e < |b.accepted| {
        OldEndIsNotMissed(env, b, p, s, e);
      } else {
        NewEndIsNotMissed(env, b, p, s);
      }
    }
  }

  // ---- standstills ----

  predicate RestsFrom(points: seq<ProcessedPoint>, k: nat, n: nat) {
    k < n <= |points| && forall j :: k <= j < n ==> points[j].isStationary
  }

  // Through a standstill, what is still open has not stood for long enough.
  ghost predicate RestsFit(cfg: DetectionConfig, b: Book) {
    var st := b.tracker.st;
    && (st.stopStartedAt.Some? ==> st.lastProcessedAt.Some? && st.stopStartedAt.value <= st.lastProcessedAt.value)
    && forall k :: 0 <= k && RestsFrom(b.accepted, k, |b.accepted|) && st.activeTripId.Some? ==>
         && st.stopStartedAt.Some? && st.stopStartedAt.value <= b.accepted[k].recordedAt
         && (k + 1 < |b.accepted| ==>
               b.accepted[|b.accepted| - 1].recordedAt - st.stopStartedAt.value < Seconds(cfg.stopMinDurationSec))
  }

  // Every trip opened by then was closed by then.
  ghost predicate AllClosedBy(b: Book, at: Time) {
    forall k :: 0 <= k < |b.openings| && b.openings[k].confirmedAt <= at ==> ClosedBy(b.closings, b.openings[k].id, at)
  }

  ghost predicate ClosedBy(closings: seq<Closing>, id: TripId, at: Time) {
    exists j :: 0 <= j < |closings| && closings[j].id == id && closings[j].completedAt <= at
  }

  ghost predicate StandstillsEnd(cfg: DetectionConfig, b: Book) {
    forall k, e :: 0 <= k < e < |b.accepted| && RestsFrom(b.accepted, k, e + 1)
                   && b.accepted[e].recordedAt - b.accepted[k].recordedAt >= Seconds(cfg.stopMinDurationSec) ==>
      AllClosedBy(b, b.accepted[e].recordedAt)
  }

  lemma StopTimes(env: Env, t: Tracker, p: ProcessedPoint)
    requires t.st.WellFormed() && p.IsUsable() && (p.isStationary ==> StillSince(p) <= p.recordedAt)
    ensures
      var after := Observe(env, t, p).st;
      && (after.stopStartedAt.Some? ==>
            || after.stopStartedAt == t.st.stopStartedAt
            || after.stopStartedAt.value <= p.recordedAt)
      && (p.isStationary && after.activeTripId.Some? ==>
            && after.activeTripId == t.st.activeTripId && after.stopStartedAt.Some?
            && (t.st.stopStartedAt.Some? ==>
                  && after.stopStartedAt == t.st.stopStartedAt
                  && p.recordedAt - t.st.stopStartedAt.value < Seconds(env.cfg.stopMinDurationSec)))
  {
    hide InsertTrip, UpdateStats, Complete, Moves;
  }

  lemma {:induction false} EnterKeepsRests(env: Env, b: Book, p: ProcessedPoint)
    requires ClockFits(b) && Ledger.Next(b, p) && RestsFit(env.cfg, b)
    requires p.isStationary ==> StillSince(p) <= p.recordedAt
    ensures RestsFit(env.cfg, Enter(env, b, p))
  {
    EnteredIs(env, b, p);
    StopTimes(env, b.tracker, p);
    OpenMoves(env, b.tracker, p);
    if b.tracker.st.lastProcessedAt.Some? {
      LastIs(b, p);
    }
    hide Observe, Enter, Ledger.Next, ClockFits, Confirming, Completing;
    var after := Enter(env, b, p);
    forall k | 0 <= k && RestsFrom(after.accepted, k, |after.accepted|) && after.tracker.st.activeTripId.Some?
      ensures after.tracker.st.stopStartedAt.Some?
      ensures after.tracker.st.stopStartedAt.value <= after.accepted[k].recordedAt
      ensures k + 1 < |after.accepted| ==>
                after.accepted[|after.accepted| - 1].recordedAt - after.tracker.st.stopStartedAt.value
                < Seconds(env.cfg.stopMinDurationSec)
    {
      assert after.accepted[|b.accepted|] == p && p.isStationary;
      if k < |b.accepted| {
        RestedBefore(b.accepted, p, k);
      }
    }
  }

  lemma RestedBefore(points: seq<ProcessedPoint>, p: ProcessedPoint, k: nat)
    requires k < |points| && RestsFrom(points + [p], k, |points| + 1)
    ensures RestsFrom(points, k, |points|)
  {
    assert forall j :: k <= j < |points| ==> (points + [p])[j] == points[j];
  }

  lemma AllClosedStays(env: Env, b: Book, p: ProcessedPoint, at: Time)
    requires ClockFits(b) && Ledger.Next(b, p) && AllClosedBy(b, at) && at < p.recordedAt
    ensures AllClosedBy(Enter(env, b, p), at)
  {
    LogMoves(env, b, p);
    EnteredIs(env, b, p);
    var after := Enter(env, b, p);
    hide Observe, Enter, ClockFits, Ledger.Next, Confirming, Completing;
    forall k | 0 <= k < |after.openings| && after.openings[k].confirmedAt <= at
      ensures ClosedBy(after.closings, after.openings[k].id, at)
    {
      assert k < |b.openings|;
      var j :| 0 <= j < |b.closings| && b.closings[j].id == b.openings[k].id && b.closings[j].completedAt <= at;
      assert after.closings[j] == b.closings[j];
    }
  }

  lemma NothingOpenIsAllClosed(b: Book, at: Time)
    requires OpensFit(b) && b.tracker.st.activeTripId.None? && b.tracker.st.lastProcessedAt == Some(at)
    ensures AllClosedBy(b, at)
  {
    forall k | 0 <= k < |b.openings| ensures ClosedBy(b.closings, b.openings[k].id, at) {
      assert WasClosed(b.closings, b.openings[k].id);
      var j :| 0 <= j < |b.closings| && b.closings[j].id == b.openings[k].id;
      assert b.closings[j].completedAt <= at;
    }
  }

  lemma RestEnds(cfg: DetectionConfig, b: Book, k: nat)
    requires RestsFit(cfg, b) && k + 1 < |b.accepted| && RestsFrom(b.accepted, k, |b.accepted|)
    requires b.accepted[|b.accepted| - 1].recordedAt - b.accepted[k].recordedAt >= Seconds(cfg.stopMinDurationSec)
    ensures b.tracker.st.activeTripId.None?
  {
    hide RestsFrom;
  }

  lemma LastEntered(env: Env, b: Book, p: ProcessedPoint)
    requires ClockFits(b) && Ledger.Next(b, p)
    ensures b.tracker.st.WellFormed() && Enter(env, b, p).accepted == b.accepted + [p]
    ensures Enter(env, b, p).tracker.st.lastProcessedAt == Some(p.recordedAt)
  {
    EnteredIs(env, b, p);
    OpenMoves(env, b.tracker, p);
    hide Observe, Enter, Confirming, Completing, Distinct;
  }

  lemma OldRestEnds(env: Env, b: Book, p: ProcessedPoint, k: nat, e: nat)
    requires ClockFits(b) && Ledger.Next(b, p) && StandstillsEnd(env.cfg, b) && k < e < |b.accepted|
    requires RestsFrom(b.accepted + [p], k, e + 1)
    requires b.accepted[e].recordedAt - b.accepted[k].recordedAt >= Seconds(env.cfg.stopMinDurationSec)
    ensures AllClosedBy(Enter(env, b, p), b.accepted[e].recordedAt)
  {
    RestsAlready(b.accepted, p, k, e + 1);
    IsEarlier(b, p, e);
    hide ClockFits, Ledger.Next, AllClosedBy, RestsFrom, Enter;
    AllClosedStays(env, b, p, b.accepted[e].recordedAt);
  }

  lemma {:induction false} EnterEndsStandstills(env: Env, b: Book, p: ProcessedPoint)
    requires ClockFits(b) && Ledger.Next(b, p) && StandstillsEnd(env.cfg, b)
    requires OpensFit(Enter(env, b, p)) && RestsFit(env.cfg, Enter(env, b, p))
    ensures StandstillsEnd(env.cfg, Enter(env, b, p))
  {
    hide ClockFits, Ledger.Next, OpensFit, RestsFit, AllClosedBy, RestsFrom, Enter;
    LastEntered(env, b, p);
    var after := Enter(env, b, p);
    forall k, e | 0 <= k < e < |after.accepted| && RestsFrom(after.accepted, k, e + 1)
                  && after.accepted[e].recordedAt - after.accepted[k].recordedAt >= Seconds(env.cfg.stopMinDurationSec)
      ensures AllClosedBy(after, after.accepted[e].recordedAt)
    {
      if e < |b.accepted| {
        OldRestEnds(env, b, p, k, e);
      } else {
        RestEnds(env.cfg, after, k);
        NothingOpenIsAllClosed(after, p.recordedAt);
      }
    }
  }

  lemma RestsAlready(points: seq<ProcessedPoint>, p: ProcessedPoint, k: nat, n: nat)
    requires n <= |points| && RestsFrom(points + [p], k, n)
    ensures RestsFrom(points, k, n)
  {
    assert forall j :: k <= j < n ==> (points + [p])[j] == points[j];
  }
}
