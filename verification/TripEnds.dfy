// How trips end, in terms of the accepted points alone: by a silence, at the last point before
// it, or by a standstill that lasts, where it began.
module TripEnds {
  import opened Domain
  import opened TripDetection
  import opened TripRows
  import opened TripRefinement
  import opened TripGrammar
  import opened Storage
  import opened Ledger
  import opened TripRecords
  import opened TripTotals

  // ---- silences ----

  // Points next to each other that are linked to one trip follow each other closely.
  ghost predicate NeighboursFit(cfg: DetectionConfig, b: Book) {
    && (forall i :: 0 < i < |b.accepted| ==> IsClose(cfg, b.accepted, b.links, i))
    && (b.tracker.st.state == StopCandidate && b.accepted != [] && b.tracker.st.activeTripId.Some? ==>
          !LinkedTo(b.links, b.accepted[|b.accepted| - 1].eventId, b.tracker.st.activeTripId.value))
  }

  ghost predicate IsClose(cfg: DetectionConfig, points: seq<ProcessedPoint>, links: LinkTable, i: nat)
    requires 0 < i < |points|
  {
    (exists id :: LinkedTo(links, points[i - 1].eventId, id) && LinkedTo(links, points[i].eventId, id)) ==>
      points[i].recordedAt - points[i - 1].recordedAt <= Seconds(cfg.stopMinDurationSec)
  }

  // What a point's link says about the silence before it.
  lemma CreditIsClose(env: Env, t: Tracker, p: ProcessedPoint)
    requires t.st.WellFormed() && p.IsUsable() && (CreditOf(env, t.st, p) != [] || Confirming(env, t, p))
    ensures t.st.state == StopCandidate || Continues(env.cfg, t.st, p)
    ensures t.st.state == StopCandidate ==> t.st.activeTripId.Some?
    ensures Observe(env, t, p).st.state == TripActive
    ensures Confirming(env, t, p) ==> Continues(env.cfg, t.st, p) && t.st.candidateStartedAt.Some?
  {
    hide InsertTrip, UpdateStats, Complete, Moves;
  }

  lemma NewLinkIs(env: Env, b: Book, p: ProcessedPoint, id: TripId)
    requires ClockFits(b) && LinksFit(b) && Ledger.Next(b, p)
    requires LinkedTo(Enter(env, b, p).links, p.eventId, id)
    ensures if Confirming(env, b.tracker, p) then id == b.tracker.nextId
            else CreditOf(env, b.tracker.st, p) != [] && b.tracker.st.activeTripId == Some(id)
  {
    NextIsNotLinked(b, p);
    StateMoves(env, b.tracker, p);
    hide Observe, LinksFit;
    if Confirming(env, b.tracker, p) {
      OpenedLinksAreNew(env, b, p, p.eventId);
      hide LinkAll, NewLinks, ClockFits, CreditOf;
    } else {
      NewLinksOtherwise(env, b, p);
      hide CreditOf, ClockFits, NewLinks, LinkAll;
    }
  }

  lemma NewLinksOtherwise(env: Env, b: Book, p: ProcessedPoint)
    requires b.tracker.st.WellFormed() && p.IsUsable() && !Confirming(env, b.tracker, p) && p.eventId !in b.links
    ensures
      var links, credit := Enter(env, b, p).links, CreditOf(env, b.tracker.st, p);
      if credit == [] then links == b.links
      else links == b.links[p.eventId := Link(credit[0].tripId, p.recordedAt)]
  {
    StateMoves(env, b.tracker, p);
    hide Observe;
    var credit := CreditOf(env, b.tracker.st, p);
    if credit == [] {
      assert NewLinks(env, b, p) == [];
    } else {
      assert NewLinks(env, b, p) == [TripPoint(credit[0].tripId, p.eventId, p.recordedAt)];
      LinkOne(b.links, NewLinks(env, b, p)[0]);
    }
  }

  // A link an earlier point has after the entry: the one it had, or that of the trip just opened.
  lemma OldLinkIs(env: Env, b: Book, p: ProcessedPoint, i: nat, id: TripId)
    requires ClockFits(b) && LinksFit(b) && Ledger.Next(b, p) && i < |b.accepted|
    requires LinkedTo(Enter(env, b, p).links, b.accepted[i].eventId, id)
    ensures || LinkedTo(b.links, b.accepted[i].eventId, id)
            || (Confirming(env, b.tracker, p) && id == b.tracker.nextId)
  {
    if Confirming(env, b.tracker, p) {
      hide Observe, LinkAll, NewLinks;
      if b.accepted[i].eventId !in b.links {
        OpenedLinksAreNew(env, b, p, b.accepted[i].eventId);
      } else {
        OpeningLinks(env, b, p);
      }
      hide ClockFits, LinksFit;
    } else {
      var credit := CreditOf(env, b.tracker.st, p);
      if credit == [] {
        assert NewLinks(env, b, p) == [];
      } else {
        assert NewLinks(env, b, p) == [TripPoint(credit[0].tripId, p.eventId, p.recordedAt)];
        LinkOne(b.links, NewLinks(env, b, p)[0]);
      }
      hide Observe, CreditOf, ClockFits, LinksFit;
    }
  }

  lemma OpenedLinkIsRecent(env: Env, b: Book, p: ProcessedPoint, i: nat)
    requires ClockFits(b) && LinksFit(b) && Ledger.Next(b, p) && Confirming(env, b.tracker, p) && i < |b.accepted|
    ensures b.tracker.st.candidateStartedAt.Some?
    ensures LinkedTo(Enter(env, b, p).links, b.accepted[i].eventId, b.tracker.nextId)
            <==> b.tracker.st.candidateStartedAt.value <= b.accepted[i].recordedAt
  {
    OpeningIsExact(env, b, p, i);
    assert (b.accepted + [p])[i] == b.accepted[i];
    hide Enter, ClockFits, LinksFit;
  }

  lemma NewNeighbourIsClose(env: Env, b: Book, p: ProcessedPoint, id: TripId)
    requires ClockFits(b) && LinksFit(b) && Ledger.Next(b, p) && NeighboursFit(env.cfg, b) && b.accepted != []
    requires LinkedTo(Enter(env, b, p).links, b.accepted[|b.accepted| - 1].eventId, id)
    requires LinkedTo(Enter(env, b, p).links, p.eventId, id)
    ensures p.recordedAt - b.accepted[|b.accepted| - 1].recordedAt <= Seconds(env.cfg.stopMinDurationSec)
  {
    hide *;
    EnteredIs(env, b, p);
    NewLinkIs(env, b, p, id);
    OldLinkIs(env, b, p, |b.accepted| - 1, id);
    CreditIsClose(env, b.tracker, p);
    LastProcessed(b);
    StopIsUnlinked(env.cfg, b);
    IdsAreKnown(env, b, p);
    ContinuesIs(env.cfg, b.tracker.st, p);
  }

  lemma ContinuesIs(cfg: DetectionConfig, st: DetectionState, p: ProcessedPoint)
    ensures Continues(cfg, st, p) && st.lastProcessedAt.Some? ==>
              p.recordedAt - st.lastProcessedAt.value <= Seconds(cfg.stopMinDurationSec)
  {
  }

  lemma LastProcessed(b: Book)
    requires ClockFits(b) && b.accepted != []
    ensures b.tracker.st.lastProcessedAt == Some(b.accepted[|b.accepted| - 1].recordedAt)
  {
    hide Distinct;
  }

  lemma StopIsUnlinked(cfg: DetectionConfig, b: Book)
    requires NeighboursFit(cfg, b)
    ensures b.tracker.st.state == StopCandidate && b.accepted != [] && b.tracker.st.activeTripId.Some? ==>
              !LinkedTo(b.links, b.accepted[|b.accepted| - 1].eventId, b.tracker.st.activeTripId.value)
  {
    hide LinkedTo;
  }

  lemma IdsAreKnown(env: Env, b: Book, p: ProcessedPoint)
    requires ClockFits(b) && LinksFit(b) && Ledger.Next(b, p)
    ensures b.tracker.st.activeTripId.Some? ==> b.tracker.st.activeTripId.value < b.tracker.nextId
    ensures Confirming(env, b.tracker, p) ==> b.tracker.st.activeTripId.None?
  {
    hide LinkFits, BackfilledExactly, Observe;
  }

  lemma OldNeighboursAreClose(env: Env, b: Book, p: ProcessedPoint, i: nat, id: TripId)
    requires ClockFits(b) && LinksFit(b) && Ledger.Next(b, p) && NeighboursFit(env.cfg, b)
    requires CandidateFits(env.cfg, b) && 0 < i < |b.accepted|
    requires LinkedTo(Enter(env, b, p).links, b.accepted[i - 1].eventId, id)
    requires LinkedTo(Enter(env, b, p).links, b.accepted[i].eventId, id)
    ensures b.accepted[i].recordedAt - b.accepted[i - 1].recordedAt <= Seconds(env.cfg.stopMinDurationSec)
  {
    hide *;
    EnteredIs(env, b, p);
    OldLinkIs(env, b, p, i - 1, id);
    OldLinkIs(env, b, p, i, id);
    if Confirming(env, b.tracker, p) && id == b.tracker.nextId {
      OpenedLinkIsRecent(env, b, p, i - 1);
      OpenedLinkIsRecent(env, b, p, i);
      CandidateIsClose(env.cfg, b, i);
    } else {
      NeighboursAre(env.cfg, b, i, id);
    }
  }

  lemma NeighboursAre(cfg: DetectionConfig, b: Book, i: nat, id: TripId)
    requires NeighboursFit(cfg, b) && 0 < i < |b.accepted|
    requires LinkedTo(b.links, b.accepted[i - 1].eventId, id) && LinkedTo(b.links, b.accepted[i].eventId, id)
    ensures b.accepted[i].recordedAt - b.accepted[i - 1].recordedAt <= Seconds(cfg.stopMinDurationSec)
  {
    hide LinkedTo;
    assert IsClose(cfg, b.accepted, b.links, i);
  }

  lemma CandidateIsClose(cfg: DetectionConfig, b: Book, i: nat)
    requires ClockFits(b) && CandidateFits(cfg, b) && 0 < i < |b.accepted| && b.tracker.st.candidateStartedAt.Some?
    requires b.tracker.st.candidateStartedAt.value <= b.accepted[i - 1].recordedAt
    ensures b.accepted[i].recordedAt - b.accepted[i - 1].recordedAt <= Seconds(cfg.stopMinDurationSec)
  {
    hide Distinct, Moved, MovedCount, MovedFrom, NotRipeBefore;
    assert b.accepted[i - 1].recordedAt < b.accepted[i].recordedAt;
  }

  lemma {:induction false} EnterKeepsNeighbours(env: Env, b: Book, p: ProcessedPoint)
    requires ClockFits(b) && LinksFit(b) && Ledger.Next(b, p) && NeighboursFit(env.cfg, b) && CandidateFits(env.cfg, b)
    ensures NeighboursFit(env.cfg, Enter(env, b, p))
  {
    hide *;
    EnteredIs(env, b, p);
    var after := Enter(env, b, p);
    forall i | 0 < i < |after.accepted| ensures IsClose(env.cfg, after.accepted, after.links, i) {
      NeighbourIsClose(env, b, p, i);
    }
    StoppedIsUnlinked(env, b, p);
    NeighboursFromParts(env.cfg, after);
  }

  lemma NeighboursFromParts(cfg: DetectionConfig, b: Book)
    requires forall i :: 0 < i < |b.accepted| ==> IsClose(cfg, b.accepted, b.links, i)
    requires b.tracker.st.state == StopCandidate && b.accepted != [] && b.tracker.st.activeTripId.Some? ==>
               !LinkedTo(b.links, b.accepted[|b.accepted| - 1].eventId, b.tracker.st.activeTripId.value)
    ensures NeighboursFit(cfg, b)
  {
    hide LinkedTo, IsClose;
  }

  lemma NeighbourIsClose(env: Env, b: Book, p: ProcessedPoint, i: nat)
    requires ClockFits(b) && LinksFit(b) && Ledger.Next(b, p) && NeighboursFit(env.cfg, b) && CandidateFits(env.cfg, b)
    requires 0 < i <= |b.accepted|
    ensures
      var after := Enter(env, b, p);
      |after.accepted| == |b.accepted| + 1 && IsClose(env.cfg, after.accepted, after.links, i)
  {
    hide ClockFits, LinksFit, Ledger.Next, CandidateFits, NeighboursFit, Observe, NewLinks, LinkAll, LinkedTo,
      Confirming, Completing;
    EnteredIs(env, b, p);
    var after := Enter(env, b, p);
    if id :| LinkedTo(after.links, after.accepted[i - 1].eventId, id)
             && LinkedTo(after.links, after.accepted[i].eventId, id)
    {
      if i < |b.accepted| {
        OldNeighboursAreClose(env, b, p, i, id);
      } else {
        NewNeighbourIsClose(env, b, p, id);
      }
    }
  }

  lemma StoppedIsUnlinked(env: Env, b: Book, p: ProcessedPoint)
    requires ClockFits(b) && LinksFit(b) && Ledger.Next(b, p)
    ensures
      var after := Enter(env, b, p);
      after.tracker.st.state == StopCandidate && after.tracker.st.activeTripId.Some? ==>
        !LinkedTo(after.links, p.eventId, after.tracker.st.activeTripId.value)
  {
    hide *;
    EnteredIs(env, b, p);
    var after := Enter(env, b, p);
    if after.tracker.st.state == StopCandidate && after.tracker.st.activeTripId.Some?
       && LinkedTo(after.links, p.eventId, after.tracker.st.activeTripId.value)
    {
      NewLinkIs(env, b, p, after.tracker.st.activeTripId.value);
      CreditIsClose(env, b.tracker, p);
      assert false;
    }
  }

  // ---- standstills ----

  // What of the surroundings decides how trips end; not the clock.
  datatype Rules = Rules(cfg: DetectionConfig, dist: Distance)

  function RulesOf(env: Env): Rules {
    Rules(env.cfg, env.dist)
  }

  lemma RulesAre(env: Env)
    ensures RulesOf(env).cfg == env.cfg && RulesOf(env).dist == env.dist
  {
  }

  // The point stays at the place where the device stood.
  predicate Stays(r: Rules, at: GeoPoint, p: ProcessedPoint)
    requires p.filtered.Some?
  {
    p.isStationary || r.dist(at, p.filtered.value) <= r.cfg.stopRadiusM
  }

  // From the k-th point on, up to the n-th, the device stood at the k-th one's place, and for
  // less than it takes to end a trip.
  ghost predicate StandsFrom(r: Rules, points: seq<ProcessedPoint>, k: nat, n: nat, since: Time, at: GeoPoint) {
    && k < n <= |points| && points[k].isStationary && points[k].filtered == Some(at) && since == StillSince(points[k])
    && forall j :: k < j < n ==>
         && points[j].filtered.Some? && Stays(r, at, points[j])
         && points[j].recordedAt - since < Seconds(r.cfg.stopMinDurationSec)
  }

  ghost predicate Stands(r: Rules, points: seq<ProcessedPoint>, n: nat, since: Time, at: GeoPoint) {
    exists k :: StandsFrom(r, points, k, n, since, at)
  }

  // The n-th point ended the trip by coming after a silence.
  ghost predicate EndsBySilence(r: Rules, points: seq<ProcessedPoint>, n: nat, endedAt: Time, end: GeoPoint) {
    && 0 < n < |points| && points[n].recordedAt - points[n - 1].recordedAt > Seconds(r.cfg.stopMinDurationSec)
    && endedAt == points[n - 1].recordedAt && points[n - 1].filtered == Some(end)
  }

  // The n-th point ended the trip by a standstill having lasted.
  ghost predicate EndsByStandstill(r: Rules, points: seq<ProcessedPoint>, n: nat, endedAt: Time, end: GeoPoint) {
    && 0 < n < |points| && Stands(r, points, n, endedAt, end)
    && points[n].filtered.Some? && Stays(r, end, points[n])
    && points[n].recordedAt - endedAt >= Seconds(r.cfg.stopMinDurationSec)
  }

  ghost predicate ClosingIs(r: Rules, b: Book, c: Closing) {
    && c.id in b.tracker.rows && c.id < b.tracker.nextId && b.tracker.st.activeTripId != Some(c.id)
    && var row := b.tracker.rows[c.id];
       && row.endedAt.Some? && row.end.Some?
       && EndsAt(r, b.accepted, c.completedAt, row.endedAt.value, row.end.value)
  }

  ghost predicate EndsAt(r: Rules, points: seq<ProcessedPoint>, at: Time, endedAt: Time, end: GeoPoint) {
    exists n :: 0 <= n < |points| && EndedWith(r, points, n, at, endedAt, end)
  }

  ghost predicate EndedWith(r: Rules, points: seq<ProcessedPoint>, n: nat, at: Time, endedAt: Time, end: GeoPoint)
    requires n < |points|
  {
    && points[n].recordedAt == at
    && (EndsBySilence(r, points, n, endedAt, end) || EndsByStandstill(r, points, n, endedAt, end))
  }

  ghost predicate EndsFit(r: Rules, b: Book) {
    var st := b.tracker.st;
    && (b.accepted != [] ==> st.lastPoint == b.accepted[|b.accepted| - 1].filtered)
    && (st.stopStartedAt.Some? && st.stopCenter.Some? ==>
          Stands(r, b.accepted, |b.accepted|, st.stopStartedAt.value, st.stopCenter.value))
    && (forall k :: 0 <= k < |b.closings| ==> ClosingIs(r, b, b.closings[k]))
    && (forall id :: id in b.tracker.rows && b.tracker.rows[id].endedAt.Some? ==> WasClosed(b.closings, id))
  }

  lemma StandsOn(r: Rules, points: seq<ProcessedPoint>, p: ProcessedPoint, n: nat, since: Time, at: GeoPoint)
    requires n <= |points| && Stands(r, points, n, since, at)
    ensures Stands(r, points + [p], n, since, at)
    ensures n == |points| && p.filtered.Some? && Stays(r, at, p)
            && p.recordedAt - since < Seconds(r.cfg.stopMinDurationSec) ==>
              Stands(r, points + [p], n + 1, since, at)
  {
    hide Stays;
    OneMore(points, p);
    var k :| StandsFrom(r, points, k, n, since, at);
    assert StandsFrom(r, points + [p], k, n, since, at);
    if n == |points| && p.filtered.Some? && Stays(r, at, p)
       && p.recordedAt - since < Seconds(r.cfg.stopMinDurationSec)
    {
      assert StandsFrom(r, points + [p], k, n + 1, since, at);
    }
  }

  lemma StandsNow(r: Rules, points: seq<ProcessedPoint>, p: ProcessedPoint)
    requires p.isStationary && p.filtered.Some?
    ensures Stands(r, points + [p], |points| + 1, StillSince(p), p.filtered.value)
  {
    OneMore(points, p);
    assert StandsFrom(r, points + [p], |points|, |points| + 1, StillSince(p), p.filtered.value);
  }

  lemma EndStays(r: Rules, points: seq<ProcessedPoint>, p: ProcessedPoint, at: Time, endedAt: Time, end: GeoPoint)
    requires EndsAt(r, points, at, endedAt, end)
    ensures EndsAt(r, points + [p], at, endedAt, end)
  {
    hide Stands, Stays;
    var n :| 0 <= n < |points| && EndedWith(r, points, n, at, endedAt, end);
    OneMore(points, p);
    assert (points + [p])[n] == points[n] && (n > 0 ==> (points + [p])[n - 1] == points[n - 1]);
    if EndsByStandstill(r, points, n, endedAt, end) {
      StandsOn(r, points, p, n, endedAt, end);
    }
    assert EndedWith(r, points + [p], n, at, endedAt, end);
  }

  // ---- what one point does ----

  // How the stop state moves.
  lemma StopMoves(env: Env, t: Tracker, p: ProcessedPoint)
    requires t.st.WellFormed() && p.IsUsable()
    ensures
      var after := Observe(env, t, p).st;
      && after.lastPoint == p.filtered
      && (after.stopStartedAt.Some? ==>
            || (&& p.isStationary && after.stopStartedAt == Some(StillSince(p)) && after.stopCenter == p.filtered)
            || (&& t.st.stopStartedAt.Some? && t.st.stopCenter.Some?
                && after.stopStartedAt == t.st.stopStartedAt && after.stopCenter == t.st.stopCenter
                && Stays(RulesOf(env), t.st.stopCenter.value, p)
                && p.recordedAt - t.st.stopStartedAt.value < Seconds(env.cfg.stopMinDurationSec)))
  {
    hide InsertTrip, UpdateStats, Complete, Moves;
  }

  // How the row of the open trip ends when it does.
  lemma CompletingEnds(env: Env, t: Tracker, p: ProcessedPoint)
    requires t.st.WellFormed() && p.IsUsable() && Completing(env, t, p) && t.st.activeTripId.value in t.rows
    ensures t.st.activeTripId.Some? && p.filtered.Some?
    ensures
      var after, id := Observe(env, t, p), t.st.activeTripId.value;
      && id in after.rows && after.rows[id].endedAt.Some? && after.rows[id].end.Some? && after.st.activeTripId.None?
      && (|| (&& t.st.lastProcessedAt.Some? && t.st.lastPoint.Some?
              && p.recordedAt - t.st.lastProcessedAt.value > Seconds(env.cfg.stopMinDurationSec)
              && after.rows[id].endedAt == t.st.lastProcessedAt && after.rows[id].end == t.st.lastPoint)
          || (&& t.st.stopStartedAt.Some? && t.st.stopCenter.Some? && Stays(RulesOf(env), t.st.stopCenter.value, p)
              && p.recordedAt - t.st.stopStartedAt.value >= Seconds(env.cfg.stopMinDurationSec)
              && after.rows[id].endedAt == t.st.stopStartedAt && after.rows[id].end == t.st.stopCenter))
  {
    hide RoundedSeconds, TruncatedSeconds, Moves;
  }

  // Without a completion no row ends, and closed rows are left alone.
  lemma NotCompletingEndsNothing(env: Env, t: Tracker, p: ProcessedPoint)
    requires t.st.WellFormed() && p.IsUsable() && t.nextId !in t.rows
    ensures
      var after := Observe(env, t, p);
      && (forall id :: id in t.rows && t.st.activeTripId != Some(id)
                ==> id in after.rows && after.rows[id] == t.rows[id])
      && (forall id :: id in after.rows && after.rows[id].endedAt.Some? ==>
            || (id in t.rows && t.rows[id].endedAt.Some?)
            || (Completing(env, t, p) && t.st.activeTripId == Some(id)))
      && (after.st.activeTripId.Some? ==>
            after.st.activeTripId == t.st.activeTripId || after.st.activeTripId == Some(t.nextId))
      && t.nextId <= after.nextId
  {
    hide RoundedSeconds, TruncatedSeconds, Moves;
  }

  lemma NewClosingIs(env: Env, b: Book, p: ProcessedPoint)
    requires ClockFits(b) && LinksFit(b) && Ledger.Next(b, p) && EndsFit(RulesOf(env), b)
    requires b.tracker.st.WellFormed() && Completing(env, b.tracker, p)
    requires b.tracker.st.activeTripId.value in b.tracker.rows
    ensures ClosingIs(RulesOf(env), Enter(env, b, p), Closing(b.tracker.st.activeTripId.value, p.recordedAt))
  {
    hide *;
    EnteredIs(env, b, p);
    CompletingEnds(env, b.tracker, p);
    IdsAreKnown(env, b, p);
    NextIdGrows(env, b.tracker, p);
    CompletingHasLast(b);
    RulesAre(env);
    EndsParts(RulesOf(env), b);
    var after, id := Enter(env, b, p), b.tracker.st.activeTripId.value;
    var row, st := after.tracker.rows[id], b.tracker.st;
    LastProcessed(b);
    if row.endedAt == st.lastProcessedAt && row.end == st.lastPoint && st.lastProcessedAt.Some?
       && p.recordedAt - st.lastProcessedAt.value > Seconds(env.cfg.stopMinDurationSec)
    {
      SilenceEnds(RulesOf(env), b.accepted, p, row.end.value);
    } else {
      StandstillEnds(RulesOf(env), b.accepted, p, st.stopStartedAt.value, st.stopCenter.value);
    }
    ClosingFromParts(RulesOf(env), after, Closing(id, p.recordedAt));
  }

  lemma ClosingFromParts(r: Rules, b: Book, c: Closing)
    requires c.id in b.tracker.rows && c.id < b.tracker.nextId && b.tracker.st.activeTripId != Some(c.id)
    requires b.tracker.rows[c.id].endedAt.Some? && b.tracker.rows[c.id].end.Some?
    requires EndsAt(r, b.accepted, c.completedAt, b.tracker.rows[c.id].endedAt.value, b.tracker.rows[c.id].end.value)
    ensures ClosingIs(r, b, c)
  {
    hide EndsAt;
  }

  lemma NextIdGrows(env: Env, t: Tracker, p: ProcessedPoint)
    requires t.st.WellFormed() && p.IsUsable()
    ensures t.nextId <= Observe(env, t, p).nextId
  {
    hide InsertTrip, UpdateStats, Complete, Moves;
  }

  lemma CompletingHasLast(b: Book)
    requires ClockFits(b) && b.tracker.st.activeTripId.Some?
    ensures b.accepted != []
  {
    hide Distinct;
  }

  lemma EndsParts(r: Rules, b: Book)
    requires EndsFit(r, b)
    ensures b.accepted != [] ==> b.tracker.st.lastPoint == b.accepted[|b.accepted| - 1].filtered
    ensures b.tracker.st.stopStartedAt.Some? && b.tracker.st.stopCenter.Some? ==>
              Stands(r, b.accepted, |b.accepted|, b.tracker.st.stopStartedAt.value, b.tracker.st.stopCenter.value)
  {
    hide Stands, ClosingIs, WasClosed;
  }

  lemma SilenceEnds(r: Rules, points: seq<ProcessedPoint>, p: ProcessedPoint, end: GeoPoint)
    requires points != [] && p.recordedAt - points[|points| - 1].recordedAt > Seconds(r.cfg.stopMinDurationSec)
    requires points[|points| - 1].filtered == Some(end)
    ensures EndsAt(r, points + [p], p.recordedAt, points[|points| - 1].recordedAt, end)
  {
    OneMore(points, p);
    assert (points + [p])[|points| - 1] == points[|points| - 1];
    hide EndsByStandstill;
    assert EndedWith(r, points + [p], |points|, p.recordedAt, points[|points| - 1].recordedAt, end);
  }

  lemma StandstillEnds(r: Rules, points: seq<ProcessedPoint>, p: ProcessedPoint, since: Time, at: GeoPoint)
    requires points != [] && p.filtered.Some? && Stands(r, points, |points|, since, at) && Stays(r, at, p)
    requires p.recordedAt - since >= Seconds(r.cfg.stopMinDurationSec)
    ensures EndsAt(r, points + [p], p.recordedAt, since, at)
  {
    OneMore(points, p);
    StandsOn(r, points, p, |points|, since, at);
    hide Stands, EndsBySilence, Stays;
    assert EndedWith(r, points + [p], |points|, p.recordedAt, since, at);
  }

  lemma OldClosingStays(env: Env, b: Book, p: ProcessedPoint, c: Closing)
    requires ClockFits(b) && Ledger.Next(b, p) && ClosingIs(RulesOf(env), b, c) && b.tracker.nextId !in b.tracker.rows
    ensures ClosingIs(RulesOf(env), Enter(env, b, p), c)
  {
    EnteredIs(env, b, p);
    NotCompletingEndsNothing(env, b.tracker, p);
    var row := b.tracker.rows[c.id];
    EndStays(RulesOf(env), b.accepted, p, c.completedAt, row.endedAt.value, row.end.value);
    hide Observe, EndsAt, NewLinks, LinkAll, Completing, Confirming;
  }

  lemma {:induction false} EnterKeepsEnds(env: Env, b: Book, p: ProcessedPoint)
    requires ClockFits(b) && LinksFit(b) && Ledger.Next(b, p) && EndsFit(RulesOf(env), b)
    requires b.tracker.nextId !in b.tracker.rows
    requires b.tracker.st.activeTripId.Some? ==> b.tracker.st.activeTripId.value in b.tracker.rows
    ensures EndsFit(RulesOf(env), Enter(env, b, p))
  {
    var after := Enter(env, b, p);
    StandsMove(env, b, p);
    hide LinksFit, Ledger.Next, Observe, NewLinks, LinkAll, Completing, Confirming, ClosingIs, Stands, WasClosed;
    NotCompletingEndsNothing(env, b.tracker, p);
    forall k | 0 <= k < |after.closings| ensures ClosingIs(RulesOf(env), after, after.closings[k]) {
      if k < |b.closings| {
        OldClosingStays(env, b, p, b.closings[k]);
      } else {
        NewClosingIs(env, b, p);
      }
    }
    hide ClockFits;
    forall id | id in after.tracker.rows && after.tracker.rows[id].endedAt.Some?
      ensures WasClosed(after.closings, id)
    {
      if id in b.tracker.rows && b.tracker.rows[id].endedAt.Some? {
        ClosedStaysClosed(b.closings, after.closings, id);
      } else {
        JustClosed(b.closings, Closing(id, p.recordedAt));
      }
    }
  }

  lemma ClosedStaysClosed(closings: seq<Closing>, more: seq<Closing>, id: TripId)
    requires WasClosed(closings, id) && closings <= more
    ensures WasClosed(more, id)
  {
    var k :| 0 <= k < |closings| && closings[k].id == id;
    assert more[k].id == id;
  }

  lemma JustClosed(closings: seq<Closing>, c: Closing)
    ensures WasClosed(closings + [c], c.id)
  {
    assert (closings + [c])[|closings|] == c;
  }

  lemma StandsMove(env: Env, b: Book, p: ProcessedPoint)
    requires ClockFits(b) && Ledger.Next(b, p) && EndsFit(RulesOf(env), b)
    ensures
      var after := Enter(env, b, p);
      var st := after.tracker.st;
      && st.lastPoint == after.accepted[|after.accepted| - 1].filtered
      && (st.stopStartedAt.Some? && st.stopCenter.Some? ==>
            Stands(RulesOf(env), after.accepted, |after.accepted|, st.stopStartedAt.value, st.stopCenter.value))
  {
    hide *;
    EnteredIs(env, b, p);
    StopMoves(env, b.tracker, p);
    RulesAre(env);
    EndsParts(RulesOf(env), b);
    UsableIs(p);
    var after, st := Enter(env, b, p), b.tracker.st;
    if p.isStationary {
      StandsNow(RulesOf(env), b.accepted, p);
    }
    if st.stopStartedAt.Some? && st.stopCenter.Some? {
      StandsOn(RulesOf(env), b.accepted, p, |b.accepted|, st.stopStartedAt.value, st.stopCenter.value);
    }
    assert after.accepted[|b.accepted|] == p;
  }

  lemma UsableIs(p: ProcessedPoint)
    ensures p.IsUsable() ==> p.filtered.Some?
  {
  }
}
