// The tables as they would be if every accepted point were saved the moment it is seen: the
// state machine moves, the point is stored, and it is linked at once, either alone or, when it
// confirms a trip, with every accepted point since the start of that trip. This is the
// reference for what a whole detection cycle may leave behind.
module Ledger {
  import opened Domain
  import opened TripDetection
  import opened TripRows
  import opened TripRefinement
  import opened TripGrammar
  import opened Storage

  // A trip that was opened: its identifier, its start, and the time of its confirming point.
  datatype Opening = Opening(id: TripId, startedAt: Time, confirmedAt: Time)

  // A trip that was completed: its identifier and the time of its completing point.
  datatype Closing = Closing(id: TripId, completedAt: Time)

  datatype Book = Book(
    tracker: Tracker,
    accepted: seq<ProcessedPoint>,
    links: LinkTable,
    openings: seq<Opening>,
    closings: seq<Closing>)

  function Since(points: seq<ProcessedPoint>, at: Time): seq<ProcessedPoint> {
    Filter((p: ProcessedPoint) => p.recordedAt >= at, points)
  }

  // This point confirms the open candidate.
  predicate Confirming(env: Env, t: Tracker, p: ProcessedPoint)
    requires t.st.WellFormed()
  {
    t.st.state == MotionCandidate && Observe(env, t, p).st.state == TripActive
  }

  // This point completes the open trip.
  predicate Completing(env: Env, t: Tracker, p: ProcessedPoint)
    requires t.st.WellFormed()
  {
    t.st.activeTripId.Some? && Observe(env, t, p).st.activeTripId != t.st.activeTripId
  }

  // Opening a trip links every accepted point since its start; a credited point is linked
  // to its trip; nothing else is linked.
  function NewLinks(env: Env, b: Book, p: ProcessedPoint): seq<TripPoint>
    requires b.tracker.st.WellFormed()
  {
    if Confirming(env, b.tracker, p) then
      TripPointsOf(Since(b.accepted + [p], b.tracker.st.candidateStartedAt.value), b.tracker.nextId)
    else
      var credit := CreditOf(env, b.tracker.st, p);
      seq(|credit|, i requires 0 <= i < |credit| => TripPoint(credit[i].tripId, p.eventId, p.recordedAt))
  }

  function Enter(env: Env, b: Book, p: ProcessedPoint): Book
    requires b.tracker.st.WellFormed()
  {
    Book(Observe(env, b.tracker, p), b.accepted + [p], LinkAll(b.links, NewLinks(env, b, p)),
         if Confirming(env, b.tracker, p)
         then b.openings + [Opening(b.tracker.nextId, b.tracker.st.candidateStartedAt.value, p.recordedAt)]
         else b.openings,
         if Completing(env, b.tracker, p)
         then b.closings + [Closing(b.tracker.st.activeTripId.value, p.recordedAt)]
         else b.closings)
  }

  function EnterAll(env: Env, b: Book, points: seq<ProcessedPoint>): (r: Book)
    requires b.tracker.st.WellFormed()
    ensures r.tracker == ObserveAll(env, b.tracker, points)
    ensures r.accepted == b.accepted + points
  {
    if points == [] then b
    else Enter(env, EnterAll(env, b, points[..|points| - 1]), points[|points| - 1])
  }

  lemma EnterAllLast(env: Env, b: Book, points: seq<ProcessedPoint>, p: ProcessedPoint)
    requires b.tracker.st.WellFormed()
    ensures EnterAll(env, b, points + [p]) == Enter(env, EnterAll(env, b, points), p)
  {
    assert (points + [p])[..|points + [p]| - 1] == points;
  }

  // ---- what every book keeps ----

  // The next point: usable, later than everything entered, and not entered before.
  ghost predicate Next(b: Book, p: ProcessedPoint) {
    && p.IsUsable()
    && (forall i :: 0 <= i < |b.accepted| ==>
          b.accepted[i].recordedAt < p.recordedAt && b.accepted[i].eventId != p.eventId)
  }

  ghost predicate ClockFits(b: Book) {
    var st := b.tracker.st;
    && st.WellFormed()
    && (forall i, j :: 0 <= i < j < |b.accepted| ==> b.accepted[i].recordedAt < b.accepted[j].recordedAt)
    && Distinct(b.accepted)
    && (forall i :: 0 <= i < |b.accepted| ==> b.accepted[i].IsUsable())
    && st.lastProcessedAt ==
         (if b.accepted == [] then None else Some(b.accepted[|b.accepted| - 1].recordedAt))
    && (st.state == MotionCandidate ==> st.candidateStartedAt.value <= st.lastProcessedAt.value)
  }

  lemma EnterKeepsClock(env: Env, b: Book, p: ProcessedPoint)
    requires ClockFits(b) && Next(b, p)
    ensures ClockFits(Enter(env, b, p))
  {
    hide LinkAll, NewLinks, InsertTrip, UpdateStats, Complete;
  }

  // Some point with this event id was recorded at this time.
  ghost predicate Entered(points: seq<ProcessedPoint>, e: EventId, at: Time) {
    exists i :: 0 <= i < |points| && points[i].eventId == e && points[i].recordedAt == at
  }

  ghost predicate Distinct(points: seq<ProcessedPoint>) {
    forall i, j :: 0 <= i < j < |points| ==> points[i].eventId != points[j].eventId
  }

  lemma EnteredStays(points: seq<ProcessedPoint>, p: ProcessedPoint, e: EventId, at: Time)
    ensures Entered(points, e, at) ==> Entered(points + [p], e, at)
    ensures Entered(points + [p], p.eventId, p.recordedAt)
  {
    if Entered(points, e, at) {
      var i :| 0 <= i < |points| && points[i].eventId == e && points[i].recordedAt == at;
      assert (points + [p])[i] == points[i];
    }
    assert (points + [p])[|points|] == p;
  }

  lemma EnteredOnce(points: seq<ProcessedPoint>, e: EventId, a: Time, b: Time)
    requires Distinct(points) && Entered(points, e, a) && Entered(points, e, b)
    ensures a == b
  {
  }

  lemma SinceIsEntered(points: seq<ProcessedPoint>, at: Time, k: nat)
    requires k < |Since(points, at)|
    ensures at <= Since(points, at)[k].recordedAt
    ensures Entered(points, Since(points, at)[k].eventId, Since(points, at)[k].recordedAt)
  {
    assert Since(points, at)[k] in Since(points, at);
  }

  // A linked event is an entered point, linked at its own time to a trip that exists.
  ghost predicate LinkFits(b: Book, e: EventId)
    requires e in b.links
  {
    && b.links[e].tripId < b.tracker.nextId
    && Entered(b.accepted, e, b.links[e].recordedAt)
    && (b.tracker.st.candidateStartedAt.Some? ==>
          b.links[e].recordedAt < b.tracker.st.candidateStartedAt.value)
  }

  // Up to its confirming point, a trip is linked to exactly the accepted points recorded
  // from its start on.
  ghost predicate BackfilledExactly(b: Book, o: Opening) {
    forall i :: 0 <= i < |b.accepted| && b.accepted[i].recordedAt <= o.confirmedAt ==>
      (LinkedTo(b.links, b.accepted[i].eventId, o.id) <==> o.startedAt <= b.accepted[i].recordedAt)
  }

  predicate LinkedTo(links: LinkTable, e: EventId, id: TripId) {
    e in links && links[e].tripId == id
  }

  ghost predicate LinksFit(b: Book) {
    && (b.tracker.st.activeTripId.Some? ==> b.tracker.st.activeTripId.value < b.tracker.nextId)
    && (forall e :: e in b.links ==> LinkFits(b, e))
    && (forall k :: 0 <= k < |b.openings| ==>
          && b.openings[k].id < b.tracker.nextId
          && b.tracker.st.lastProcessedAt.Some?
          && b.openings[k].confirmedAt <= b.tracker.st.lastProcessedAt.value
          && BackfilledExactly(b, b.openings[k]))
  }

  ghost predicate Mentions(points: seq<TripPoint>, e: EventId) {
    exists i :: 0 <= i < |points| && points[i].eventId == e
  }

  lemma MentionsOneMore(points: seq<TripPoint>, p: TripPoint, e: EventId)
    ensures Mentions(points + [p], e) <==> Mentions(points, e) || e == p.eventId
  {
    assert (points + [p])[|points|] == p;
    if Mentions(points, e) {
      var i :| 0 <= i < |points| && points[i].eventId == e;
      assert (points + [p])[i] == points[i];
    }
  }

  // Linking points that are not linked yet links exactly them.
  lemma {:induction false} LinkAllLinks(links: LinkTable, points: seq<TripPoint>)
    requires forall i :: 0 <= i < |points| ==> points[i].eventId !in links
    requires forall i, j :: 0 <= i < j < |points| ==> points[i].eventId != points[j].eventId
    ensures forall e :: e in LinkAll(links, points) <==> e in links || Mentions(points, e)
    ensures forall e :: e in links ==> LinkAll(links, points)[e] == links[e]
    ensures forall i :: 0 <= i < |points| ==>
              && points[i].eventId in LinkAll(links, points)
              && LinkAll(links, points)[points[i].eventId] == Link(points[i].tripId, points[i].recordedAt)
  {
    if points != [] {
      var front, p := points[..|points| - 1], points[|points| - 1];
      LinkAllLinks(links, front);
      assert points == front + [p];
      forall e ensures Mentions(points, e) <==> Mentions(front, e) || e == p.eventId {
        MentionsOneMore(front, p, e);
      }
      hide Mentions;
      assert p.eventId !in LinkAll(links, front) by {
        FrontOmitsLast(front, p);
      }
      forall i | 0 <= i < |front|
        ensures points[i].eventId in LinkAll(links, points)
        ensures LinkAll(links, points)[points[i].eventId] == Link(points[i].tripId, points[i].recordedAt)
      {
        assert points[i] == front[i];
      }
    }
  }

  lemma FrontOmitsLast(front: seq<TripPoint>, p: TripPoint)
    requires forall i :: 0 <= i < |front| ==> front[i].eventId != p.eventId
    ensures !Mentions(front, p.eventId)
  {
  }

  lemma LinkOne(links: LinkTable, p: TripPoint)
    ensures LinkAll(links, [p]) == LinkPoint(links, p)
  {
    assert LinkAll(links, []) == links;
    assert [p][..0] == [];
  }

  // What one point does to the state, as far as links are concerned.
  lemma StateMoves(env: Env, t: Tracker, p: ProcessedPoint)
    requires t.st.WellFormed() && p.IsUsable()
    ensures
      var after, credit := Observe(env, t, p), CreditOf(env, t.st, p);
      && after.nextId == t.nextId + (if Confirming(env, t, p) then 1 else 0)
      && (after.st.candidateStartedAt.Some? ==>
            after.st.candidateStartedAt == t.st.candidateStartedAt || after.st.candidateStartedAt == Some(p.recordedAt))
      && (credit != [] ==>
            && credit == [Credit(t.st.activeTripId.value, p)] && t.st.activeTripId.Some?
            && after.st.state == TripActive && after.st.activeTripId == t.st.activeTripId)
      && after.st.lastProcessedAt == Some(p.recordedAt)
  {
    hide InsertTrip, UpdateStats, Complete;
  }

  lemma NextIsDistinct(b: Book, p: ProcessedPoint)
    requires ClockFits(b) && Next(b, p)
    ensures Distinct(b.accepted + [p])
  {
  }

  lemma NextIsNotLinked(b: Book, p: ProcessedPoint)
    requires LinksFit(b) && Next(b, p)
    ensures p.eventId !in b.links
  {
    assert p.eventId in b.links ==> LinkFits(b, p.eventId);
  }

  lemma UnlinkedSinceStart(b: Book, p: ProcessedPoint, k: nat)
    requires ClockFits(b) && LinksFit(b) && Next(b, p) && b.tracker.st.candidateStartedAt.Some?
    requires k < |Since(b.accepted + [p], b.tracker.st.candidateStartedAt.value)|
    ensures Since(b.accepted + [p], b.tracker.st.candidateStartedAt.value)[k].eventId !in b.links
  {
    var at := b.tracker.st.candidateStartedAt.value;
    var q := Since(b.accepted + [p], at)[k];
    SinceIsEntered(b.accepted + [p], at, k);
    NextIsDistinct(b, p);
    hide Since, ClockFits, Next, Distinct, Entered;
    if q.eventId in b.links {
      assert LinkFits(b, q.eventId);
      hide LinksFit;
      EnteredStays(b.accepted, p, q.eventId, b.links[q.eventId].recordedAt);
      EnteredOnce(b.accepted + [p], q.eventId, q.recordedAt, b.links[q.eventId].recordedAt);
    }
  }

  lemma {:induction false} SinceKeepsDistinct(points: seq<ProcessedPoint>, at: Time)
    requires Distinct(points)
    ensures Distinct(Since(points, at))
  {
    if points != [] {
      var front, p := points[..|points| - 1], points[|points| - 1];
      SinceKeepsDistinct(front, at);
      SinceOneMore(front, p, at);
      assert points == front + [p];
      forall i | 0 <= i < |Since(front, at)| ensures Since(front, at)[i].eventId != p.eventId {
        assert Since(front, at)[i] in Since(front, at);
      }
    }
  }

  // The links once a trip is opened at p.
  lemma OpeningLinks(env: Env, b: Book, p: ProcessedPoint)
    requires ClockFits(b) && LinksFit(b) && Next(b, p) && Confirming(env, b.tracker, p)
    ensures
      var links, recent := Enter(env, b, p).links, Since(b.accepted + [p], b.tracker.st.candidateStartedAt.value);
      && (forall e :: e in b.links ==> e in links && links[e] == b.links[e])
      && (forall k :: 0 <= k < |recent| ==>
            && recent[k].eventId in links
            && links[recent[k].eventId] == Link(b.tracker.nextId, recent[k].recordedAt))
      && (forall e :: e in links && e !in b.links ==> exists k :: 0 <= k < |recent| && recent[k].eventId == e)
  {
    var at := b.tracker.st.candidateStartedAt.value;
    var recent := Since(b.accepted + [p], at);
    var points := TripPointsOf(recent, b.tracker.nextId);
    forall k | 0 <= k < |recent| ensures points[k].eventId !in b.links {
      UnlinkedSinceStart(b, p, k);
    }
    NextIsDistinct(b, p);
    SinceKeepsDistinct(b.accepted + [p], at);
    hide Observe, CreditOf, Since, ClockFits, LinksFit, Next;
    LinkAllLinks(b.links, points);
    var links := LinkAll(b.links, points);
    hide LinkAll;
    forall e | e in links && e !in b.links ensures exists k :: 0 <= k < |recent| && recent[k].eventId == e {
      assert Mentions(points, e);
      var k :| 0 <= k < |points| && points[k].eventId == e;
      assert recent[k].eventId == e;
    }
    forall k | 0 <= k < |recent|
      ensures recent[k].eventId in links && links[recent[k].eventId] == Link(b.tracker.nextId, recent[k].recordedAt)
    {
      assert points[k].eventId == recent[k].eventId;
    }
  }

  // The opened trip is linked to exactly the points since its start.
  lemma OpeningIsExact(env: Env, b: Book, p: ProcessedPoint, i: nat)
    requires ClockFits(b) && LinksFit(b) && Next(b, p) && Confirming(env, b.tracker, p)
    requires i < |b.accepted + [p]|
    ensures
      var q := (b.accepted + [p])[i];
      LinkedTo(Enter(env, b, p).links, q.eventId, b.tracker.nextId)
      <==> b.tracker.st.candidateStartedAt.value <= q.recordedAt
  {
    var at, all := b.tracker.st.candidateStartedAt.value, b.accepted + [p];
    var q, links := all[i], Enter(env, b, p).links;
    OpeningLinks(env, b, p);
    NextIsDistinct(b, p);
    hide Enter, ClockFits, Next, Distinct, LinkFits;
    if q.eventId in b.links {
      OldLinkIsOld(b, p, q);
      assert LinkFits(b, q.eventId);
    } else if q.eventId in links {
      OpenedIsRecent(all, at, q, links, b.links);
    } else {
      assert at <= q.recordedAt ==> q in Since(all, at);
    }
  }

  // A point linked before the candidate began was recorded before it.
  lemma OldLinkIsOld(b: Book, p: ProcessedPoint, q: ProcessedPoint)
    requires LinksFit(b) && Distinct(b.accepted + [p]) && q in b.accepted + [p] && q.eventId in b.links
    requires b.tracker.st.candidateStartedAt.Some?
    ensures q.recordedAt < b.tracker.st.candidateStartedAt.value && b.links[q.eventId].tripId < b.tracker.nextId
  {
    assert LinkFits(b, q.eventId);
    hide LinksFit, Distinct;
    EnteredStays(b.accepted, p, q.eventId, b.links[q.eventId].recordedAt);
    assert Entered(b.accepted + [p], q.eventId, q.recordedAt);
    hide Entered;
    EnteredOnce(b.accepted + [p], q.eventId, q.recordedAt, b.links[q.eventId].recordedAt);
  }

  // A newly linked point is one of those since the start.
  lemma OpenedIsRecent(all: seq<ProcessedPoint>, at: Time, q: ProcessedPoint, links: LinkTable, before: LinkTable)
    requires Distinct(all) && q in all && q.eventId in links && q.eventId !in before
    requires forall e :: e in links && e !in before ==>
               exists k :: 0 <= k < |Since(all, at)| && Since(all, at)[k].eventId == e
    ensures at <= q.recordedAt && q in Since(all, at)
  {
    var k :| 0 <= k < |Since(all, at)| && Since(all, at)[k].eventId == q.eventId;
    SinceIsEntered(all, at, k);
    assert Entered(all, q.eventId, q.recordedAt);
    EnteredOnce(all, q.eventId, q.recordedAt, Since(all, at)[k].recordedAt);
    hide Distinct, Entered;
    assert q in all && q.recordedAt >= at;
  }

  // Earlier trips keep their links when a later point is entered.
  lemma BackfillStays(b: Book, o: Opening, p: ProcessedPoint, after: Book)
    requires BackfilledExactly(b, o) && o.confirmedAt < p.recordedAt
    requires after.accepted == b.accepted + [p]
    requires forall e :: e in b.links ==> e in after.links && after.links[e] == b.links[e]
    requires forall i :: 0 <= i < |b.accepted| ==>
               LinkedTo(after.links, b.accepted[i].eventId, o.id) ==> b.accepted[i].eventId in b.links
    ensures BackfilledExactly(after, o)
  {
    forall i | 0 <= i < |after.accepted| && after.accepted[i].recordedAt <= o.confirmedAt
      ensures LinkedTo(after.links, after.accepted[i].eventId, o.id) <==> o.startedAt <= after.accepted[i].recordedAt
    {
      assert after.accepted[i] == b.accepted[i];
      assert LinkedTo(b.links, after.accepted[i].eventId, o.id) <==> o.startedAt <= b.accepted[i].recordedAt;
    }
  }

  lemma OpeningKeepsLinkFits(env: Env, b: Book, p: ProcessedPoint, e: EventId)
    requires ClockFits(b) && LinksFit(b) && Next(b, p) && Confirming(env, b.tracker, p)
    requires e in Enter(env, b, p).links
    ensures LinkFits(Enter(env, b, p), e)
  {
    var all, at := b.accepted + [p], b.tracker.st.candidateStartedAt.value;
    OpeningLinks(env, b, p);
    StateMoves(env, b.tracker, p);
    OpenedIdIsKnown(env, b.tracker, p);
    hide Observe, Since, LinkAll, NewLinks, ClockFits, Next;
    if e in b.links {
      assert LinkFits(b, e);
      EnteredStays(b.accepted, p, e, b.links[e].recordedAt);
    } else {
      var recent := Since(all, at);
      var k :| 0 <= k < |recent| && recent[k].eventId == e;
      SinceIsEntered(all, at, k);
    }
  }

  lemma OpeningKeepsOpenings(env: Env, b: Book, p: ProcessedPoint, k: nat)
    requires ClockFits(b) && LinksFit(b) && Next(b, p) && Confirming(env, b.tracker, p)
    requires k <= |b.openings|
    ensures BackfilledExactly(Enter(env, b, p), Enter(env, b, p).openings[k])
  {
    var after, all := Enter(env, b, p), b.accepted + [p];
    OpeningLinks(env, b, p);
    if k < |b.openings| {
      forall i | 0 <= i < |b.accepted| && LinkedTo(after.links, b.accepted[i].eventId, b.openings[k].id)
        ensures b.accepted[i].eventId in b.links
      {
        OpeningIsExact(env, b, p, i);
        assert all[i] == b.accepted[i];
        OpenedLinksAreNew(env, b, p, all[i].eventId);
      }
      hide Observe, Since, LinkAll, NewLinks;
      BackfillStays(b, b.openings[k], p, after);
    } else {
      forall i | 0 <= i < |all|
        ensures LinkedTo(after.links, all[i].eventId, b.tracker.nextId)
                <==> b.tracker.st.candidateStartedAt.value <= all[i].recordedAt
      {
        OpeningIsExact(env, b, p, i);
      }
    }
  }

  lemma OpenedLinksAreNew(env: Env, b: Book, p: ProcessedPoint, e: EventId)
    requires ClockFits(b) && LinksFit(b) && Next(b, p) && Confirming(env, b.tracker, p)
    ensures
      var links := Enter(env, b, p).links;
      e in links && e !in b.links ==> links[e].tripId == b.tracker.nextId
  {
    OpeningLinks(env, b, p);
    hide Enter, Since;
  }

  lemma {:induction false} EnterKeepsLinksOpening(env: Env, b: Book, p: ProcessedPoint)
    requires ClockFits(b) && LinksFit(b) && Next(b, p) && Confirming(env, b.tracker, p)
    ensures LinksFit(Enter(env, b, p))
  {
    var after := Enter(env, b, p);
    StateMoves(env, b.tracker, p);
    OpenedIdIsKnown(env, b.tracker, p);
    hide Observe, LinkFits, BackfilledExactly, LinkAll, NewLinks;
    forall e | e in after.links ensures LinkFits(after, e) {
      OpeningKeepsLinkFits(env, b, p, e);
    }
    forall k | 0 <= k < |after.openings| ensures BackfilledExactly(after, after.openings[k]) {
      OpeningKeepsOpenings(env, b, p, k);
    }
  }

  lemma OpenedIdIsKnown(env: Env, t: Tracker, p: ProcessedPoint)
    requires t.st.WellFormed() && p.IsUsable()
    requires t.st.activeTripId.Some? ==> t.st.activeTripId.value < t.nextId
    ensures
      var after := Observe(env, t, p);
      after.st.activeTripId.Some? ==> after.st.activeTripId.value < after.nextId
    ensures Confirming(env, t, p) ==> Observe(env, t, p).st.candidateStartedAt.None?
  {
    hide InsertTrip, UpdateStats, Complete;
  }

  lemma {:induction false} EnterKeepsLinksOtherwise(env: Env, b: Book, p: ProcessedPoint)
    requires ClockFits(b) && LinksFit(b) && Next(b, p) && !Confirming(env, b.tracker, p)
    ensures LinksFit(Enter(env, b, p))
  {
    var after := Enter(env, b, p);
    StateMoves(env, b.tracker, p);
    OpenedIdIsKnown(env, b.tracker, p);
    NextIsNotLinked(b, p);
    var credit := CreditOf(env, b.tracker.st, p);
    if credit == [] {
      assert NewLinks(env, b, p) == [];
    } else {
      assert NewLinks(env, b, p) == [TripPoint(credit[0].tripId, p.eventId, p.recordedAt)];
      LinkOne(b.links, NewLinks(env, b, p)[0]);
    }
    hide Observe, NewLinks, CreditOf, LinkAll;
    forall e | e in after.links ensures LinkFits(after, e) {
      if e in b.links {
        assert LinkFits(b, e);
      }
      EnteredStays(b.accepted, p, e, after.links[e].recordedAt);
    }
    hide Entered;
    forall k | 0 <= k < |b.openings| ensures BackfilledExactly(after, b.openings[k]) {
      BackfillStays(b, b.openings[k], p, after);
    }
  }

  // ---- the links of a batch ----

  lemma {:induction false} LinkAllAppend(links: LinkTable, a: seq<TripPoint>, b: seq<TripPoint>)
    ensures LinkAll(links, a + b) == LinkAll(LinkAll(links, a), b)
  {
    if b == [] {
      assert a + b == a;
    } else {
      var rest := b[..|b| - 1];
      assert (a + b)[..|a + b| - 1] == a + rest;
      LinkAllAppend(links, a, rest);
    }
  }

  // All points carried by the commands.
  function PointsOf(commands: seq<Command>): seq<TripPoint> {
    if commands == [] then []
    else PointsOf(commands[..|commands| - 1]) + commands[|commands| - 1].Points()
  }

  lemma PointsOneMore(commands: seq<Command>, c: Command)
    ensures PointsOf(commands + [c]) == PointsOf(commands) + c.Points()
  {
    assert (commands + [c])[..|commands + [c]| - 1] == commands;
  }

  // Stored points a creation reaches back to, older than everything in the batch.
  function OldPoints(stored: seq<ProcessedPoint>, c: Command): seq<TripPoint> {
    match c
    case CreateTrip(trip, since, _) => TripPointsOf(Since(stored, since), trip.id)
    case _ => []
  }

  function AllOldPoints(stored: seq<ProcessedPoint>, commands: seq<Command>): seq<TripPoint> {
    if commands == [] then []
    else AllOldPoints(stored, commands[..|commands| - 1]) + OldPoints(stored, commands[|commands| - 1])
  }

  lemma OldPointsOneMore(stored: seq<ProcessedPoint>, commands: seq<Command>, c: Command)
    ensures AllOldPoints(stored, commands + [c]) == AllOldPoints(stored, commands) + OldPoints(stored, c)
  {
    assert (commands + [c])[..|commands + [c]| - 1] == commands;
  }

  lemma SinceOneMore(points: seq<ProcessedPoint>, p: ProcessedPoint, at: Time)
    ensures Since(points + [p], at) == Since(points, at) + if p.recordedAt >= at then [p] else []
  {
    assert (points + [p])[..|points|] == points;
  }

  lemma {:induction false} SinceIsEmpty(points: seq<ProcessedPoint>, at: Time)
    requires forall i :: 0 <= i < |points| ==> points[i].recordedAt < at
    ensures Since(points, at) == []
  {
    FilterNone((p: ProcessedPoint) => p.recordedAt >= at, points);
  }

  lemma SinceAppend(a: seq<ProcessedPoint>, b: seq<ProcessedPoint>, at: Time)
    ensures Since(a + b, at) == Since(a, at) + Since(b, at)
  {
    FilterAppend((p: ProcessedPoint) => p.recordedAt >= at, a, b);
  }

}
