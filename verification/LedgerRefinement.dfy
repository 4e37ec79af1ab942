// A detection batch saved in phases leaves the same trips and links as entering its points
// one at a time: candidate points held in memory, points reached by the backfill and points
// carried by updates together are exactly the links of the reference book. The buffers of the
// run and the book agree after every point, and the final flush closes the difference.
module LedgerRefinement {
  import opened Domain
  import opened TripDetection
  import opened TripRows
  import opened TripRefinement
  import opened TripGrammar
  import opened Storage
  import opened Ledger

  ghost predicate Tracks(env: Env, b: Book, seen: seq<ProcessedPoint>, run: Run, book: Book)
    requires Valid(env, run)
  {
    && book.tracker == View(env, b.tracker, run)
    && book.accepted == b.accepted + seen
    && HoldsCandidate(b.accepted, seen, run)
    && book.links == LinkAll(b.links, AllOldPoints(b.accepted, run.commands) + PointsOf(Flush(run).commands))
  }

  // The candidate buffers after one point: restarted at it, or extended by it.
  lemma CandidateMoves(env: Env, run: Run, p: ProcessedPoint)
    requires Valid(env, run) && p.IsUsable()
    ensures
      var after := AfterPoint(env, run, p);
      after.st.state == MotionCandidate ==>
        || (after.st.candidateStartedAt == Some(p.recordedAt) && after.candidatePoints == [Unassigned(p)])
        || (run.st.state == MotionCandidate && after.st.candidateStartedAt == run.st.candidateStartedAt
            && after.candidatePoints == run.candidatePoints + [Unassigned(p)] && after.commands == run.commands)
  {
    hide Filter;
    if run.st.state == TripActive && env.GapExceeded(run.st, p) {
      assert [] + [Unassigned(p)] == [Unassigned(p)];
    }
  }

  lemma AssignedPoints(points: seq<ProcessedPoint>, id: TripId)
    ensures Assign(TripPointsOf(points, 0), id) == TripPointsOf(points, id)
  {
  }

  lemma TripPointsAppend(a: seq<ProcessedPoint>, b: seq<ProcessedPoint>, id: TripId)
    ensures TripPointsOf(a + b, id) == TripPointsOf(a, id) + TripPointsOf(b, id)
  {
  }

  // The creation emitted when p confirms the candidate.
  function Creation(env: Env, run: Run, p: ProcessedPoint): Command
    requires run.st.candidateStartedAt.Some? && run.st.candidateStart.Some?
  {
    CreateTrip(NewTrip(env, Counted(env, run.st, p), p, run.nextId), run.st.candidateStartedAt.value,
               Assign(run.candidatePoints + [Unassigned(p)], run.nextId))
  }

  // Whether p confirms the candidate can be read off the run itself.
  predicate Opens(env: Env, run: Run, p: ProcessedPoint)
    requires Valid(env, run) && p.filtered.Some?
  {
    run.st.state == MotionCandidate && AfterPoint(env, run, p).st.state == TripActive
  }

  lemma ViewState(env: Env, t0: Tracker, run: Run)
    requires Valid(env, run)
    ensures View(env, t0, run).st == run.st && View(env, t0, run).nextId == run.nextId
  {
    hide ApplyCommands, Boundaries, Flush, Valid;
  }

  lemma ConfirmingIsOpening(env: Env, t0: Tracker, run: Run, p: ProcessedPoint)
    requires Valid(env, run) && p.IsUsable() && Valid(env, AfterPoint(env, run, p))
    ensures View(env, t0, run).st.WellFormed()
    ensures Confirming(env, View(env, t0, run), p) == Opens(env, run, p)
  {
    StepRefines(env, t0, run, p);
    ViewState(env, t0, run);
    ViewState(env, t0, AfterPoint(env, run, p));
    hide View, AfterPoint, Observe;
  }

  lemma ConfirmingEmits(env: Env, run: Run, p: ProcessedPoint)
    requires Valid(env, run) && p.IsUsable() && Opens(env, run, p)
    ensures run.activePoints == []
    ensures
      var after := AfterPoint(env, run, p);
      && after.commands == run.commands + [Creation(env, run, p)]
      && after.activePoints == []
      && after.st.state != MotionCandidate
  {
    hide Filter, NewTrip, Assign, Confirms;
  }

  // The point credited by p, as the trip point that will be linked.
  function CreditPoints(env: Env, st: DetectionState, p: ProcessedPoint): seq<TripPoint>
    requires st.WellFormed()
  {
    var credit := CreditOf(env, st, p);
    seq(|credit|, i requires 0 <= i < |credit| => TripPoint(credit[i].tripId, p.eventId, p.recordedAt))
  }

  // The commands of one step, other than a creation, reach back to no stored point and carry
  // the credited point, if any, after those before it.
  ghost predicate Carries(stored: seq<ProcessedPoint>, run: Run, after: Run, more: seq<TripPoint>)
    requires BuffersFit(run) && BuffersFit(after)
  {
    && AllOldPoints(stored, after.commands) == AllOldPoints(stored, run.commands)
    && (forall c :: c in after.commands && c.CreateTrip? ==> c in run.commands)
    && PointsOf(Flush(after).commands) == PointsOf(Flush(run).commands) + more
  }

  lemma FlushedPoints(run: Run)
    requires BuffersFit(run)
    ensures PointsOf(Flush(run).commands) == PointsOf(run.commands) + run.activePoints
  {
    if run.activePoints != [] {
      PointsOneMore(run.commands, PendingUpdate(run));
    } else {
      assert PointsOf(run.commands) + [] == PointsOf(run.commands);
    }
  }

  lemma PendingCarries(stored: seq<ProcessedPoint>, run: Run, p: ProcessedPoint)
    requires BuffersFit(run) && run.st.activeTripId.Some? && p.filtered.Some?
    ensures Carries(stored, run, BufferActive(run, p), [TripPoint(run.st.activeTripId.value, p.eventId, p.recordedAt)])
  {
    var after, more := BufferActive(run, p), [TripPoint(run.st.activeTripId.value, p.eventId, p.recordedAt)];
    FlushedPoints(run);
    FlushedPoints(after);
    hide PointsOf, AllOldPoints, Flush;
    assert PointsOf(run.commands) + (run.activePoints + more) == (PointsOf(run.commands) + run.activePoints) + more;
  }

  lemma FlushedOldPoints(stored: seq<ProcessedPoint>, run: Run)
    requires BuffersFit(run)
    ensures AllOldPoints(stored, Flush(run).commands) == AllOldPoints(stored, run.commands)
    ensures forall c :: c in Flush(run).commands && c.CreateTrip? ==> c in run.commands
  {
    if run.activePoints != [] {
      OldPointsOneMore(stored, run.commands, PendingUpdate(run));
    }
  }

  lemma FlushCarries(stored: seq<ProcessedPoint>, run: Run, c: Command, after: Run)
    requires BuffersFit(run) && c.CompleteTrip?
    requires after.commands == Flush(run).commands + [c] && after.activePoints == [] && BuffersFit(after)
    ensures Carries(stored, run, after, [])
  {
    FlushedOldPoints(stored, run);
    hide PointsOf, AllOldPoints;
    PointsOneMore(Flush(run).commands, c);
    OldPointsOneMore(stored, Flush(run).commands, c);
    assert PointsOf(Flush(run).commands) + [] == PointsOf(Flush(run).commands);
  }

  lemma JustFlushCarries(stored: seq<ProcessedPoint>, run: Run, after: Run)
    requires BuffersFit(run) && BuffersFit(after)
    requires after.commands == Flush(run).commands && after.activePoints == []
    ensures Carries(stored, run, after, [])
  {
    FlushedOldPoints(stored, run);
  }

  lemma ActiveCarries(env: Env, stored: seq<ProcessedPoint>, run: Run, p: ProcessedPoint)
    requires Valid(env, run) && p.IsUsable() && run.st.state == TripActive
    requires Valid(env, AfterPoint(env, run, p))
    ensures Carries(stored, run, AfterPoint(env, run, p), CreditPoints(env, run.st, p))
  {
    hide Filter, Carries;
    var after := AfterPoint(env, run, p);
    if env.GapExceeded(run.st, p) {
      assert CreditPoints(env, run.st, p) == [];
      FlushCarries(stored, run,
        CompleteTrip(run.st.activeTripId.value, run.st.lastProcessedAt.value, run.st.lastPoint.value), after);
    } else if p.isStationary {
      JustFlushCarries(stored, run, after);
    } else {
      assert CreditPoints(env, run.st, p) == [TripPoint(run.st.activeTripId.value, p.eventId, p.recordedAt)];
      PendingCarries(stored, run, p);
      CarriesIgnoresState(stored, run, BufferActive(run, p), after, CreditPoints(env, run.st, p));
    }
  }

  lemma CarriesIgnoresState(stored: seq<ProcessedPoint>, run: Run, a: Run, b: Run, more: seq<TripPoint>)
    requires BuffersFit(run) && BuffersFit(a) && BuffersFit(b)
    requires Carries(stored, run, a, more)
    requires b == a.(st := b.st) && b.st.activeTripId == a.st.activeTripId
    ensures Carries(stored, run, b, more)
  {
  }

  lemma StopCarries(env: Env, stored: seq<ProcessedPoint>, run: Run, p: ProcessedPoint)
    requires Valid(env, run) && p.IsUsable() && run.st.state == StopCandidate
    requires Valid(env, AfterPoint(env, run, p))
    ensures Carries(stored, run, AfterPoint(env, run, p), CreditPoints(env, run.st, p))
  {
    hide Filter, Carries;
    var after := AfterPoint(env, run, p);
    if after.st.state == TripActive {
      var resumed := run.(st := run.st.(state := TripActive, stopStartedAt := None, stopCenter := None));
      assert CreditPoints(env, run.st, p) == [TripPoint(run.st.activeTripId.value, p.eventId, p.recordedAt)];
      PendingCarries(stored, resumed, p);
      CarriesFromState(stored, resumed, run, BufferActive(resumed, p), CreditPoints(env, run.st, p));
      CarriesIgnoresState(stored, run, BufferActive(resumed, p), after, CreditPoints(env, run.st, p));
    } else if after.st.activeTripId.None? {
      FlushCarries(stored, run,
        CompleteTrip(run.st.activeTripId.value, run.st.stopStartedAt.value, run.st.stopCenter.value), after);
    } else {
      JustFlushCarries(stored, run, after);
    }
  }

  lemma CarriesFromState(stored: seq<ProcessedPoint>, a: Run, b: Run, after: Run, more: seq<TripPoint>)
    requires BuffersFit(a) && BuffersFit(b) && BuffersFit(after)
    requires Carries(stored, a, after, more)
    requires a == b.(st := a.st) && b.st.activeTripId == a.st.activeTripId
    ensures Carries(stored, b, after, more)
  {
  }

  lemma ClosedCarries(env: Env, stored: seq<ProcessedPoint>, run: Run, p: ProcessedPoint)
    requires Valid(env, run) && p.IsUsable() && run.st.activeTripId.None?
    requires Valid(env, AfterPoint(env, run, p)) && !Opens(env, run, p)
    ensures Carries(stored, run, AfterPoint(env, run, p), CreditPoints(env, run.st, p))
  {
    var after := AfterPoint(env, run, p);
    ClosedEmitsNothing(env, run, p);
    assert CreditPoints(env, run.st, p) == [];
    hide AfterPoint, Carries;
    JustFlushCarries(stored, run, after);
  }

  lemma ClosedEmitsNothing(env: Env, run: Run, p: ProcessedPoint)
    requires Valid(env, run) && p.IsUsable() && run.st.activeTripId.None? && !Opens(env, run, p)
    ensures AfterPoint(env, run, p).commands == run.commands && AfterPoint(env, run, p).activePoints == []
    ensures run.activePoints == []
  {
    hide Filter, NewTrip, Assign, Confirms;
  }

  lemma StepCarries(env: Env, stored: seq<ProcessedPoint>, run: Run, p: ProcessedPoint)
    requires Valid(env, run) && p.IsUsable()
    requires Valid(env, AfterPoint(env, run, p)) && !Opens(env, run, p)
    ensures Carries(stored, run, AfterPoint(env, run, p), CreditPoints(env, run.st, p))
  {
    hide AfterPoint, Carries;
    match run.st.state
    case TripActive => ActiveCarries(env, stored, run, p);
    case StopCandidate => StopCarries(env, stored, run, p);
    case _ => ClosedCarries(env, stored, run, p);
  }

  // The buffers of an open candidate hold the batch's points since its start, and once a
  // command was emitted no stored point is that recent.
  ghost predicate HoldsCandidate(stored: seq<ProcessedPoint>, seen: seq<ProcessedPoint>, run: Run) {
    run.st.state == MotionCandidate && run.st.candidateStartedAt.Some? ==>
      && run.candidatePoints == TripPointsOf(Since(seen, run.st.candidateStartedAt.value), 0)
      && (run.commands != [] ==> Since(stored, run.st.candidateStartedAt.value) == [])
  }

  lemma CandidateTracks(env: Env, stored: seq<ProcessedPoint>, seen: seq<ProcessedPoint>, run: Run, p: ProcessedPoint)
    requires Valid(env, run) && p.IsUsable() && HoldsCandidate(stored, seen, run)
    requires forall i :: 0 <= i < |stored| ==> stored[i].recordedAt < p.recordedAt
    requires forall i :: 0 <= i < |seen| ==> seen[i].recordedAt < p.recordedAt
    requires run.st.state == MotionCandidate ==> run.st.candidateStartedAt.value < p.recordedAt
    ensures HoldsCandidate(stored, seen + [p], AfterPoint(env, run, p))
  {
    var after := AfterPoint(env, run, p);
    CandidateMoves(env, run, p);
    hide AfterPoint, Since;
    if after.st.state == MotionCandidate && after.st.candidateStartedAt.Some? {
      var at := after.st.candidateStartedAt.value;
      SinceOneMore(seen, p, at);
      if at == p.recordedAt {
        SinceIsEmpty(seen, at);
        SinceIsEmpty(stored, at);
      }
      TripPointsAppend(Since(seen, at), [p], 0);
    }
  }

  // The links written by a creation: stored points since the start, then the batch's own.
  lemma CreationLinks(env: Env, stored: seq<ProcessedPoint>, seen: seq<ProcessedPoint>, run: Run, p: ProcessedPoint,
                      links: LinkTable)
    requires run.st.candidateStartedAt.Some? && run.st.candidateStart.Some?
    requires run.candidatePoints == TripPointsOf(Since(seen, run.st.candidateStartedAt.value), 0)
    requires run.commands != [] ==> Since(stored, run.st.candidateStartedAt.value) == []
    requires p.recordedAt >= run.st.candidateStartedAt.value
    ensures
      var at, commands := run.st.candidateStartedAt.value, run.commands + [Creation(env, run, p)];
      LinkAll(LinkAll(links, AllOldPoints(stored, run.commands) + PointsOf(run.commands)),
              TripPointsOf(Since(stored + (seen + [p]), at), run.nextId))
      == LinkAll(links, AllOldPoints(stored, commands) + PointsOf(commands))
  {
    var at, create, id := run.st.candidateStartedAt.value, Creation(env, run, p), run.nextId;
    SinceAppend(stored, seen + [p], at);
    CreationCarries(env, stored, seen, run, p);
    var reach, held := TripPointsOf(Since(stored, at), id), TripPointsOf(Since(seen + [p], at), id);
    TripPointsAppend(Since(stored, at), Since(seen + [p], at), id);
    PointsOneMore(run.commands, create);
    OldPointsOneMore(stored, run.commands, create);
    hide Since, LinkAll, TripPointsOf, Creation, AllOldPoints, PointsOf;
    var old1, old2 := AllOldPoints(stored, run.commands), PointsOf(run.commands);
    LinkAllAppend(links, old1 + old2, reach + held);
    Regroup(old1, old2, reach, held);
  }

  lemma Regroup<T>(a: seq<T>, b: seq<T>, c: seq<T>, d: seq<T>)
    requires b == [] || c == []
    ensures (a + b) + (c + d) == (a + c) + (b + d)
  {
  }

  lemma CreationCarries(env: Env, stored: seq<ProcessedPoint>, seen: seq<ProcessedPoint>, run: Run, p: ProcessedPoint)
    requires run.st.candidateStartedAt.Some? && run.st.candidateStart.Some?
    requires run.candidatePoints == TripPointsOf(Since(seen, run.st.candidateStartedAt.value), 0)
    requires run.commands != [] ==> Since(stored, run.st.candidateStartedAt.value) == []
    requires p.recordedAt >= run.st.candidateStartedAt.value
    ensures
      var at, create, id := run.st.candidateStartedAt.value, Creation(env, run, p), run.nextId;
      && create.Points() == TripPointsOf(Since(seen + [p], at), id)
      && OldPoints(stored, create) == TripPointsOf(Since(stored, at), id)
      && (PointsOf(run.commands) == [] || TripPointsOf(Since(stored, at), id) == [])
  {
    var at := run.st.candidateStartedAt.value;
    SinceOneMore(seen, p, at);
    hide Since;
    TripPointsAppend(Since(seen, at), [p], 0);
    AssignedPoints(Since(seen, at) + [p], run.nextId);
  }

  lemma OpeningTracksLinks(env: Env, b: Book, seen: seq<ProcessedPoint>, run: Run, book: Book, p: ProcessedPoint)
    requires Valid(env, run) && p.IsUsable() && Opens(env, run, p)
    requires book.tracker.st == run.st && book.tracker.nextId == run.nextId && book.accepted == b.accepted + seen
    requires Confirming(env, book.tracker, p) && HoldsCandidate(b.accepted, seen, run)
    requires book.links == LinkAll(b.links, AllOldPoints(b.accepted, run.commands) + PointsOf(Flush(run).commands))
    requires run.st.candidateStartedAt.value < p.recordedAt
    ensures
      var after := AfterPoint(env, run, p);
      BuffersFit(after) &&
      Enter(env, book, p).links
      == LinkAll(b.links, AllOldPoints(b.accepted, after.commands) + PointsOf(Flush(after).commands))
  {
    var at, after := run.st.candidateStartedAt.value, AfterPoint(env, run, p);
    ConfirmingEmits(env, run, p);
    assert Flush(run).commands == run.commands && Flush(after).commands == after.commands;
    assert Enter(env, book, p).links
        == LinkAll(book.links, TripPointsOf(Since(b.accepted + (seen + [p]), at), run.nextId)) by {
      hide Observe, CreditOf, AfterPoint, Since, LinkAll, TripPointsOf, Valid, AllOldPoints, PointsOf, Flush,
           HoldsCandidate, Opens;
      assert b.accepted + (seen + [p]) == book.accepted + [p];
    }
    assert run.candidatePoints == TripPointsOf(Since(seen, at), 0);
    assert run.commands != [] ==> Since(b.accepted, at) == [];
    hide *;
    CreationLinks(env, b.accepted, seen, run, p, b.links);
  }

  lemma OtherTracksLinks(env: Env, b: Book, run: Run, book: Book, p: ProcessedPoint)
    requires Valid(env, run) && p.IsUsable() && Valid(env, AfterPoint(env, run, p)) && !Opens(env, run, p)
    requires book.tracker.st == run.st && !Confirming(env, book.tracker, p)
    requires book.links == LinkAll(b.links, AllOldPoints(b.accepted, run.commands) + PointsOf(Flush(run).commands))
    ensures
      var after := AfterPoint(env, run, p);
      Enter(env, book, p).links
      == LinkAll(b.links, AllOldPoints(b.accepted, after.commands) + PointsOf(Flush(after).commands))
  {
    hide AfterPoint, Observe, CreditOf, AllOldPoints, PointsOf, Flush, LinkAll, Opens;
    StepCarries(env, b.accepted, run, p);
    EnterOther(env, book, p);
    MoreLinks(b.links, AllOldPoints(b.accepted, run.commands), PointsOf(Flush(run).commands),
        CreditPoints(env, run.st, p));
  }

  lemma EnterOther(env: Env, book: Book, p: ProcessedPoint)
    requires book.tracker.st.WellFormed() && !Confirming(env, book.tracker, p)
    ensures Enter(env, book, p).links == LinkAll(book.links, CreditPoints(env, book.tracker.st, p))
  {
    hide Observe, CreditOf, LinkAll;
  }

  lemma MoreLinks(links: LinkTable, reached: seq<TripPoint>, carried: seq<TripPoint>, more: seq<TripPoint>)
    ensures LinkAll(LinkAll(links, reached + carried), more) == LinkAll(links, reached + (carried + more))
  {
    hide LinkAll;
    LinkAllAppend(links, reached + carried, more);
    assert (reached + carried) + more == reached + (carried + more);
  }

  lemma StepTracks(env: Env, b: Book, seen: seq<ProcessedPoint>, run: Run, book: Book, p: ProcessedPoint)
    requires Valid(env, run) && Tracks(env, b, seen, run, book) && ClockFits(book) && Next(book, p)
    ensures Valid(env, Consume(env, run, p))
    ensures Tracks(env, b, seen + [p], Consume(env, run, p), Enter(env, book, p))
  {
    var after := Consume(env, run, p);
    ViewState(env, b.tracker, run);
    assert HoldsCandidate(b.accepted, seen, run) && book.accepted == b.accepted + seen;
    assert run.st == book.tracker.st;
    NextIsLater(b, seen, book, p);
    assert after == AfterPoint(env, run, p);
    hide *;
    StepRefines(env, b.tracker, run, p);
    StepTracksLinks(env, b, seen, run, book, p);
    CandidateTracks(env, b.accepted, seen, run, p);
    EnteredTracks(env, b, seen, after, book, p);
  }

  lemma EnteredTracks(env: Env, b: Book, seen: seq<ProcessedPoint>, after: Run, book: Book, p: ProcessedPoint)
    requires Valid(env, after) && book.tracker.st.WellFormed() && book.accepted == b.accepted + seen
    requires View(env, b.tracker, after) == Observe(env, book.tracker, p)
    requires HoldsCandidate(b.accepted, seen + [p], after)
    requires Enter(env, book, p).links
             == LinkAll(b.links, AllOldPoints(b.accepted, after.commands) + PointsOf(Flush(after).commands))
    ensures Tracks(env, b, seen + [p], after, Enter(env, book, p))
  {
    hide View, Observe, HoldsCandidate, Valid, NewLinks, LinkAll, AllOldPoints, PointsOf, Flush;
    assert (b.accepted + seen) + [p] == b.accepted + (seen + [p]);
  }

  lemma StepTracksLinks(env: Env, b: Book, seen: seq<ProcessedPoint>, run: Run, book: Book, p: ProcessedPoint)
    requires Valid(env, run) && p.IsUsable() && Valid(env, AfterPoint(env, run, p))
    requires Tracks(env, b, seen, run, book)
    requires run.st.state == MotionCandidate ==> run.st.candidateStartedAt.value < p.recordedAt
    ensures book.tracker.st.WellFormed()
    ensures
      var after := AfterPoint(env, run, p);
      Enter(env, book, p).links
      == LinkAll(b.links, AllOldPoints(b.accepted, after.commands) + PointsOf(Flush(after).commands))
  {
    ConfirmingIsOpening(env, b.tracker, run, p);
    ViewState(env, b.tracker, run);
    hide AfterPoint, View, Observe, NewLinks, LinkAll, AllOldPoints, PointsOf, Flush, HoldsCandidate;
    if Opens(env, run, p) {
      OpeningTracksLinks(env, b, seen, run, book, p);
    } else {
      OtherTracksLinks(env, b, run, book, p);
    }
  }

  lemma NextIsLater(b: Book, seen: seq<ProcessedPoint>, book: Book, p: ProcessedPoint)
    requires ClockFits(book) && Next(book, p) && book.accepted == b.accepted + seen
    ensures forall i :: 0 <= i < |b.accepted| ==> b.accepted[i].recordedAt < p.recordedAt
    ensures forall i :: 0 <= i < |seen| ==> seen[i].recordedAt < p.recordedAt
    ensures p.IsUsable()
    ensures book.tracker.st.state == MotionCandidate ==> book.tracker.st.candidateStartedAt.value < p.recordedAt
  {
    forall i | 0 <= i < |b.accepted| ensures b.accepted[i].recordedAt < p.recordedAt {
      assert b.accepted[i] == book.accepted[i];
    }
    forall i | 0 <= i < |seen| ensures seen[i].recordedAt < p.recordedAt {
      assert seen[i] == book.accepted[|b.accepted| + i];
    }
  }

  // ---- a whole batch ----

  // A batch of points, each of which may be entered after the ones before it.
  ghost predicate Arrives(b: Book, points: seq<ProcessedPoint>) {
    && (forall i :: 0 <= i < |points| ==> points[i].IsUsable() && points[i].recordedAt != 0)
    && (forall i, j :: 0 <= i < j < |points| ==>
          points[i].recordedAt < points[j].recordedAt && points[i].eventId != points[j].eventId)
    && (forall i, j :: 0 <= i < |b.accepted| && 0 <= j < |points| ==>
          b.accepted[i].recordedAt < points[j].recordedAt && b.accepted[i].eventId != points[j].eventId)
  }

  lemma ArrivingIsNext(b: Book, points: seq<ProcessedPoint>, book: Book)
    requires Arrives(b, points) && points != [] && book.accepted == b.accepted + points[..|points| - 1]
    ensures Arrives(b, points[..|points| - 1]) && Next(book, points[|points| - 1])
  {
    var front, p := points[..|points| - 1], points[|points| - 1];
    forall i | 0 <= i < |book.accepted|
      ensures book.accepted[i].recordedAt < p.recordedAt && book.accepted[i].eventId != p.eventId
    {
      if i >= |b.accepted| {
        assert book.accepted[i] == points[i - |b.accepted|];
      }
    }
  }

  lemma {:induction false} EnterAllKeepsBooks(env: Env, b: Book, points: seq<ProcessedPoint>)
    requires ClockFits(b) && LinksFit(b) && Arrives(b, points)
    ensures ClockFits(EnterAll(env, b, points)) && LinksFit(EnterAll(env, b, points))
  {
    if points != [] {
      var front, p := points[..|points| - 1], points[|points| - 1];
      var book := EnterAll(env, b, front);
      ArrivingIsNext(b, points, book);
      EnterAllKeepsBooks(env, b, front);
      hide LinksFit, ClockFits, Next, Enter, Arrives;
      EnterKeepsClock(env, book, p);
      if Confirming(env, book.tracker, p) {
        EnterKeepsLinksOpening(env, book, p);
      } else {
        EnterKeepsLinksOtherwise(env, book, p);
      }
    }
  }

  // What a creation's own points say about the batch: they begin with the first point of the
  // batch since the trip's start, and no point of that trip is earlier.
  ghost predicate CreationFits(seen: seq<ProcessedPoint>, points: seq<TripPoint>, nextId: TripId, c: Command) {
    c.CreateTrip? ==>
      && c.createPoints != [] && c.trip.id < nextId
      && c.backfillSince <= c.createPoints[0].recordedAt
      && c.createPoints[0].tripId == c.trip.id && c.createPoints[0] in points
      && Recorded(seen, c.createPoints[0].recordedAt)
      && (forall i :: 0 <= i < |seen| && c.backfillSince <= seen[i].recordedAt ==>
            c.createPoints[0].recordedAt <= seen[i].recordedAt)
      && (forall i :: 0 <= i < |points| && points[i].tripId == c.trip.id ==>
            c.createPoints[0].recordedAt <= points[i].recordedAt)
  }

  ghost predicate Recorded(points: seq<ProcessedPoint>, at: Time) {
    exists i :: 0 <= i < |points| && points[i].recordedAt == at
  }

  ghost predicate CreationsFit(seen: seq<ProcessedPoint>, points: seq<TripPoint>, nextId: TripId,
                               commands: seq<Command>) {
    && (forall c :: c in commands ==> CreationFits(seen, points, nextId, c))
    && CarriedFit(seen, points, nextId)
  }

  // Every carried point names a known trip and a point of the batch.
  ghost predicate CarriedFit(seen: seq<ProcessedPoint>, points: seq<TripPoint>, nextId: TripId) {
    forall i :: 0 <= i < |points| ==> points[i].tripId < nextId && Recorded(seen, points[i].recordedAt)
  }

  lemma RecordedStays(seen: seq<ProcessedPoint>, p: ProcessedPoint, at: Time)
    requires Recorded(seen, at)
    ensures Recorded(seen + [p], at)
  {
    var i :| 0 <= i < |seen| && seen[i].recordedAt == at;
    assert (seen + [p])[i] == seen[i];
  }

  // A creation still fits when later points are seen and later points are carried.
  lemma CreationStaysFit(seen: seq<ProcessedPoint>, points: seq<TripPoint>, nextId: TripId, c: Command,
                         p: ProcessedPoint, more: seq<TripPoint>, nextId': TripId)
    requires CreationFits(seen, points, nextId, c) && nextId <= nextId'
    requires forall i :: 0 <= i < |seen| ==> seen[i].recordedAt < p.recordedAt
    requires forall k :: 0 <= k < |more| && more[k].tripId < nextId ==> more[k].recordedAt == p.recordedAt
    ensures CreationFits(seen + [p], points + more, nextId', c)
  {
    if c.CreateTrip? {
      RecordedStays(seen, p, c.createPoints[0].recordedAt);
    }
  }

  lemma OtherKeepsCreations(seen: seq<ProcessedPoint>, points: seq<TripPoint>, nextId: TripId, commands: seq<Command>,
                            p: ProcessedPoint, more: seq<TripPoint>, commands': seq<Command>)
    requires CreationsFit(seen, points, nextId, commands)
    requires forall i :: 0 <= i < |seen| ==> seen[i].recordedAt < p.recordedAt
    requires forall k :: 0 <= k < |more| ==> more[k].tripId < nextId && more[k].recordedAt == p.recordedAt
    requires forall c :: c in commands' && c.CreateTrip? ==> c in commands
    ensures CreationsFit(seen + [p], points + more, nextId, commands')
  {
    forall c | c in commands' ensures CreationFits(seen + [p], points + more, nextId, c) {
      if c.CreateTrip? {
        CreationStaysFit(seen, points, nextId, c, p, more, nextId);
      }
    }
    forall i | 0 <= i < |points + more|
      ensures (points + more)[i].tripId < nextId && Recorded(seen + [p], (points + more)[i].recordedAt)
    {
      if i < |points| {
        RecordedStays(seen, p, points[i].recordedAt);
      } else {
        assert (seen + [p])[|seen|] == p;
      }
    }
  }

  ghost predicate Ordered(points: seq<ProcessedPoint>) {
    forall i, j :: 0 <= i < j < |points| ==> points[i].recordedAt < points[j].recordedAt
  }

  // These are the points recorded from this time on, earliest first.
  ghost predicate StartsAt(points: seq<ProcessedPoint>, at: Time, recent: seq<ProcessedPoint>) {
    && recent != []
    && (forall i :: 0 <= i < |points| && at <= points[i].recordedAt ==> recent[0].recordedAt <= points[i].recordedAt)
    && (forall k :: 0 <= k < |recent| ==>
          && at <= recent[k].recordedAt
          && recent[0].recordedAt <= recent[k].recordedAt && Recorded(points, recent[k].recordedAt))
  }

  lemma {:induction false} SinceStarts(points: seq<ProcessedPoint>, at: Time)
    requires Ordered(points) && Since(points, at) != []
    ensures StartsAt(points, at, Since(points, at))
  {
    var recent := Since(points, at);
    forall k | 0 <= k < |recent|
      ensures at <= recent[k].recordedAt && Recorded(points, recent[k].recordedAt)
    {
      assert recent[k] in recent;
    }
    SinceStartsFirst(points, at);
    forall k | 0 <= k < |recent| ensures recent[0].recordedAt <= recent[k].recordedAt {
      var i :| 0 <= i < |points| && points[i].recordedAt == recent[k].recordedAt;
    }
  }

  lemma {:induction false} SinceStartsFirst(points: seq<ProcessedPoint>, at: Time)
    requires Ordered(points) && Since(points, at) != []
    ensures forall i :: 0 <= i < |points| && at <= points[i].recordedAt ==>
              Since(points, at)[0].recordedAt <= points[i].recordedAt
  {
    var front, p := points[..|points| - 1], points[|points| - 1];
    SinceOneMore(front, p, at);
    assert points == front + [p];
    if Since(front, at) != [] {
      SinceStartsFirst(front, at);
      assert Since(points, at)[0] == Since(front, at)[0];
      assert Since(front, at)[0] in Since(front, at);
    } else {
      assert forall q :: q in front ==> (q.recordedAt >= at <==> q in Since(front, at));
    }
  }

  lemma NewCreationFits(env: Env, seen: seq<ProcessedPoint>, points: seq<TripPoint>, run: Run, p: ProcessedPoint)
    requires run.st.candidateStartedAt.Some? && run.st.candidateStart.Some?
    requires run.candidatePoints == TripPointsOf(Since(seen, run.st.candidateStartedAt.value), 0)
    requires run.st.candidateStartedAt.value <= p.recordedAt
    requires Ordered(seen + [p])
    requires CreationsFit(seen, points, run.nextId, run.commands)
    ensures
      var create := Creation(env, run, p);
      CreationsFit(seen + [p], points + create.Points(), run.nextId + 1, run.commands + [create])
  {
    hide Ordered, CreationsFit, TripPointsOf, Since;
    CreationIs(env, seen, run, p);
    NewCreationStarts(seen, points, run.nextId, run.commands, p, Creation(env, run, p));
  }

  lemma NewCreationStarts(seen: seq<ProcessedPoint>, points: seq<TripPoint>, id: TripId, commands: seq<Command>,
                          p: ProcessedPoint, create: Command)
    requires create.CreateTrip? && create.trip.id == id
    requires Since(seen + [p], create.backfillSince) != []
    requires create.createPoints == TripPointsOf(Since(seen + [p], create.backfillSince), id)
    requires Ordered(seen + [p]) && CreationsFit(seen, points, id, commands)
    ensures CreationsFit(seen + [p], points + create.createPoints, id + 1, commands + [create])
  {
    hide Ordered, Since, TripPointsOf, CreationFits, StartsAt, CarriedFit;
    SinceStarts(seen + [p], create.backfillSince);
    RecentFits(seen, seen + [p], Since(seen + [p], create.backfillSince), points, create);
    OneMoreCreation(seen, points, id, commands, p, create);
  }

  lemma OneMoreCreation(seen: seq<ProcessedPoint>, points: seq<TripPoint>, id: TripId, commands: seq<Command>,
                        p: ProcessedPoint, create: Command)
    requires create.CreateTrip? && create.trip.id == id
    requires CreationsFit(seen, points, id, commands) && Ordered(seen + [p])
    requires CreationFits(seen + [p], points + create.createPoints, id + 1, create)
    requires forall k :: 0 <= k < |create.createPoints| ==>
               create.createPoints[k].tripId == id && Recorded(seen + [p], create.createPoints[k].recordedAt)
    ensures CreationsFit(seen + [p], points + create.createPoints, id + 1, commands + [create])
  {
    var all, more := seen + [p], create.createPoints;
    assert all[|seen|] == p;
    forall i | 0 <= i < |seen| ensures seen[i].recordedAt < p.recordedAt {
      assert all[i] == seen[i];
    }
    hide Ordered, CreationFits;
    forall c | c in commands ensures CreationFits(all, points + more, id + 1, c) {
      CreationStaysFit(seen, points, id, c, p, more, id + 1);
    }
    forall i | 0 <= i < |points + more|
      ensures (points + more)[i].tripId < id + 1 && Recorded(all, (points + more)[i].recordedAt)
    {
      if i < |points| {
        RecordedStays(seen, p, points[i].recordedAt);
      }
    }
  }

  lemma CreationIs(env: Env, seen: seq<ProcessedPoint>, run: Run, p: ProcessedPoint)
    requires run.st.candidateStartedAt.Some? && run.st.candidateStart.Some?
    requires run.candidatePoints == TripPointsOf(Since(seen, run.st.candidateStartedAt.value), 0)
    requires run.st.candidateStartedAt.value <= p.recordedAt
    ensures
      var create, at := Creation(env, run, p), run.st.candidateStartedAt.value;
      && create.CreateTrip? && create.trip.id == run.nextId && create.backfillSince == at
      && create.createPoints == create.Points()
      && create.createPoints == TripPointsOf(Since(seen + [p], at), run.nextId)
      && Since(seen + [p], at) != []
  {
    var at := run.st.candidateStartedAt.value;
    SinceOneMore(seen, p, at);
    hide Since;
    TripPointsAppend(Since(seen, at), [p], 0);
    AssignedPoints(Since(seen, at) + [p], run.nextId);
  }

  lemma RecentFits(seen: seq<ProcessedPoint>, all: seq<ProcessedPoint>, recent: seq<ProcessedPoint>,
                   points: seq<TripPoint>, c: Command)
    requires c.CreateTrip? && recent != [] && c.createPoints == TripPointsOf(recent, c.trip.id)
    requires StartsAt(all, c.backfillSince, recent)
    requires CarriedFit(seen, points, c.trip.id)
    ensures CreationFits(all, points + c.createPoints, c.trip.id + 1, c)
    ensures forall k :: 0 <= k < |c.createPoints| ==>
              c.createPoints[k].tripId == c.trip.id && Recorded(all, c.createPoints[k].recordedAt)
  {
    var more := c.createPoints;
    assert (points + more)[|points|] == more[0];
    forall i | 0 <= i < |points + more| && (points + more)[i].tripId == c.trip.id
      ensures more[0].recordedAt <= (points + more)[i].recordedAt
    {
      assert (points + more)[i] == more[i - |points|];
    }
  }

  lemma NothingSeenYet(env: Env, b: Book)
    requires b.tracker.st.WellFormed()
    ensures Valid(env, FreshRun(b.tracker.st, b.tracker.nextId))
    ensures Tracks(env, b, [], FreshRun(b.tracker.st, b.tracker.nextId), b)
  {
    assert b.accepted + [] == b.accepted;
  }

  // The run's buffers and the book agree after every point of the batch.
  lemma {:induction false} RunTracks(env: Env, b: Book, points: seq<ProcessedPoint>)
    requires ClockFits(b) && LinksFit(b) && Arrives(b, points)
    ensures
      Tracks(env, b, points, ConsumeAll(env, FreshRun(b.tracker.st, b.tracker.nextId), points),
          EnterAll(env, b, points))
  {
    if points == [] {
      NothingSeenYet(env, b);
    } else {
      var front, p := points[..|points| - 1], points[|points| - 1];
      var start, book := FreshRun(b.tracker.st, b.tracker.nextId), EnterAll(env, b, front);
      assert Valid(env, start) && front + [p] == points;
      hide *;
      ArrivingIsNext(b, points, book);
      RunTracks(env, b, front);
      EnterAllKeepsBooks(env, b, front);
      StepTracks(env, b, front, ConsumeAll(env, start, front), book, p);
      ConsumeAllLast(env, start, front, p);
      EnterAllLast(env, b, front, p);
    }
  }

  // What the run says about its creations, once its held-back update is written too.
  ghost predicate RunCreationsFit(seen: seq<ProcessedPoint>, run: Run)
    requires BuffersFit(run)
  {
    CreationsFit(seen, PointsOf(Flush(run).commands), run.nextId, run.commands)
  }

  lemma ArrivingIsOrdered(b: Book, points: seq<ProcessedPoint>)
    requires Arrives(b, points)
    ensures Ordered(points)
  {
  }

  lemma StepKeepsCreations(env: Env, b: Book, seen: seq<ProcessedPoint>, run: Run, p: ProcessedPoint)
    requires Valid(env, run) && p.IsUsable() && Valid(env, AfterPoint(env, run, p))
    requires RunCreationsFit(seen, run) && HoldsCandidate(b.accepted, seen, run)
    requires Ordered(seen + [p])
    requires run.st.state == MotionCandidate ==> run.st.candidateStartedAt.value < p.recordedAt
    requires run.st.activeTripId.Some? ==> run.st.activeTripId.value < run.nextId
    ensures RunCreationsFit(seen + [p], AfterPoint(env, run, p))
  {
    if Opens(env, run, p) {
      OpeningKeepsCreations(env, b, seen, run, p);
    } else {
      StepCarries(env, b.accepted, run, p);
      CreditedIsKnown(env, run.st, p, run.nextId);
      SameSupply(env, run, p);
      assert forall i :: 0 <= i < |seen| ==> seen[i] == (seen + [p])[i];
      assert (seen + [p])[|seen|] == p;
      hide AfterPoint, CreditPoints, PointsOf, AllOldPoints, Flush, CreationsFit, HoldsCandidate, Valid, Opens;
      OtherKeepsCreations(seen, PointsOf(Flush(run).commands), run.nextId, run.commands, p,
                          CreditPoints(env, run.st, p), AfterPoint(env, run, p).commands);
    }
  }

  lemma CreditedIsKnown(env: Env, st: DetectionState, p: ProcessedPoint, nextId: TripId)
    requires st.WellFormed() && (st.activeTripId.Some? ==> st.activeTripId.value < nextId)
    ensures forall k :: 0 <= k < |CreditPoints(env, st, p)| ==>
              CreditPoints(env, st, p)[k].tripId < nextId && CreditPoints(env, st, p)[k].recordedAt == p.recordedAt
  {
  }

  lemma SameSupply(env: Env, run: Run, p: ProcessedPoint)
    requires Valid(env, run) && p.IsUsable() && !Opens(env, run, p)
    ensures AfterPoint(env, run, p).nextId == run.nextId
  {
    hide Filter, NewTrip, Assign, Confirms;
  }

  lemma OpeningKeepsCreations(env: Env, b: Book, seen: seq<ProcessedPoint>, run: Run, p: ProcessedPoint)
    requires Valid(env, run) && p.IsUsable() && Opens(env, run, p)
    requires RunCreationsFit(seen, run) && HoldsCandidate(b.accepted, seen, run)
    requires Ordered(seen + [p]) && run.st.candidateStartedAt.value < p.recordedAt
    ensures BuffersFit(AfterPoint(env, run, p)) && RunCreationsFit(seen + [p], AfterPoint(env, run, p))
  {
    var after := AfterPoint(env, run, p);
    ConfirmingEmits(env, run, p);
    assert after.nextId == run.nextId + 1 by { hide Filter, NewTrip, Assign, Confirms; }
    assert Flush(run).commands == run.commands && Flush(after).commands == after.commands;
    hide AfterPoint, Valid, Opens, PointsOf, CreationsFit, Ordered, Flush, Since, TripPointsOf;
    NewCreationFits(env, seen, PointsOf(run.commands), run, p);
    hide Creation;
    PointsOneMore(run.commands, Creation(env, run, p));
  }

  lemma NextKeepsCreations(env: Env, b: Book, seen: seq<ProcessedPoint>, run: Run, book: Book, p: ProcessedPoint)
    requires Valid(env, run) && Tracks(env, b, seen, run, book) && ClockFits(book) && LinksFit(book) && Next(book, p)
    requires RunCreationsFit(seen, run) && Ordered(seen + [p])
    ensures Valid(env, Consume(env, run, p)) && RunCreationsFit(seen + [p], Consume(env, run, p))
  {
    hide RunCreationsFit, HoldsCandidate, AfterPoint, View, Ordered, LinkAll, Valid, LinkFits, BackfilledExactly;
    ConsumeStaysValid(env, run, p);
    ViewState(env, b.tracker, run);
    NextIsLater(b, seen, book, p);
    hide ClockFits, Next;
    StepKeepsCreations(env, b, seen, run, p);
  }

  lemma {:induction false} RunKeepsCreations(env: Env, b: Book, points: seq<ProcessedPoint>)
    requires ClockFits(b) && LinksFit(b) && Arrives(b, points)
    ensures RunCreationsFit(points, ConsumeAll(env, FreshRun(b.tracker.st, b.tracker.nextId), points))
  {
    if points != [] {
      var front, p := points[..|points| - 1], points[|points| - 1];
      var start, book := FreshRun(b.tracker.st, b.tracker.nextId), EnterAll(env, b, front);
      assert Valid(env, start) && front + [p] == points;
      hide *;
      ArrivingIsNext(b, points, book);
      ArrivingIsOrdered(b, points);
      RunKeepsCreations(env, b, front);
      RunTracks(env, b, front);
      EnterAllKeepsBooks(env, b, front);
      NextKeepsCreations(env, b, front, ConsumeAll(env, start, front), book, p);
      ConsumeAllLast(env, start, front, p);
    }
  }
}
