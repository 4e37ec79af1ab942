// What the trip commands of any number of batches look like: trips never overlap, each is
// created before it is updated, completed at most once, and nothing follows its completion;
// and every point credited to a trip is carried by exactly one update.
module TripGrammar {
  import opened Domain
  import opened TripDetection
  import opened TripRefinement

  // The open trip, if any, and the next identifier to be given out.
  datatype Lane = Lane(open: Option<TripId>, next: TripId)

  ghost predicate Allowed(lane: Lane, c: Command) {
    match c
    case CreateTrip(trip, since, points) =>
      lane.open.None? && trip.id == lane.next && since == trip.startedAt && points != []
    case UpdateTrip(id, _, _, _, _) => lane.open == Some(id)
    case CompleteTrip(id, _, _) => lane.open == Some(id)
  }

  function Advance(lane: Lane, c: Command): Lane {
    match c
    case CreateTrip(trip, _, _) => Lane(Some(trip.id), trip.id + 1)
    case UpdateTrip(_, _, _, _, _) => lane
    case CompleteTrip(_, _, _) => lane.(open := None)
  }

  function AdvanceAll(lane: Lane, commands: seq<Command>): Lane {
    if commands == [] then lane
    else Advance(AdvanceAll(lane, commands[..|commands| - 1]), commands[|commands| - 1])
  }

  ghost predicate Follows(lane: Lane, commands: seq<Command>) {
    commands != [] ==>
      && Follows(lane, commands[..|commands| - 1])
      && Allowed(AdvanceAll(lane, commands[..|commands| - 1]), commands[|commands| - 1])
  }

  lemma FollowsOneMore(lane: Lane, commands: seq<Command>, c: Command)
    requires Follows(lane, commands) && Allowed(AdvanceAll(lane, commands), c)
    ensures Follows(lane, commands + [c])
    ensures AdvanceAll(lane, commands + [c]) == Advance(AdvanceAll(lane, commands), c)
  {
    assert (commands + [c])[..|commands + [c]| - 1] == commands;
  }

  lemma {:induction false} FollowsAppend(lane: Lane, a: seq<Command>, b: seq<Command>)
    requires Follows(lane, a) && Follows(AdvanceAll(lane, a), b)
    ensures Follows(lane, a + b)
    ensures AdvanceAll(lane, a + b) == AdvanceAll(AdvanceAll(lane, a), b)
  {
    if b == [] {
      assert a + b == a;
    } else {
      var rest := b[..|b| - 1];
      assert (a + b)[..|a + b| - 1] == a + rest;
      FollowsAppend(lane, a, rest);
    }
  }

  // The lane a run is in once its held-back update is written too.
  ghost predicate OnLane(env: Env, lane: Lane, run: Run)
    requires Valid(env, run)
  {
    && Follows(lane, Flush(run).commands)
    && AdvanceAll(lane, Flush(run).commands) == Lane(run.st.activeTripId, run.nextId)
  }

  lemma BufferStaysOnLane(env: Env, lane: Lane, run: Run, p: ProcessedPoint)
    requires Valid(env, run) && run.st.state == TripActive && p.filtered.Some?
    requires Valid(env, BufferActive(run, p))
    requires OnLane(env, lane, run)
    ensures OnLane(env, lane, BufferActive(run, p))
  {
    if run.activePoints != [] {
      assert (run.commands + [PendingUpdate(run)])[..|run.commands|] == run.commands;
    }
    FollowsOneMore(lane, run.commands, PendingUpdate(BufferActive(run, p)));
  }

  lemma CompletionStaysOnLane(env: Env, lane: Lane, run: Run, c: Command, done: Run)
    requires Valid(env, run) && OnLane(env, lane, run) && run.st.activeTripId.Some?
    requires c.CompleteTrip? && c.completedId == run.st.activeTripId.value
    requires Valid(env, done) && done.activePoints == [] && done.commands == Flush(run).commands + [c]
    requires done.st.activeTripId.None? && done.nextId == run.nextId
    ensures OnLane(env, lane, done)
  {
    FollowsOneMore(lane, Flush(run).commands, c);
  }

  lemma ActiveStaysOnLane(env: Env, lane: Lane, run: Run, p: ProcessedPoint)
    requires Valid(env, run) && p.filtered.Some? && run.st.state == TripActive
    requires Valid(env, AfterPoint(env, run, p))
    requires OnLane(env, lane, run)
    ensures OnLane(env, lane, AfterPoint(env, run, p))
  {
    hide Filter, Follows, AdvanceAll;
    if env.GapExceeded(run.st, p) {
      CompletionStaysOnLane(env, lane, run,
        CompleteTrip(run.st.activeTripId.value, run.st.lastProcessedAt.value, run.st.lastPoint.value),
        AfterPoint(env, run, p));
    } else if !p.isStationary {
      BufferStaysOnLane(env, lane, run, p);
    }
  }

  lemma StopStaysOnLane(env: Env, lane: Lane, run: Run, p: ProcessedPoint)
    requires Valid(env, run) && p.filtered.Some? && run.st.state == StopCandidate
    requires Valid(env, AfterPoint(env, run, p))
    requires OnLane(env, lane, run)
    ensures OnLane(env, lane, AfterPoint(env, run, p))
  {
    hide Filter, Follows, AdvanceAll;
    var after := AfterPoint(env, run, p);
    if after.st.state == TripActive {
      var resumed := run.(st := run.st.(state := TripActive, stopStartedAt := None, stopCenter := None));
      BufferStaysOnLane(env, lane, resumed, p);
    } else if after.st.activeTripId.None? {
      CompletionStaysOnLane(env, lane, run,
        CompleteTrip(run.st.activeTripId.value, run.st.stopStartedAt.value, run.st.stopCenter.value), after);
    }
  }

  lemma OpeningStaysOnLane(env: Env, lane: Lane, run: Run, p: ProcessedPoint)
    requires Valid(env, run) && p.filtered.Some? && run.st.activeTripId.None?
    requires Valid(env, AfterPoint(env, run, p))
    requires OnLane(env, lane, run)
    ensures OnLane(env, lane, AfterPoint(env, run, p))
  {
    hide Filter, Follows, AdvanceAll;
    var after := AfterPoint(env, run, p);
    if after.st.activeTripId.Some? {
      var create := CreateTrip(NewTrip(env, Counted(env, run.st, p), p, run.nextId), run.st.candidateStartedAt.value,
                               Assign(run.candidatePoints + [Unassigned(p)], run.nextId));
      assert after.commands == run.commands + [create];
      FollowsOneMore(lane, run.commands, create);
    }
  }

  lemma {:induction false} RunStaysOnLane(env: Env, st: DetectionState, nextId: TripId, points: seq<ProcessedPoint>)
    requires st.WellFormed()
    ensures OnLane(env, Lane(st.activeTripId, nextId), ConsumeAll(env, FreshRun(st, nextId), points))
  {
    var start, lane := FreshRun(st, nextId), Lane(st.activeTripId, nextId);
    if points != [] {
      var front, p := points[..|points| - 1], points[|points| - 1];
      RunStaysOnLane(env, st, nextId, front);
      var run := ConsumeAll(env, start, front);
      ConsumeStaysValid(env, run, p);
      hide AfterPoint, OnLane;
      if p.IsUsable() {
        match run.st.state
        case TripActive => ActiveStaysOnLane(env, lane, run, p);
        case StopCandidate => StopStaysOnLane(env, lane, run, p);
        case _ => OpeningStaysOnLane(env, lane, run, p);
      }
    }
  }

  // One batch continues the lane left by the batches before it.
  lemma {:induction false} BatchFollows(env: Env, st: DetectionState, nextId: TripId, points: seq<ProcessedPoint>)
    requires st.WellFormed()
    ensures
      var outcome := Outcome(env, st, nextId, points);
      && outcome.newState.WellFormed()
      && Follows(Lane(st.activeTripId, nextId), outcome.commands)
      && AdvanceAll(Lane(st.activeTripId, nextId), outcome.commands)
         == Lane(outcome.newState.activeTripId, outcome.nextId)
  {
    RunStaysOnLane(env, st, nextId, points);
  }

  datatype BatchInput = BatchInput(env: Env, points: seq<ProcessedPoint>)

  datatype History = History(st: DetectionState, commands: seq<Command>, nextId: TripId)

  // Any number of batches from a pair that was never seen before.
  function AfterBatches(batches: seq<BatchInput>): (h: History)
    ensures h.st.WellFormed()
  {
    if batches == [] then History(INITIAL_STATE, [], 1)
    else
      var before := AfterBatches(batches[..|batches| - 1]);
      var batch := batches[|batches| - 1];
      BatchFollows(batch.env, before.st, before.nextId, batch.points);
      var outcome := Outcome(batch.env, before.st, before.nextId, batch.points);
      History(outcome.newState, before.commands + outcome.commands, outcome.nextId)
  }

  lemma {:induction false} HistoryFollows(batches: seq<BatchInput>)
    ensures Follows(Lane(None, 1), AfterBatches(batches).commands)
    ensures AdvanceAll(Lane(None, 1), AfterBatches(batches).commands)
            == Lane(AfterBatches(batches).st.activeTripId, AfterBatches(batches).nextId)
  {
    if batches != [] {
      hide Outcome;
      var before := AfterBatches(batches[..|batches| - 1]);
      var batch := batches[|batches| - 1];
      HistoryFollows(batches[..|batches| - 1]);
      BatchFollows(batch.env, before.st, before.nextId, batch.points);
      FollowsAppend(Lane(None, 1), before.commands,
                    Outcome(batch.env, before.st, before.nextId, batch.points).commands);
    }
  }

  // The commands about one trip.
  function About(id: TripId, commands: seq<Command>): seq<Command> {
    Filter((c: Command) => c.TripOf() == id, commands)
  }

  // A creation, then updates, then at most one completion, which is last.
  ghost predicate Story(s: seq<Command>) {
    s != [] ==>
      && s[0].CreateTrip?
      && (forall i :: 0 < i < |s| - 1 ==> s[i].UpdateTrip?)
      && (|s| > 1 ==> !s[|s| - 1].CreateTrip?)
  }

  ghost predicate Unfinished(s: seq<Command>) {
    s != [] && !s[|s| - 1].CompleteTrip?
  }

  // The story of every trip is well told, and is unfinished only for the open one.
  lemma {:induction false} StoryOf(commands: seq<Command>, id: TripId)
    requires Follows(Lane(None, 1), commands)
    ensures Story(About(id, commands))
    ensures
      var lane := AdvanceAll(Lane(None, 1), commands);
      && (Unfinished(About(id, commands)) <==> lane.open == Some(id))
      && (id >= lane.next ==> About(id, commands) == [])
      && (lane.open.Some? ==> lane.open.value < lane.next)
  {
    if commands != [] {
      StoryOf(commands[..|commands| - 1], id);
    }
  }

  // Trip boundaries alternate: opened, closed, opened, closed, each closing the trip that
  // was opened just before it.
  ghost predicate Alternate(bs: seq<Boundary>) {
    forall k :: 0 <= k < |bs| ==> Fits(bs, k)
  }

  ghost predicate Fits(bs: seq<Boundary>, k: int)
    requires 0 <= k < |bs|
  {
    if k % 2 == 0 then bs[k].Opened?
    else bs[k].Closed? && bs[k - 1].Opened? && bs[k].id == bs[k - 1].trip.id
  }

  lemma AlternateOneMore(bs: seq<Boundary>, b: Boundary)
    requires Alternate(bs)
    requires if |bs| % 2 == 0 then b.Opened?
             else b.Closed? && bs[|bs| - 1].Opened? && b.id == bs[|bs| - 1].trip.id
    ensures Alternate(bs + [b])
  {
    forall k | 0 <= k < |bs + [b]| ensures Fits(bs + [b], k) {
      if k < |bs| {
        assert Fits(bs, k);
      }
    }
  }

  lemma {:induction false} BoundariesAlternate(commands: seq<Command>)
    requires Follows(Lane(None, 1), commands)
    ensures Alternate(Boundaries(commands))
    ensures
      var bs, open := Boundaries(commands), AdvanceAll(Lane(None, 1), commands).open;
      if open.Some? then |bs| % 2 == 1 && bs[|bs| - 1].Opened? && bs[|bs| - 1].trip.id == open.value
      else |bs| % 2 == 0
  {
    if commands != [] {
      var front, c := commands[..|commands| - 1], commands[|commands| - 1];
      BoundariesAlternate(front);
      if c.UpdateTrip? {
        assert Boundaries(commands) == Boundaries(front);
      } else {
        AlternateOneMore(Boundaries(front), BoundaryOf(c)[0]);
        assert BoundaryOf(c) == [BoundaryOf(c)[0]];
      }
    }
  }

  // However the points arrive and however they are batched, the commands sent to storage
  // describe whole trips in order.
  lemma {:induction false} TripsAreOrderly(batches: seq<BatchInput>)
    ensures forall id: TripId :: Story(About(id, AfterBatches(batches).commands))
    ensures Alternate(Boundaries(AfterBatches(batches).commands))
  {
    HistoryFollows(batches);
    forall id: TripId ensures Story(About(id, AfterBatches(batches).commands)) {
      StoryOf(AfterBatches(batches).commands, id);
    }
    BoundariesAlternate(AfterBatches(batches).commands);
  }

  // A point counted towards the open trip.
  datatype Credit = Credit(tripId: TripId, point: ProcessedPoint)

  function CreditOf(env: Env, st: DetectionState, p: ProcessedPoint): seq<Credit>
    requires st.WellFormed()
  {
    if !p.IsUsable() || p.isStationary then []
    else if st.state == TripActive && !env.GapExceeded(st, p) then
      [Credit(st.activeTripId.value, p)]
    else if st.state == StopCandidate && env.dist(st.stopCenter.value, p.filtered.value) > env.cfg.stopRadiusM then
      [Credit(st.activeTripId.value, p)]
    else []
  }

  // The points of a batch that count towards a trip, in order.
  function Credits(env: Env, st: DetectionState, nextId: TripId, points: seq<ProcessedPoint>): seq<Credit>
    requires st.WellFormed()
  {
    if points == [] then []
    else
      var front := points[..|points| - 1];
      Credits(env, st, nextId, front) +
      CreditOf(env, ConsumeAll(env, FreshRun(st, nextId), front).st, points[|points| - 1])
  }

  function TotalCredit(credits: seq<Credit>): real {
    if credits == [] then 0.0
    else TotalCredit(credits[..|credits| - 1]) + credits[|credits| - 1].point.distanceDeltaM
  }

  // The update u carries exactly these points: same trip, same order, same number, their
  // summed distance, and the position of the last of them.
  ghost predicate Settles(u: Command, credits: seq<Credit>) {
    && u.UpdateTrip? && credits != []
    && u.deltaPointsCount == |u.updatePoints| == |credits|
    && u.deltaDistanceM == TotalCredit(credits)
    && (forall k :: 0 <= k < |credits| ==>
          && credits[k].tripId == u.updatedId
          && u.updatePoints[k] == TripPoint(u.updatedId, credits[k].point.eventId, credits[k].point.recordedAt))
    && credits[|credits| - 1].point.filtered.Some?
    && u.last == Some(LastFixOf(credits[|credits| - 1].point))
  }

  // The updates among the commands cut the credits into consecutive pieces, none left over.
  ghost predicate Accounts(commands: seq<Command>, credits: seq<Credit>) {
    if commands == [] then credits == []
    else
      var front, c := commands[..|commands| - 1], commands[|commands| - 1];
      if c.UpdateTrip? then
        var n := |credits| - |c.updatePoints|;
        0 <= n && Settles(c, credits[n..]) && Accounts(front, credits[..n])
      else Accounts(front, credits)
  }

  lemma AccountsUpdate(commands: seq<Command>, credits: seq<Credit>, u: Command, more: seq<Credit>)
    requires Accounts(commands, credits) && Settles(u, more)
    ensures Accounts(commands + [u], credits + more)
  {
    assert (commands + [u])[..|commands + [u]| - 1] == commands;
    assert (credits + more)[|credits|..] == more && (credits + more)[..|credits|] == credits;
  }

  lemma AccountsOther(commands: seq<Command>, credits: seq<Credit>, c: Command)
    requires Accounts(commands, credits) && !c.UpdateTrip?
    ensures Accounts(commands + [c], credits)
  {
    assert (commands + [c])[..|commands + [c]| - 1] == commands;
  }

  lemma PendingSettlesOneMore(env: Env, run: Run, p: ProcessedPoint, held: seq<Credit>)
    requires Valid(env, run) && run.st.state == TripActive && p.filtered.Some?
    requires |held| == |run.activePoints| && (held != [] ==> Settles(PendingUpdate(run), held))
    ensures Settles(PendingUpdate(BufferActive(run, p)), held + [Credit(run.st.activeTripId.value, p)])
  {
    var all := held + [Credit(run.st.activeTripId.value, p)];
    assert all[..|all| - 1] == held;
  }

  lemma BufferAccounts(env: Env, run: Run, p: ProcessedPoint, credits: seq<Credit>)
    requires Valid(env, run) && run.st.state == TripActive && p.filtered.Some?
    requires Valid(env, BufferActive(run, p))
    requires Accounts(Flush(run).commands, credits)
    ensures Accounts(Flush(BufferActive(run, p)).commands, credits + [Credit(run.st.activeTripId.value, p)])
  {
    var credit := Credit(run.st.activeTripId.value, p);
    var n := |credits| - |run.activePoints|;
    if run.activePoints != [] {
      assert (run.commands + [PendingUpdate(run)])[..|run.commands|] == run.commands;
    }
    assert Accounts(run.commands, credits[..n]) by {
      assert run.activePoints == [] ==> credits[..n] == credits;
    }
    PendingSettlesOneMore(env, run, p, credits[n..]);
    hide Settles, Accounts;
    AccountsUpdate(run.commands, credits[..n], PendingUpdate(BufferActive(run, p)), credits[n..] + [credit]);
    assert credits[..n] + (credits[n..] + [credit]) == credits + [credit];
  }

  lemma ActiveAccounts(env: Env, run: Run, p: ProcessedPoint, credits: seq<Credit>)
    requires Valid(env, run) && p.IsUsable() && run.st.state == TripActive
    requires Valid(env, AfterPoint(env, run, p))
    requires Accounts(Flush(run).commands, credits)
    ensures Accounts(Flush(AfterPoint(env, run, p)).commands, credits + CreditOf(env, run.st, p))
  {
    hide Filter, Accounts;
    assert credits + [] == credits;
    if env.GapExceeded(run.st, p) {
      AccountsOther(Flush(run).commands, credits,
        CompleteTrip(run.st.activeTripId.value, run.st.lastProcessedAt.value, run.st.lastPoint.value));
    } else if !p.isStationary {
      BufferAccounts(env, run, p, credits);
    }
  }

  lemma StopAccounts(env: Env, run: Run, p: ProcessedPoint, credits: seq<Credit>)
    requires Valid(env, run) && p.IsUsable() && run.st.state == StopCandidate
    requires Valid(env, AfterPoint(env, run, p))
    requires Accounts(Flush(run).commands, credits)
    ensures Accounts(Flush(AfterPoint(env, run, p)).commands, credits + CreditOf(env, run.st, p))
  {
    hide Filter, Accounts;
    assert credits + [] == credits;
    var after := AfterPoint(env, run, p);
    if after.st.state == TripActive {
      var resumed := run.(st := run.st.(state := TripActive, stopStartedAt := None, stopCenter := None));
      BufferAccounts(env, resumed, p, credits);
    } else if after.st.activeTripId.None? {
      AccountsOther(run.commands, credits,
        CompleteTrip(run.st.activeTripId.value, run.st.stopStartedAt.value, run.st.stopCenter.value));
    }
  }

  lemma ClosedAccounts(env: Env, run: Run, p: ProcessedPoint, credits: seq<Credit>)
    requires Valid(env, run) && p.IsUsable() && run.st.activeTripId.None?
    requires Valid(env, AfterPoint(env, run, p))
    requires Accounts(Flush(run).commands, credits)
    ensures Accounts(Flush(AfterPoint(env, run, p)).commands, credits + CreditOf(env, run.st, p))
  {
    hide Filter, Accounts;
    var after := AfterPoint(env, run, p);
    assert credits + [] == credits;
    if after.st.activeTripId.Some? {
      var create := after.commands[|run.commands|];
      assert after.commands == run.commands + [create];
      AccountsOther(run.commands, credits, create);
    }
  }

  lemma {:induction false} RunAccounts(env: Env, st: DetectionState, nextId: TripId, points: seq<ProcessedPoint>)
    requires st.WellFormed()
    ensures Accounts(Flush(ConsumeAll(env, FreshRun(st, nextId), points)).commands,
                     Credits(env, st, nextId, points))
  {
    var start := FreshRun(st, nextId);
    if points == [] {
    } else {
      var front, p := points[..|points| - 1], points[|points| - 1];
      RunAccounts(env, st, nextId, front);
      var run, credits := ConsumeAll(env, start, front), Credits(env, st, nextId, front);
      ConsumeStaysValid(env, run, p);
      hide AfterPoint, Accounts;
      if p.IsUsable() {
        match run.st.state
        case TripActive => ActiveAccounts(env, run, p, credits);
        case StopCandidate => StopAccounts(env, run, p, credits);
        case _ => ClosedAccounts(env, run, p, credits);
      } else {
        assert credits + [] == credits;
      }
    }
  }

  // Conservation: every credited point of the batch lands in exactly one update, and each
  // update's count and distance are those of its points.
  lemma {:induction false} CreditsAreConserved(env: Env, st: DetectionState, nextId: TripId,
                                               points: seq<ProcessedPoint>)
    requires st.WellFormed()
    ensures Accounts(Outcome(env, st, nextId, points).commands, Credits(env, st, nextId, points))
  {
    RunAccounts(env, st, nextId, points);
  }
}
