// No trip row ever claims more distance than the vehicle ceiling allows in the time between
// its start and one of its linked points.
module TripSpeed {
  // Credited distances of the whole stored track are measured over intervals that never
  // overlap, across any number of cycles.

  import opened Domain
  import opened Sorting
  import opened Noise
  import opened NoiseOutput
  import opened NoiseDistance
  import opened NoiseMovement
  import opened TripDetection
  import opened TripRows
  import opened TripRefinement
  import opened TripGrammar
  import opened Storage
  import opened Ledger
  import opened LedgerRefinement
  import opened SavedCycle
  import opened TripRecords
  import opened TrackingJob
  import opened JobRuns

  // ---- the whole stored track ----

  // The distance of the k-th point of the track is that from the earlier anchor anchors[k].
  ghost predicate CreditedFrom(s: Setup, track: seq<ProcessedPoint>, anchors: seq<nat>, k: nat)
    requires |anchors| == |track| && k < |track|
  {
    && 0.0 <= track[k].distanceDeltaM
    && (track[k].distanceDeltaM > 0.0 ==>
          && Anchors(track[k]) && anchors[k] < k
          && track[k].distanceDeltaM == s.dist(track[anchors[k]].raw, track[k].raw))
  }

  ghost predicate TrackFits(s: Setup, track: seq<ProcessedPoint>, anchors: seq<nat>) {
    && |anchors| == |track|
    && (forall k :: 0 <= k < |track| ==> CreditedFrom(s, track, anchors, k))
    && (forall i, k :: 0 <= i < k < |track| && track[i].distanceDeltaM > 0.0 && track[k].distanceDeltaM > 0.0 ==>
          i <= anchors[k])
  }

  function Shifted(anchors: seq<nat>, offset: nat): seq<nat> {
    seq(|anchors|, k requires 0 <= k < |anchors| => anchors[k] + offset)
  }

  lemma {:induction false} LastAnchorIsLast(history: seq<ProcessedPoint>, i: nat)
    requires i < |history| && Anchors(history[i])
    ensures i <= LastAnchor(history)
  {
    if i < |history| - 1 && !Anchors(history[|history| - 1]) {
      LastAnchorIsLast(history[..|history| - 1], i);
    }
  }

  // A batch starts measuring no earlier than the last credited point of its history.
  lemma CreditIsBeforeStart(history: seq<ProcessedPoint>, i: nat)
    requires AcceptedOnly(history) == history && i < |history| && Anchors(history[i])
    ensures i <= StartOf(history)
  {
    LastAnchorIsLast(history, i);
    hide AcceptedOnly, LastAnchor;
  }

  lemma JoinedCredit(s: Setup, track: seq<ProcessedPoint>, anchors: seq<nat>, older: nat, history: seq<ProcessedPoint>,
                     accepted: seq<ProcessedPoint>, later: seq<nat>, k: nat)
    requires TrackFits(s, track, anchors) && older <= |track| && history == track[older..]
        && AcceptedOnly(history) == history
    requires CreditsFit(s, history, accepted, later, StartOf(history)) && k < |accepted|
    ensures CreditedFrom(s, track + accepted, anchors + Shifted(later, older), |track| + k)
  {
    hide AcceptedOnly, Anchors, StartOf;
    assert CreditFits(s, history, accepted, later, k);
    if accepted[k].distanceDeltaM > 0.0 {
      assert Track(history, accepted)[later[k]] == (track + accepted)[older + later[k]];
    }
  }

  lemma {:induction false} JoinTracks(s: Setup, track: seq<ProcessedPoint>, anchors: seq<nat>, older: nat,
                                      history: seq<ProcessedPoint>, accepted: seq<ProcessedPoint>, later: seq<nat>)
    requires TrackFits(s, track, anchors) && older <= |track| && history == track[older..]
        && AcceptedOnly(history) == history
    requires CreditsFit(s, history, accepted, later, StartOf(history))
    ensures TrackFits(s, track + accepted, anchors + Shifted(later, older))
  {
    hide AcceptedOnly, Anchors, StartOf;
    var all, more := track + accepted, anchors + Shifted(later, older);
    forall k | 0 <= k < |all| ensures CreditedFrom(s, all, more, k) {
      if k < |track| {
        assert CreditedFrom(s, track, anchors, k);
      } else {
        JoinedCredit(s, track, anchors, older, history, accepted, later, k - |track|);
      }
    }
    forall i, k | 0 <= i < k < |all| && all[i].distanceDeltaM > 0.0 && all[k].distanceDeltaM > 0.0
      ensures i <= more[k]
    {
      if k >= |track| && older <= i < |track| {
        assert CreditedFrom(s, track, anchors, i);
        assert history[i - older] == track[i];
        CreditIsBeforeStart(history, i - older);
      }
    }
  }

  lemma JoinSpeeds(s: Setup, track: seq<ProcessedPoint>, older: nat, history: seq<ProcessedPoint>,
                   accepted: seq<ProcessedPoint>)
    requires SpeedFits(s, track) && older <= |track| && history == track[older..] && AcceptedOnly(history) == history
    requires SpeedFits(s, Track(history, accepted)) && (track != [] ==> older < |track|)
    ensures SpeedFits(s, track + accepted)
  {
    hide AcceptedOnly, WithinSpeed;
    var all, part := track + accepted, Track(history, accepted);
    assert forall i :: older <= i < |all| ==> all[i] == part[i - older];
    forall i | 0 < i < |all| ensures WithinSpeed(s, all[i - 1], all[i]) {
      if i >= |track| && older < i {
        assert WithinSpeed(s, part[i - older - 1], part[i - older]);
      }
    }
  }

  // ---- distance since a credited point ----

  // Distance credited after this time.
  function Covered(points: seq<ProcessedPoint>, at: Time): real {
    if points == [] then 0.0
    else
      var p := points[|points| - 1];
      Covered(points[..|points| - 1], at) + if p.recordedAt > at then p.distanceDeltaM else 0.0
  }

  lemma CoveredOneMore(points: seq<ProcessedPoint>, p: ProcessedPoint, at: Time)
    ensures Covered(points + [p], at) == Covered(points, at) + if p.recordedAt > at then p.distanceDeltaM else 0.0
  {
    assert (points + [p])[..|points|] == points;
  }

  lemma {:induction false} CoveredNothing(points: seq<ProcessedPoint>, at: Time)
    requires forall i :: 0 <= i < |points| ==> points[i].recordedAt <= at
    ensures Covered(points, at) == 0.0
  {
    if points != [] {
      CoveredNothing(points[..|points| - 1], at);
    }
  }

  // The last credited point among the first m, or the i-th point itself.
  function LastCredited(track: seq<ProcessedPoint>, i: nat, m: nat): (k: nat)
    requires i < m <= |track|
    ensures i <= k < m
    decreases m
  {
    if m == i + 1 || track[m - 1].distanceDeltaM > 0.0 then m - 1 else LastCredited(track, i, m - 1)
  }

  lemma {:induction false} LastCreditedIsBehind(s: Setup, track: seq<ProcessedPoint>, anchors: seq<nat>, i: nat,
                                                m: nat, k: nat)
    requires TrackFits(s, track, anchors) && i < m <= k < |track|
    requires track[i].distanceDeltaM > 0.0 && track[k].distanceDeltaM > 0.0
    ensures LastCredited(track, i, m) <= anchors[k]
    decreases m
  {
    hide CreditedFrom;
    if m > i + 1 && track[m - 1].distanceDeltaM <= 0.0 {
      LastCreditedIsBehind(s, track, anchors, i, m - 1, k);
    }
  }

  // From any credited point on, the credited distance stays below the ceiling.
  lemma {:induction false} CoveredIsBounded(s: Setup, track: seq<ProcessedPoint>, anchors: seq<nat>, i: nat, m: nat)
    requires IsMetric(s.dist) && 0.0 <= s.cfg.vehicleMaxSpeedMps && TrackFits(s, track, anchors) && SpeedFits(s, track)
    requires Increasing(track) && i < m <= |track| && track[i].distanceDeltaM > 0.0
    ensures Covered(track[..m], track[i].recordedAt)
            <= Reach(s.cfg.vehicleMaxSpeedMps, track[LastCredited(track, i, m)].recordedAt - track[i].recordedAt)
    decreases m
  {
    hide IsMetric, SpeedFits, Reach, Increasing, CreditedFrom, TrackFits, Covered;
    var v, k := s.cfg.vehicleMaxSpeedMps, m - 1;
    if k == i {
      CoveredAtStart(track, i);
      ReachOfNothing(v);
    } else {
      CoveredIsBounded(s, track, anchors, i, k);
      CoveredGrows(s, track, anchors, i, k);
      if track[k].distanceDeltaM > 0.0 {
        CreditAdds(s, track, anchors, i, k);
      }
    }
  }

  lemma CoveredAtStart(track: seq<ProcessedPoint>, i: nat)
    requires Increasing(track) && i < |track|
    ensures Covered(track[..i + 1], track[i].recordedAt) == 0.0
  {
    forall j | 0 <= j < i ensures track[j].recordedAt <= track[i].recordedAt {
      IncreasingPairs(track, j, i);
    }
    hide Increasing;
    CoveredNothing(track[..i + 1], track[i].recordedAt);
  }

  lemma CoveredGrows(s: Setup, track: seq<ProcessedPoint>, anchors: seq<nat>, i: nat, k: nat)
    requires TrackFits(s, track, anchors) && Increasing(track) && i < k < |track|
    ensures 0.0 <= track[k].distanceDeltaM
    ensures Covered(track[..k + 1], track[i].recordedAt)
            == Covered(track[..k], track[i].recordedAt) + track[k].distanceDeltaM
  {
    hide Covered, Increasing;
    assert CreditedFrom(s, track, anchors, k);
    IncreasingPairs(track, i, k);
    assert track[..k + 1] == track[..k] + [track[k]];
    CoveredOneMore(track[..k], track[k], track[i].recordedAt);
  }

  // One more credit reaches no further than the ceiling carries.
  lemma CreditAdds(s: Setup, track: seq<ProcessedPoint>, anchors: seq<nat>, i: nat, k: nat)
    requires IsMetric(s.dist) && 0.0 <= s.cfg.vehicleMaxSpeedMps && TrackFits(s, track, anchors) && SpeedFits(s, track)
    requires Increasing(track) && i < k < |track| && track[i].distanceDeltaM > 0.0 && track[k].distanceDeltaM > 0.0
    ensures
      var v, before := s.cfg.vehicleMaxSpeedMps, LastCredited(track, i, k);
      Reach(v, track[before].recordedAt - track[i].recordedAt) + track[k].distanceDeltaM
      <= Reach(v, track[k].recordedAt - track[i].recordedAt)
  {
    var v, before, anchor := s.cfg.vehicleMaxSpeedMps, LastCredited(track, i, k), anchors[k];
    LastCreditedIsBehind(s, track, anchors, i, k, k);
    assert CreditedFrom(s, track, anchors, k);
    hide TrackFits, Reach, LastCredited, IsMetric, SpeedFits;
    IncreasingIsNonDecreasing(track);
    NonDecreasingPairs(track, before, anchor);
    hide Increasing, NonDecreasing;
    StraightLine(s, track, anchor, k);
    ReachGrows(v, track[before].recordedAt - track[i].recordedAt, track[anchor].recordedAt - track[i].recordedAt);
    ReachAdds(v, track[anchor].recordedAt - track[i].recordedAt, track[k].recordedAt - track[anchor].recordedAt);
  }

  lemma IncreasingIsNonDecreasing(points: seq<ProcessedPoint>)
    requires Increasing(points)
    ensures NonDecreasing(points)
  {
  }

  // ---- what one point does to distances ----

  // A row keeps its distance unless the point is credited to it.
  lemma ObserveDistances(env: Env, t: Tracker, p: ProcessedPoint, id: TripId)
    requires t.st.WellFormed() && p.IsUsable() && t.nextId !in t.rows && id in t.rows
    ensures
      var after := Observe(env, t, p).rows;
      && id in after && after[id].startedAt == t.rows[id].startedAt
      && after[id].distanceM
         == t.rows[id].distanceM
             + if CreditOf(env, t.st, p) != [] && t.st.activeTripId == Some(id) then p.distanceDeltaM else 0.0
  {
    hide RoundedSeconds, TruncatedSeconds;
  }

  lemma ObserveCandidateDistance(env: Env, t: Tracker, p: ProcessedPoint)
    requires t.st.WellFormed() && p.IsUsable() && t.nextId !in t.rows && 0.0 <= p.distanceDeltaM
    ensures
      var after := Observe(env, t, p);
      && (after.st.candidateStartedAt.Some? ==>
            || (after.st.candidateStartedAt == Some(p.recordedAt) && after.st.candidateDistanceM == 0.0)
            || (after.st.candidateStartedAt == t.st.candidateStartedAt
                && after.st.candidateDistanceM <= t.st.candidateDistanceM + p.distanceDeltaM))
      && (Confirming(env, t, p) ==>
            && t.nextId in after.rows && after.st.activeTripId == Some(t.nextId)
            && after.rows[t.nextId].startedAt == t.st.candidateStartedAt.value
            && after.rows[t.nextId].distanceM <= t.st.candidateDistanceM + p.distanceDeltaM)
      && (!Confirming(env, t, p) && after.st.activeTripId.Some? ==> after.st.activeTripId == t.st.activeTripId)
  {
    hide RoundedSeconds, TruncatedSeconds, UpdatedRow, CompletedRow;
  }

  // ---- what every run keeps ----

  // Some linked point of the trip is late enough for its distance.
  ghost predicate WithinReach(v: real, b: Book, id: TripId)
    requires id in b.tracker.rows
  {
    exists i :: 0 <= i < |b.accepted| && ReachedAt(v, b, id, i)
  }

  ghost predicate ReachedAt(v: real, b: Book, id: TripId, i: nat)
    requires id in b.tracker.rows && i < |b.accepted|
  {
    && LinkedTo(b.links, b.accepted[i].eventId, id)
    && b.tracker.rows[id].distanceM <= Reach(v, b.accepted[i].recordedAt - b.tracker.rows[id].startedAt)
  }

  // Open totals are covered by what was credited since the start.
  ghost predicate OpenCovered(t: Tracker, accepted: seq<ProcessedPoint>) {
    && (t.st.candidateStartedAt.Some? ==>
          t.st.candidateDistanceM <= Covered(accepted, t.st.candidateStartedAt.value))
    && (t.st.activeTripId.Some? && t.st.activeTripId.value in t.rows ==>
          t.rows[t.st.activeTripId.value].distanceM <= Covered(accepted, t.rows[t.st.activeTripId.value].startedAt))
  }

  ghost predicate DistancesFit(v: real, b: Book) {
    && OpenCovered(b.tracker, b.accepted)
    && (forall id :: id in b.tracker.rows ==> WithinReach(v, b, id))
  }

  // The track of the run up to and including p, with everything known about its credits.
  ghost predicate Ahead(s: Setup, track: seq<ProcessedPoint>, anchors: seq<nat>, accepted: seq<ProcessedPoint>,
                        p: ProcessedPoint) {
    && IsMetric(s.dist) && 0.0 <= s.cfg.vehicleMaxSpeedMps
    && TrackFits(s, track, anchors) && SpeedFits(s, track) && Increasing(track)
    && |accepted| < |track| && track[..|accepted|] == accepted && track[|accepted|] == p
  }

  lemma AheadIsNotNegative(s: Setup, track: seq<ProcessedPoint>, anchors: seq<nat>, accepted: seq<ProcessedPoint>,
                           p: ProcessedPoint)
    requires Ahead(s, track, anchors, accepted, p)
    ensures 0.0 <= p.distanceDeltaM
  {
    assert CreditedFrom(s, track, anchors, |accepted|);
  }

  // Whatever was credited since a movement point, up to p, is within the ceiling's reach.
  lemma CoveredWithinReach(s: Setup, cfg: DetectionConfig, track: seq<ProcessedPoint>, anchors: seq<nat>,
                           accepted: seq<ProcessedPoint>, p: ProcessedPoint, at: Time)
    requires Ahead(s, track, anchors, accepted, p) && Evidence(cfg, accepted, at)
    ensures Covered(accepted + [p], at) <= Reach(s.cfg.vehicleMaxSpeedMps, p.recordedAt - at)
  {
    hide Ahead, Covered, Reach;
    var i :| 0 <= i < |accepted| && accepted[i].recordedAt == at && Moves(cfg, accepted[i]);
    CoveredFrom(s, track, anchors, accepted, p, i);
  }

  lemma CoveredFrom(s: Setup, track: seq<ProcessedPoint>, anchors: seq<nat>, accepted: seq<ProcessedPoint>,
                    p: ProcessedPoint, i: nat)
    requires Ahead(s, track, anchors, accepted, p) && i < |accepted| && accepted[i].distanceDeltaM > 0.0
    ensures Covered(accepted + [p], accepted[i].recordedAt)
            <= Reach(s.cfg.vehicleMaxSpeedMps, p.recordedAt - accepted[i].recordedAt)
  {
    hide Covered, Reach, TrackFits, SpeedFits, Increasing, IsMetric;
    AheadPrefix(s, track, anchors, accepted, p, i);
    ReachFrom(s, track, anchors, i, |accepted| + 1);
  }

  lemma AheadPrefix(s: Setup, track: seq<ProcessedPoint>, anchors: seq<nat>, accepted: seq<ProcessedPoint>,
                    p: ProcessedPoint, i: nat)
    requires Ahead(s, track, anchors, accepted, p) && i < |accepted|
    ensures track[i] == accepted[i] && track[..|accepted| + 1] == accepted + [p]
  {
    hide IsMetric, TrackFits, SpeedFits, Increasing;
    assert track[..|accepted|][i] == track[i];
    assert track[..|accepted| + 1] == track[..|accepted|] + [p];
  }

  lemma ReachFrom(s: Setup, track: seq<ProcessedPoint>, anchors: seq<nat>, i: nat, m: nat)
    requires IsMetric(s.dist) && 0.0 <= s.cfg.vehicleMaxSpeedMps
    requires TrackFits(s, track, anchors) && SpeedFits(s, track) && Increasing(track)
    requires i < m <= |track| && track[i].distanceDeltaM > 0.0
    ensures Covered(track[..m], track[i].recordedAt)
            <= Reach(s.cfg.vehicleMaxSpeedMps, track[m - 1].recordedAt - track[i].recordedAt)
  {
    hide *;
    CoveredIsBounded(s, track, anchors, i, m);
    var last := LastCredited(track, i, m);
    IncreasingIsNonDecreasing(track);
    NonDecreasingPairs(track, last, m - 1);
    ReachGrows(s.cfg.vehicleMaxSpeedMps, track[last].recordedAt - track[i].recordedAt,
        track[m - 1].recordedAt - track[i].recordedAt);
  }

  lemma EnterKeepsOpenCovered(env: Env, b: Book, p: ProcessedPoint)
    requires ClockFits(b) && Ledger.Next(b, p) && RecordsFit(env.cfg, b) && b.tracker.nextId !in b.tracker.rows
    requires OpenCovered(b.tracker, b.accepted) && 0.0 <= p.distanceDeltaM
    ensures OpenCovered(Observe(env, b.tracker, p), b.accepted + [p])
  {
    var t, after := b.tracker, Observe(env, b.tracker, p);
    ObserveCandidateDistance(env, t, p);
    StartsBeforeNext(env, b, p);
    if t.st.activeTripId.Some? && t.st.activeTripId.value in t.rows {
      ObserveDistances(env, t, p, t.st.activeTripId.value);
      CoveredOneMore(b.accepted, p, t.rows[t.st.activeTripId.value].startedAt);
    }
    if t.st.candidateStartedAt.Some? {
      CoveredOneMore(b.accepted, p, t.st.candidateStartedAt.value);
    }
    NothingCoveredAfterLast(b, p);
    OpenIsKnown(env, b);
    hide Observe, RecordsFit, ClockFits, Ledger.Next, Covered, CreditOf;
  }

  lemma OpenIsKnown(env: Env, b: Book)
    requires ClockFits(b) && RecordsFit(env.cfg, b)
    ensures b.tracker.st.activeTripId.Some? ==> b.tracker.st.activeTripId.value in b.tracker.rows
  {
  }

  // Whatever started, started before the next point.
  lemma StartsBeforeNext(env: Env, b: Book, p: ProcessedPoint)
    requires ClockFits(b) && Ledger.Next(b, p) && RecordsFit(env.cfg, b)
    ensures b.tracker.st.candidateStartedAt.Some? ==> b.tracker.st.candidateStartedAt.value < p.recordedAt
    ensures forall id :: id in b.tracker.rows ==> b.tracker.rows[id].startedAt < p.recordedAt
  {
    assert b.accepted != [] ==> b.accepted[|b.accepted| - 1].recordedAt < p.recordedAt;
  }

  lemma NothingCoveredAfterLast(b: Book, p: ProcessedPoint)
    requires Ledger.Next(b, p)
    ensures Covered(b.accepted + [p], p.recordedAt) == 0.0
  {
    CoveredNothing(b.accepted + [p], p.recordedAt);
  }

  lemma {:induction false} LinksStay(links: LinkTable, points: seq<TripPoint>)
    ensures forall e :: e in links ==> e in LinkAll(links, points) && LinkAll(links, points)[e] == links[e]
  {
    if points != [] {
      LinksStay(links, points[..|points| - 1]);
    }
  }

  // A row that was not touched is still within reach.
  lemma UntouchedStays(v: real, b: Book, after: Book, id: TripId, p: ProcessedPoint)
    requires id in b.tracker.rows && WithinReach(v, b, id) && id in after.tracker.rows
    requires after.tracker.rows[id].distanceM == b.tracker.rows[id].distanceM
    requires after.tracker.rows[id].startedAt == b.tracker.rows[id].startedAt
    requires after.accepted == b.accepted + [p]
    requires forall e :: e in b.links ==> e in after.links && after.links[e] == b.links[e]
    ensures WithinReach(v, after, id)
  {
    var i :| 0 <= i < |b.accepted| && ReachedAt(v, b, id, i);
    assert after.accepted[i] == b.accepted[i];
    assert ReachedAt(v, after, id, i);
  }

  // A row that p was just linked to is within reach of p.
  lemma JustReached(s: Setup, cfg: DetectionConfig, track: seq<ProcessedPoint>, anchors: seq<nat>, b: Book,
                    after: Book, id: TripId, p: ProcessedPoint)
    requires Ahead(s, track, anchors, b.accepted, p) && after.accepted == b.accepted + [p]
    requires id in after.tracker.rows && after.tracker.st.activeTripId == Some(id)
        && LinkedTo(after.links, p.eventId, id)
    requires OpenCovered(after.tracker, after.accepted)
    requires Evidence(cfg, b.accepted, after.tracker.rows[id].startedAt)
    ensures WithinReach(s.cfg.vehicleMaxSpeedMps, after, id)
  {
    CoveredWithinReach(s, cfg, track, anchors, b.accepted, p, after.tracker.rows[id].startedAt);
    hide Ahead, Covered, Evidence;
    assert after.accepted[|b.accepted|] == p;
    assert ReachedAt(s.cfg.vehicleMaxSpeedMps, after, id, |b.accepted|);
  }

  lemma CreditLinks(env: Env, b: Book, p: ProcessedPoint)
    requires ClockFits(b) && LinksFit(b) && Ledger.Next(b, p) && CreditOf(env, b.tracker.st, p) != []
    ensures !Confirming(env, b.tracker, p) && b.tracker.st.activeTripId.Some?
    ensures Observe(env, b.tracker, p).st.activeTripId == b.tracker.st.activeTripId
    ensures LinkedTo(Enter(env, b, p).links, p.eventId, b.tracker.st.activeTripId.value)
  {
    StateMoves(env, b.tracker, p);
    NextIsNotLinked(b, p);
    hide Observe, LinkAll, LinksFit, Ledger.Next;
    var credit := CreditOf(env, b.tracker.st, p);
    assert NewLinks(env, b, p) == [TripPoint(credit[0].tripId, p.eventId, p.recordedAt)];
    LinkOne(b.links, NewLinks(env, b, p)[0]);
  }

  lemma OpeningReaches(env: Env, s: Setup, b: Book, p: ProcessedPoint, track: seq<ProcessedPoint>, anchors: seq<nat>)
    requires ClockFits(b) && LinksFit(b) && Ledger.Next(b, p) && RecordsFit(env.cfg, b)
        && b.tracker.nextId !in b.tracker.rows
    requires Ahead(s, track, anchors, b.accepted, p) && Confirming(env, b.tracker, p)
    requires OpenCovered(Observe(env, b.tracker, p), b.accepted + [p])
    ensures b.tracker.nextId in Enter(env, b, p).tracker.rows
    ensures WithinReach(s.cfg.vehicleMaxSpeedMps, Enter(env, b, p), b.tracker.nextId)
  {
    AheadIsNotNegative(s, track, anchors, b.accepted, p);
    ObserveCandidateDistance(env, b.tracker, p);
    StartsBeforeNext(env, b, p);
    OpeningIsExact(env, b, p, |b.accepted|);
    assert Evidence(env.cfg, b.accepted, b.tracker.st.candidateStartedAt.value);
    hide Observe, ClockFits, LinksFit, Ledger.Next, RecordsFit, Ahead, Evidence, OpenCovered, NewLinks, LinkAll;
    JustReached(s, env.cfg, track, anchors, b, Enter(env, b, p), b.tracker.nextId, p);
  }

  lemma CreditReaches(env: Env, s: Setup, b: Book, p: ProcessedPoint, track: seq<ProcessedPoint>, anchors: seq<nat>)
    requires ClockFits(b) && LinksFit(b) && Ledger.Next(b, p) && RecordsFit(env.cfg, b)
        && b.tracker.nextId !in b.tracker.rows
    requires Ahead(s, track, anchors, b.accepted, p) && CreditOf(env, b.tracker.st, p) != []
    requires OpenCovered(Observe(env, b.tracker, p), b.accepted + [p])
    ensures b.tracker.st.activeTripId.Some?
    ensures b.tracker.st.activeTripId.value in Enter(env, b, p).tracker.rows
    ensures WithinReach(s.cfg.vehicleMaxSpeedMps, Enter(env, b, p), b.tracker.st.activeTripId.value)
  {
    CreditLinks(env, b, p);
    OpenIsKnown(env, b);
    var id := b.tracker.st.activeTripId.value;
    ObserveDistances(env, b.tracker, p, id);
    assert Evidence(env.cfg, b.accepted, b.tracker.rows[id].startedAt);
    hide Observe, ClockFits, LinksFit, Ledger.Next, RecordsFit, Ahead, Evidence, OpenCovered, NewLinks, LinkAll,
         CreditOf;
    JustReached(s, env.cfg, track, anchors, b, Enter(env, b, p), id, p);
  }

  lemma EnterKeepsReach(env: Env, s: Setup, b: Book, p: ProcessedPoint, track: seq<ProcessedPoint>, anchors: seq<nat>,
                        id: TripId)
    requires ClockFits(b) && LinksFit(b) && Ledger.Next(b, p) && RecordsFit(env.cfg, b)
        && b.tracker.nextId !in b.tracker.rows
    requires Ahead(s, track, anchors, b.accepted, p) && DistancesFit(s.cfg.vehicleMaxSpeedMps, b)
    requires OpenCovered(Observe(env, b.tracker, p), b.accepted + [p])
    requires id in Enter(env, b, p).tracker.rows
    ensures WithinReach(s.cfg.vehicleMaxSpeedMps, Enter(env, b, p), id)
  {
    ObserveOpens(env, b.tracker, p);
    LinksStay(b.links, NewLinks(env, b, p));
    hide Observe, ClockFits, LinksFit, Ledger.Next, RecordsFit, Ahead, OpenCovered, NewLinks, LinkAll, CreditOf,
         WithinReach;
    if id !in b.tracker.rows {
      OpeningReaches(env, s, b, p, track, anchors);
    } else {
      ObserveDistances(env, b.tracker, p, id);
      if CreditOf(env, b.tracker.st, p) != [] && b.tracker.st.activeTripId == Some(id) {
        CreditReaches(env, s, b, p, track, anchors);
      } else {
        UntouchedStays(s.cfg.vehicleMaxSpeedMps, b, Enter(env, b, p), id, p);
      }
    }
  }

  lemma EnterKeepsDistances(env: Env, s: Setup, b: Book, p: ProcessedPoint, track: seq<ProcessedPoint>,
                            anchors: seq<nat>)
    requires ClockFits(b) && LinksFit(b) && Ledger.Next(b, p) && RecordsFit(env.cfg, b)
        && b.tracker.nextId !in b.tracker.rows
    requires Ahead(s, track, anchors, b.accepted, p) && DistancesFit(s.cfg.vehicleMaxSpeedMps, b)
    ensures DistancesFit(s.cfg.vehicleMaxSpeedMps, Enter(env, b, p))
  {
    hide Observe, LinksFit, Ledger.Next, RecordsFit, Ahead, OpenCovered, NewLinks, LinkAll, WithinReach;
    AheadIsNotNegative(s, track, anchors, b.accepted, p);
    EnterKeepsOpenCovered(env, b, p);
    forall id | id in Enter(env, b, p).tracker.rows
      ensures WithinReach(s.cfg.vehicleMaxSpeedMps, Enter(env, b, p), id)
    {
      EnterKeepsReach(env, s, b, p, track, anchors, id);
    }
  }

  lemma PrefixAhead(s: Setup, track: seq<ProcessedPoint>, anchors: seq<nat>, accepted: seq<ProcessedPoint>,
                    points: seq<ProcessedPoint>)
    requires IsMetric(s.dist) && 0.0 <= s.cfg.vehicleMaxSpeedMps
    requires TrackFits(s, track, anchors) && SpeedFits(s, track) && Increasing(track)
    requires points != [] && accepted + points <= track
    ensures Ahead(s, track, anchors, accepted + points[..|points| - 1], points[|points| - 1])
    ensures accepted + points[..|points| - 1] <= track
  {
    hide IsMetric, TrackFits, SpeedFits, Increasing;
    var all := accepted + points;
    assert all[..|all| - 1] == accepted + points[..|points| - 1];
    assert track[..|all|] == all;
  }

  lemma {:induction false} EnterAllKeepsDistances(env: Env, s: Setup, b: Book, points: seq<ProcessedPoint>,
                                 track: seq<ProcessedPoint>, anchors: seq<nat>)
    requires ClockFits(b) && LinksFit(b) && RecordsFit(env.cfg, b) && Arrives(b, points)
    requires IdsBelow(b.tracker.rows, b.tracker.nextId) && DistancesFit(s.cfg.vehicleMaxSpeedMps, b)
    requires forall k :: 0 <= k < |points| ==> Calm(env.cfg, b.accepted + points[..k], points[k])
    requires IsMetric(s.dist) && 0.0 <= s.cfg.vehicleMaxSpeedMps
    requires TrackFits(s, track, anchors) && SpeedFits(s, track) && Increasing(track) && b.accepted + points <= track
    ensures DistancesFit(s.cfg.vehicleMaxSpeedMps, EnterAll(env, b, points))
  {
    hide LinksFit, RecordsFit, Arrives, Ledger.Next, Calm, Enter, IdsBelow, DistancesFit, Ahead, IsMetric,
         TrackFits, SpeedFits, Increasing;
    if points != [] {
      var front, p := points[..|points| - 1], points[|points| - 1];
      assert forall k :: 0 <= k < |front| ==> front[..k] == points[..k] && front[k] == points[k];
      PrefixAhead(s, track, anchors, b.accepted, points);
      ArrivingIsNext(b, points, EnterAll(env, b, front));
      EnterAllKeepsDistances(env, s, b, front, track, anchors);
      EnterAllKeepsBooks(env, b, front);
      EnterAllKeepsRecords(env, b, front);
      RowsStayBelow(env, b, front);
      NextIdIsFree(EnterAll(env, b, front).tracker);
      EnterKeepsDistances(env, s, EnterAll(env, b, front), p, track, anchors);
    }
  }

  // ---- runs ----

  // Every activity ceiling is at most the vehicle ceiling, which is not negative.
  predicate Moderate(job: Job) {
    CeilingsFit(job.setup.cfg) && 0.0 <= job.setup.cfg.vehicleMaxSpeedMps
  }

  // The worker's default configuration meets all three conditions.
  lemma {:induction false} DefaultsFit(job: Job)
    requires job.setup.cfg == DEFAULT_NOISE_CONFIG && job.cfg == DEFAULT_DETECTION_CONFIG && IsMetric(job.setup.dist)
    ensures Sane(job) && Apart(job) && Moderate(job)
  {
  }

  ghost predicate SpeedKept(job: Job, b: Book) {
    && (exists anchors: seq<nat> :: TrackFits(job.setup, b.accepted, anchors))
    && SpeedFits(job.setup, b.accepted)
    && DistancesFit(job.setup.cfg.vehicleMaxSpeedMps, b)
  }

  lemma PipelineFits(s: Setup, history: seq<ProcessedPoint>, raw: seq<RawPoint>,
                     through: Option<Time>) returns (anchors: seq<nat>)
    requires IsMetric(s.dist) && InputFits(s, history) && CeilingsFit(s.cfg) && SpeedFits(s, AcceptedOnly(history))
    ensures
      var accepted := Pipeline(s, history, raw, through).accepted;
      CreditsFit(s, history, accepted, anchors, StartOf(history)) && SpeedFits(s, Track(history, accepted))
  {
    hide Steps, AcceptedOnly, CreditsFit, SpeedFits, FrontierFits, IsMetric, InputFits, StartOf;
    var points := Sort(RawBefore, raw);
    var frontier: nat;
    anchors, frontier := StepsKeepCredits(s, history, points, through, |points|);
    StepsKeepSpeed(s, history, points, through, |points|);
  }

  lemma SliceSpeeds(s: Setup, track: seq<ProcessedPoint>, older: nat, n: nat)
    requires SpeedFits(s, track) && older <= n <= |track|
    ensures SpeedFits(s, track[older..n])
  {
    hide WithinSpeed;
    forall i | 0 < i < n - older ensures WithinSpeed(s, track[older..n][i - 1], track[older..n][i]) {
      assert WithinSpeed(s, track[older + i - 1], track[older + i]);
    }
  }

  lemma CycleTrack(job: Job, stored: seq<ProcessedPoint>, to: Time, raw: seq<RawPoint>, through: Option<Time>,
                   anchors: seq<nat>)
    returns (more: seq<nat>)
    requires Sane(job) && Apart(job) && Moderate(job) && CycleInput(stored, to, Sort(RawBefore, raw), through)
    requires TrackFits(job.setup, AcceptedOnly(stored), anchors) && SpeedFits(job.setup, AcceptedOnly(stored))
    ensures
      var all := AcceptedOnly(stored) + Pipeline(job.setup, FetchHistory(stored, to), raw, through).accepted;
      TrackFits(job.setup, all, more) && SpeedFits(job.setup, all)
  {
    hide FetchHistory, Pipeline, Sort, AcceptedOnly, HasEvent, DistinctEvents, RawBefore, IsMetric, Increasing,
         NewEvents,
         InputFits, TrackFits, SpeedFits, CreditsFit, StartOf, CeilingsFit;
    var n, older := HistoryFits(job.setup, stored, to);
    CycleOrders(job.setup, stored, to, raw, through);
    var track, history := AcceptedOnly(stored), FetchHistory(stored, to);
    var accepted := Pipeline(job.setup, history, raw, through).accepted;
    if accepted == [] {
      more := anchors;
      assert track + accepted == track;
    } else {
      if n < |track| {
        IncreasingPairs(track + accepted, n, |track|);
      }
      assert n == |track| && history == track[older..];
      SliceSpeeds(job.setup, track, older, n);
      var later := PipelineFits(job.setup, history, raw, through);
      JoinTracks(job.setup, track, anchors, older, history, accepted, later);
      JoinSpeeds(job.setup, track, older, history, accepted);
      more := anchors + Shifted(later, older);
    }
  }

  lemma StampKeepsDistances(env: Env, v: real, b: Book)
    requires DistancesFit(v, b)
    ensures DistancesFit(v, Stamped(env, b))
  {
    hide Covered, Reach;
    var after := Stamped(env, b);
    forall id | id in after.tracker.rows ensures WithinReach(v, after, id) {
      assert WithinReach(v, b, id);
      var i :| 0 <= i < |b.accepted| && ReachedAt(v, b, id, i);
      assert ReachedAt(v, after, id, i);
    }
  }

  lemma CycleKeepsSpeed(job: Job, w: World, b: Book, now: Time)
    requires Sane(job) && Apart(job) && Moderate(job) && Kept(job, w, b) && SpeedKept(job, b)
        && w.tables.state.WellFormed()
    ensures
      var env := job.EnvAt(now);
      SpeedKept(job, Stamped(env, EnterAll(env, b, Cleaned(job, w, now).accepted)))
  {
    var env, g := job.EnvAt(now), Cleaned(job, w, now);
    var st := w.tables.state;
    var raw := FetchUnprocessed(w.raw, w.tables.processed, From(st, now), UpTo(st, now));
    CycleKeepsBook(job, w, b, now);
    HandedArrives(job, b, w.tables.processed, g);
    HandedIsCalm(job, w.tables.processed, g);
    HandedIncreases(job, w.tables.processed, g);
    ClockIsCycleInput(job, w, b, now);
    var anchors: seq<nat> :| TrackFits(job.setup, b.accepted, anchors);
    hide Pipeline, FetchUnprocessed, FetchHistory, Sort, AcceptedOnly, Handed, Calm, DistinctEvents, IdsBelow,
         ClockFits, LinksFit, RecordsFit, OpeningsFit, EnterAll, NewEvents, Arrives, CycleInput, Stamp,
         TrackFits, SpeedFits, DistancesFit, IsMetric, Increasing, CeilingsFit;
    var more := CycleTrack(job, w.tables.processed, UpTo(st, now), raw, st.lastProcessedAt, anchors);
    EnterAllKeepsDistances(env, job.setup, b, g.accepted, b.accepted + g.accepted, more);
    StampKeepsDistances(env, job.setup.cfg.vehicleMaxSpeedMps, EnterAll(env, b, g.accepted));
  }

  lemma HandedIncreases(job: Job, stored: seq<ProcessedPoint>, g: Progress)
    requires Handed(job, stored, g)
    ensures Increasing(AcceptedOnly(stored) + g.accepted)
  {
  }

  lemma NextKeepsSpeed(job: Job, w: World, b: Book, e: Event)
    requires Sane(job) && Apart(job) && Moderate(job) && Kept(job, w, b) && SpeedKept(job, b)
        && w.tables.state.WellFormed()
    ensures SpeedKept(job, BookNext(job, w, b, e))
  {
    hide Kept, SpeedKept, Selected, Cleaned, Apart, Moderate, UpTo, From;
    if e.Tick? {
      CycleKeepsSpeed(job, w, b, e.now);
    }
  }

  lemma {:induction false} RunsKeepSpeed(job: Job, events: seq<Event>)
    requires Sane(job) && Apart(job) && Moderate(job)
    ensures SpeedKept(job, BookAfter(job, events))
  {
    if events == [] {
      var none: seq<nat> := [];
      assert TrackFits(job.setup, [], none);
    } else {
      hide BookNext, Kept, SpeedKept, Apart, Moderate;
      var front, e := events[..|events| - 1], events[|events| - 1];
      RunsKeepSpeed(job, front);
      RunsKeep(job, front);
      NextKeepsSpeed(job, After(job, front), BookAfter(job, front), e);
    }
  }

  // Over every run, with movement faster than standstill and no activity ceiling above the
  // vehicle's: the distance of every trip, open or completed, is no more than the vehicle
  // ceiling covers between the trip's start and one of the points linked to it.
  lemma {:induction false} TripsObeyTheCeiling(job: Job, events: seq<Event>, id: TripId) returns (at: Time)
    requires Sane(job) && Apart(job) && Moderate(job) && id in After(job, events).tables.trips
    ensures
      var t := After(job, events).tables;
      && t.trips[id].distanceM <= Reach(job.setup.cfg.vehicleMaxSpeedMps, at - t.trips[id].startedAt)
      && exists e :: e in t.links && t.links[e] == Link(id, at)
  {
    hide After, BookAfter, Sane, Apart, Moderate, ClockFits, LinksFit, OpeningsFit, RecordsFit, DistancesFit,
         AcceptedOnly,
         DistinctEvents, IdsBelow, TrackFits, SpeedFits, Reach;
    RunsKeep(job, events);
    RunsKeepSpeed(job, events);
    at := LinkedAt(job.setup.cfg.vehicleMaxSpeedMps, BookAfter(job, events), id);
  }

  lemma LinkedAt(v: real, b: Book, id: TripId) returns (at: Time)
    requires LinksFit(b) && ClockFits(b) && id in b.tracker.rows && DistancesFit(v, b)
    ensures b.tracker.rows[id].distanceM <= Reach(v, at - b.tracker.rows[id].startedAt)
    ensures exists e :: e in b.links && b.links[e] == Link(id, at)
  {
    assert WithinReach(v, b, id) && Distinct(b.accepted);
    var i :| 0 <= i < |b.accepted| && ReachedAt(v, b, id, i);
    var e := b.accepted[i].eventId;
    at := b.accepted[i].recordedAt;
    hide Reach, DistancesFit, ClockFits, Covered;
    assert LinkFits(b, e);
    assert Entered(b.accepted, e, at);
    hide LinksFit, LinkFits, Entered;
    EnteredOnce(b.accepted, e, at, b.links[e].recordedAt);
    assert b.links[e] == Link(id, at);
  }
}
