// What moving means to the trip detector, in terms of what a point reports and was credited
// with, and that it is enough for a trip.
module MovingDevices {
  import opened Domain
  import opened Sorting
  import opened Noise
  import opened NoiseOutput
  import opened TripDetection
  import opened TripRows
  import opened TripRefinement
  import opened Ledger
  import opened TrackingJob
  import opened JobRuns
  import opened TripTotals
  import opened TripCompleteness
  import opened TripEnds
  import opened TripLife

  // On foot by its own account, unless it doubts that too much, or about as fast as on foot; in
  // any case credited with some distance and not standing.
  predicate OnTheMove(cfg: DetectionConfig, p: ProcessedPoint) {
    && !p.isStationary && p.distanceDeltaM > 0.0
    && (|| ((p.activityType == "walking" || p.activityType == "running")
            && (p.activityConfidence.Some? ==> cfg.activityConfidence <= p.activityConfidence.value))
        || cfg.movementMinSpeedMps <= (if p.speedMps.Some? then p.speedMps.value else p.impliedSpeedMps)
           <= cfg.movementMaxSpeedMps)
  }

  lemma MovesExactly(cfg: DetectionConfig, p: ProcessedPoint)
    ensures Moves(cfg, p) <==> p.isAccepted && OnTheMove(cfg, p)
  {
  }

  function Credits(points: seq<ProcessedPoint>): real {
    if points == [] then 0.0 else Credits(points[..|points| - 1]) + points[|points| - 1].distanceDeltaM
  }

  ghost predicate AllMove(cfg: DetectionConfig, track: seq<ProcessedPoint>, s: nat, e: nat) {
    e < |track| && forall k :: s <= k <= e ==> Moves(cfg, track[k])
  }

  ghost predicate Ordered(track: seq<ProcessedPoint>) {
    forall i, j :: 0 <= i < j < |track| ==> track[i].recordedAt < track[j].recordedAt
  }

  // One point more counts when it lies from the s-th to the e-th; the s-th itself was credited
  // with what lies before it.
  lemma OneMoreMoves(cfg: DetectionConfig, track: seq<ProcessedPoint>, s: nat, e: nat, n: nat)
    requires Ordered(track) && s <= e && AllMove(cfg, track, s, e) && n < |track|
    ensures
      var since, to := track[s].recordedAt, track[e].recordedAt;
      && Moved(cfg, track[..n + 1], since, to)
         == Moved(cfg, track[..n], since, to) + (if s < n <= e then track[n].distanceDeltaM else 0.0)
      && MovedCount(cfg, track[..n + 1], since, to)
         == MovedCount(cfg, track[..n], since, to) + if s <= n <= e then 1 else 0
  {
    hide Moves;
    assert track[..n + 1][..n] == track[..n] && track[..n + 1][n] == track[n];
  }

  function Slice(track: seq<ProcessedPoint>, s: nat, e: nat, n: nat): seq<ProcessedPoint>
    requires s <= e < |track|
  {
    if n <= s + 1 then [] else if n <= e then track[s + 1..n] else track[s + 1..e + 1]
  }

  lemma OneMoreCredit(track: seq<ProcessedPoint>, s: nat, e: nat, n: nat)
    requires s <= e < |track| && n < |track|
    ensures Credits(Slice(track, s, e, n + 1))
            == Credits(Slice(track, s, e, n)) + if s < n <= e then track[n].distanceDeltaM else 0.0
  {
    if s < n <= e {
      var longer := track[s + 1..n + 1];
      assert Slice(track, s, e, n + 1) == longer && longer[..|longer| - 1] == Slice(track, s, e, n);
      assert longer[|longer| - 1] == track[n];
    }
  }

  lemma AllMoveIs(cfg: DetectionConfig, track: seq<ProcessedPoint>, s: nat, e: nat)
    requires AllMove(cfg, track, s, e)
    ensures e < |track|
  {
  }

  lemma NothingMoved(cfg: DetectionConfig, track: seq<ProcessedPoint>, s: nat, e: nat)
    requires s <= e < |track|
    ensures Moved(cfg, track[..0], track[s].recordedAt, track[e].recordedAt) == Credits(Slice(track, s, e, 0))
    ensures MovedCount(cfg, track[..0], track[s].recordedAt, track[e].recordedAt) == 0
  {
    assert track[..0] == [];
  }

  // The first n points of a track count those from the s-th to the e-th.
  lemma {:induction false} MovedIsCredited(cfg: DetectionConfig, track: seq<ProcessedPoint>, s: nat, e: nat, n: nat)
    requires Ordered(track) && s <= e && AllMove(cfg, track, s, e) && n <= |track|
    ensures
      var since, to := track[s].recordedAt, track[e].recordedAt;
      && Moved(cfg, track[..n], since, to) == Credits(Slice(track, s, e, n))
      && MovedCount(cfg, track[..n], since, to) == if n <= s then 0 else if n <= e then n - s else e + 1 - s
  {
    hide *;
    AllMoveIs(cfg, track, s, e);
    if n == 0 {
      NothingMoved(cfg, track, s, e);
    } else {
      MovedIsCredited(cfg, track, s, e, n - 1);
      OneMoreMoves(cfg, track, s, e, n - 1);
      OneMoreCredit(track, s, e, n - 1);
    }
  }

  lemma MoversAreRipe(cfg: DetectionConfig, track: seq<ProcessedPoint>, s: nat, e: nat)
    requires Ordered(track) && s <= e && AllMove(cfg, track, s, e)
    requires track[e].recordedAt - track[s].recordedAt >= Seconds(cfg.motionMinDurationSec)
    requires Credits(track[s + 1..e + 1]) >= cfg.motionMinDistanceM && e + 1 - s >= cfg.motionMinGoodPoints
    ensures Ripe(cfg, track, track[s].recordedAt, track[e].recordedAt)
  {
    MovedIsCredited(cfg, track, s, e, |track|);
    assert track[..|track|] == track;
    hide Moved, MovedCount, Credits, Moves;
    assert Slice(track, s, e, |track|) == track[s + 1..e + 1];
  }

  lemma MoversAreUnbroken(cfg: DetectionConfig, track: seq<ProcessedPoint>, s: nat, e: nat)
    requires Ordered(track) && s <= e && AllMove(cfg, track, s, e)
    requires forall k :: s < k <= e ==> track[k].recordedAt - track[k - 1].recordedAt <= Seconds(cfg.stopMinDurationSec)
    ensures Unbroken(cfg, track, track[s].recordedAt, track[e].recordedAt)
  {
    forall i | 0 < i < |track| && track[s].recordedAt < track[i].recordedAt <= track[e].recordedAt
      ensures s < i <= e && Moves(cfg, track[i])
    {
    }
  }

  lemma TrackIsOrdered(job: Job, events: seq<Event>)
    requires Sane(job)
    ensures Ordered(TrackAfter(job, events))
    ensures forall i :: 0 <= i < |TrackAfter(job, events)| ==> TrackAfter(job, events)[i].isAccepted
  {
    RunsKeep(job, events);
    KeptParts(job, After(job, events), BookAfter(job, events));
    ClockOrders(BookAfter(job, events));
    hide After, BookAfter, ClockFits, LinksFit, AcceptedOnly;
    assert TrackAfter(job, events) == BookAfter(job, events).accepted;
  }

  lemma ClockOrders(b: Book)
    requires ClockFits(b)
    ensures Ordered(b.accepted) && forall i :: 0 <= i < |b.accepted| ==> b.accepted[i].isAccepted
  {
  }

  // Over every run: a device that starts to move while no trip is open, or after a silence that
  // ends the open one, and of which every point from there on moves, without a long silence,
  // until it has moved long, far and densely enough, has got a trip by then, however fast it
  // says it walks.
  lemma {:induction false} MovingDevicesGetTrips(job: Job, events: seq<Event>, s: nat, e: nat) returns (o: Opening)
    requires Sane(job) && s < e < |TrackAfter(job, events)|
    requires
      var track := TrackAfter(job, events);
      && MayStart(job.cfg, BookAfter(job, events), s)
      && (forall k :: s <= k <= e ==> OnTheMove(job.cfg, track[k]))
      && (forall k :: s < k <= e ==>
            track[k].recordedAt - track[k - 1].recordedAt <= Seconds(job.cfg.stopMinDurationSec))
      && track[e].recordedAt - track[s].recordedAt >= Seconds(job.cfg.motionMinDurationSec)
      && Credits(track[s + 1..e + 1]) >= job.cfg.motionMinDistanceM && e + 1 - s >= job.cfg.motionMinGoodPoints
    ensures
      var t, track := After(job, events).tables, TrackAfter(job, events);
      && o in BookAfter(job, events).openings && o.id in t.trips
      && t.trips[o.id].startedAt == o.startedAt <= track[s].recordedAt <= o.confirmedAt <= track[e].recordedAt
  {
    var track := TrackAfter(job, events);
    hide After, BookAfter, TrackAfter, OnTheMove, Moves, Credits, MayStart, Ripe, Unbroken;
    TrackIsOrdered(job, events);
    forall k | s <= k <= e ensures Moves(job.cfg, track[k]) {
      MovesExactly(job.cfg, track[k]);
    }
    MoversAreRipe(job.cfg, track, s, e);
    MoversAreUnbroken(job.cfg, track, s, e);
    o := WalksBecomeTrips(job, events, s, e);
  }

  // Over every run: and a trip never starts but where a device was on the move.
  lemma {:induction false} TripsStartOnTheMove(job: Job, events: seq<Event>, id: TripId) returns (k: nat)
    requires Sane(job) && id in After(job, events).tables.trips
    ensures
      var row, track := After(job, events).tables.trips[id], TrackAfter(job, events);
      && k < |track| && track[k].recordedAt == row.startedAt && track[k].filtered == Some(row.start)
      && OnTheMove(job.cfg, track[k])
  {
    var confirmedAt := TripsAddUp(job, events, id);
    var row, track := After(job, events).tables.trips[id], TrackAfter(job, events);
    hide After, BookAfter, TrackAfter, OnTheMove, Moves, Ripe, Unbroken, NotRipeBefore, Moved, MovedCount,
      LinkedDistance, LinkedCount;
    k :| k < |track| && track[k].recordedAt == row.startedAt && Moves(job.cfg, track[k])
         && track[k].filtered == Some(row.start);
    MovesExactly(job.cfg, track[k]);
  }
}
