// Credited distance: every credit is measured from an anchor, the anchor intervals of a
// batch never overlap, and so the total is bounded by the vehicle ceiling times the time
// that really passed.
module NoiseDistance {
  import opened Domain
  import opened Sorting
  import opened Noise
  import opened NoiseOutput

  // ---- anchors ----

  // Trimming moves the last anchor with the points, or loses it.
  lemma {:induction false} LastAnchorOfSuffix(points: seq<ProcessedPoint>, d: nat)
    requires d <= |points|
    ensures LastAnchor(points[d..]) == if LastAnchor(points) >= d then LastAnchor(points) - d else -1
  {
    if d < |points| && !Anchors(points[|points| - 1]) {
      LastAnchorOfSuffix(points[..|points| - 1], d);
      assert points[d..][..|points| - d - 1] == points[..|points| - 1][d..];
    }
  }

  lemma LastAnchorOneMore(points: seq<ProcessedPoint>, p: ProcessedPoint)
    ensures LastAnchor(points + [p]) == if Anchors(p) then |points| else LastAnchor(points)
  {
    assert (points + [p])[..|points|] == points;
  }

  // The track cut at its last accepted point of the batch.
  function Cut(s: Setup, history: seq<ProcessedPoint>, accepted: seq<ProcessedPoint>): seq<ProcessedPoint> {
    if accepted == [] then AcceptedOnly(history) else WindowAt(s, history, accepted, |accepted| - 1)
  }

  lemma CutIsSuffix(s: Setup, history: seq<ProcessedPoint>, accepted: seq<ProcessedPoint>)
    ensures
      var track, cut := Track(history, accepted), Cut(s, history, accepted);
      |cut| <= |track| && cut == track[|track| - |cut|..]
  {
    hide AcceptedOnly, DropBefore;
    var track := Track(history, accepted);
    if accepted == [] {
      assert track == AcceptedOnly(history);
    } else {
      assert accepted[..|accepted|] == accepted;
      DropIsSuffix(track, accepted[|accepted| - 1].recordedAt - Seconds(s.cfg.stationaryWindowSec));
    }
  }

  // The window holds the last points of the track, up to later marks.
  lemma WindowIsSuffix(s: Setup, history: seq<ProcessedPoint>, g: Progress)
    requires WindowFits(s, history, g)
    ensures
      var track := Track(history, g.accepted);
      && |g.window| <= |track|
      && SameFixes(g.window, track[|track| - |g.window|..])
  {
    hide AcceptedOnly, DropBefore, Track, WindowAt, Unmarked;
    CutIsSuffix(s, history, g.accepted);
    assert SameFixes(g.window, Cut(s, history, g.accepted));
  }

  // Where in the track the next credit will be measured from.
  function AnchorPosition(history: seq<ProcessedPoint>, g: Progress): int
    requires g.window != []
  {
    |Track(history, g.accepted)| - |g.window| + AnchorIndex(g.window)
  }

  // ---- credits ----

  // The distance of the k-th accepted point is that from the track point anchors[k].
  ghost predicate CreditFits(s: Setup, history: seq<ProcessedPoint>, accepted: seq<ProcessedPoint>, anchors: seq<nat>,
                             k: nat)
    requires |anchors| == |accepted| && k < |accepted|
  {
    && 0.0 <= accepted[k].distanceDeltaM
    && (accepted[k].distanceDeltaM > 0.0 ==>
          && Anchors(accepted[k])
          && anchors[k] < |AcceptedOnly(history)| + k
          && accepted[k].distanceDeltaM
             == s.dist(Track(history, accepted)[anchors[k]].raw, accepted[k].raw))
  }

  // Every credit is measured from an anchor no earlier than the first one of the batch, and no
  // credit starts before an earlier one ended.
  ghost predicate CreditsFit(s: Setup, history: seq<ProcessedPoint>, accepted: seq<ProcessedPoint>, anchors: seq<nat>,
                             start: nat) {
    && |anchors| == |accepted|
    && (forall k :: 0 <= k < |accepted| ==> CreditFits(s, history, accepted, anchors, k))
    && (forall k :: 0 <= k < |accepted| && accepted[k].distanceDeltaM > 0.0 ==> start <= anchors[k])
    && (forall i, k ::
          0 <= i < k < |accepted| && accepted[i].distanceDeltaM > 0.0 && accepted[k].distanceDeltaM > 0.0 ==>
          |AcceptedOnly(history)| + i <= anchors[k])
  }

  // No credit so far ends after the frontier, and none to come starts before it.
  ghost predicate FrontierFits(history: seq<ProcessedPoint>, g: Progress, frontier: nat, start: nat) {
    && start <= frontier <= |Track(history, g.accepted)|
    && (forall i :: 0 <= i < |g.accepted| && g.accepted[i].distanceDeltaM > 0.0 ==>
          |AcceptedOnly(history)| + i <= frontier)
    && (g.window != [] ==> frontier <= AnchorPosition(history, g))
  }

  lemma PushKeepsCredits(s: Setup, history: seq<ProcessedPoint>, accepted: seq<ProcessedPoint>, anchors: seq<nat>,
                         out: ProcessedPoint, anchor: nat, start: nat)
    requires CreditsFit(s, history, accepted, anchors, start)
    requires 0.0 <= out.distanceDeltaM
    requires out.distanceDeltaM > 0.0 ==>
      && Anchors(out) && start <= anchor < |Track(history, accepted)|
      && out.distanceDeltaM == s.dist(Track(history, accepted)[anchor].raw, out.raw)
      && forall i :: 0 <= i < |accepted| && accepted[i].distanceDeltaM > 0.0 ==> |AcceptedOnly(history)| + i <= anchor
    ensures CreditsFit(s, history, accepted + [out], anchors + [anchor], start)
  {
    var all, more := accepted + [out], anchors + [anchor];
    hide AcceptedOnly;
    assert Track(history, all) == Track(history, accepted) + [out];
    forall k | 0 <= k < |all| ensures CreditFits(s, history, all, more, k) {
      if k < |accepted| {
        assert CreditFits(s, history, accepted, anchors, k);
      }
    }
  }

  lemma MarkKeepsCredits(s: Setup, history: seq<ProcessedPoint>, accepted: seq<ProcessedPoint>, anchors: seq<nat>,
                         since: Time, start: nat)
    requires CreditsFit(s, history, accepted, anchors, start)
    ensures CreditsFit(s, history, MarkFrom(accepted, since), anchors, start)
  {
    var marked := MarkFrom(accepted, since);
    hide AcceptedOnly;
    forall i | 0 <= i < |accepted|
      ensures marked[i].raw == accepted[i].raw
      ensures marked[i].distanceDeltaM == accepted[i].distanceDeltaM || marked[i].distanceDeltaM == 0.0
    {
    }
    var a, b := Track(history, marked), Track(history, accepted);
    assert |a| == |b| && forall i :: 0 <= i < |a| ==> a[i].raw == b[i].raw;
    forall k | 0 <= k < |marked| ensures CreditFits(s, history, marked, anchors, k) {
      assert CreditFits(s, history, accepted, anchors, k);
    }
  }

  lemma MarkKeepsFrontier(history: seq<ProcessedPoint>, g: Progress, since: Time, frontier: nat, start: nat)
    requires FrontierFits(history, g, frontier, start)
    ensures FrontierFits(history, MarkedBack(g, since), frontier, start)
  {
    hide AcceptedOnly;
  }

  // What a credited point looks like.
  lemma CreditIsMeasured(s: Setup, window: seq<ProcessedPoint>, raw: RawPoint, next: Option<RawPoint>,
                         through: Option<Time>)
    requires ProcessOne(s, window, raw, next, through).isAccepted
    requires IsMetric(s.dist)
    ensures
      var out := ProcessOne(s, window, raw, next, through);
      && 0.0 <= out.distanceDeltaM
      && (out.distanceDeltaM != 0.0 ==>
            && window != [] && Anchors(out)
            && out.distanceDeltaM == s.dist(window[AnchorIndex(window)].raw, out.raw))
  {
    ProcessOneSettles(s, window, raw, next, through);
    hide DetectStationary, DetectOutlier, Trim, Clamp, ProcessOne;
  }

  // After one more accepted point, the next anchor is no earlier than it was.
  lemma PushMovesAnchor(s: Setup, history: seq<ProcessedPoint>, g: Progress, out: ProcessedPoint)
    requires s.cfg.stationaryWindowSec >= 0 && |g.window| <= |Track(history, g.accepted)|
    requires g.window == [] ==> Track(history, g.accepted) == []
    ensures
      var pushed := Pushed(s, g, out);
      && pushed.window != []
      && (Anchors(out) ==> AnchorPosition(history, pushed) == |Track(history, pushed.accepted)| - 1)
      && (g.window != [] ==> AnchorPosition(history, g) <= AnchorPosition(history, pushed))
      && 0 <= AnchorPosition(history, pushed)
  {
    hide AcceptedOnly, Pushed, AnchorIndex, Anchors;
    var dropped := PushedWindow(s, history, g, out);
    TrimmedAnchor(g.window, out, dropped);
  }

  // The pushed window is that of before and the new point, less some leading points.
  lemma PushedWindow(s: Setup, history: seq<ProcessedPoint>, g: Progress, out: ProcessedPoint)
    returns (dropped: nat)
    requires s.cfg.stationaryWindowSec >= 0
    ensures dropped <= |g.window| && Pushed(s, g, out).window == (g.window + [out])[dropped..]
    ensures |Pushed(s, g, out).window| == |g.window| + 1 - dropped
    ensures Track(history, Pushed(s, g, out).accepted) == Track(history, g.accepted) + [out]
  {
    hide AcceptedOnly, DropBefore;
    DropIsSuffix(g.window + [out], out.recordedAt - Seconds(s.cfg.stationaryWindowSec));
    dropped := |g.window| + 1 - |Pushed(s, g, out).window|;
  }

  // Appending a point and dropping old ones moves the anchor forward, if at all.
  lemma TrimmedAnchor(window: seq<ProcessedPoint>, out: ProcessedPoint, dropped: nat)
    requires dropped <= |window|
    ensures
      var rest := (window + [out])[dropped..];
      && (Anchors(out) ==> AnchorIndex(rest) == |rest| - 1)
      && (window != [] ==> AnchorIndex(window) <= dropped + AnchorIndex(rest))
  {
    LastAnchorOfSuffix(window + [out], dropped);
    LastAnchorOneMore(window, out);
    hide LastAnchor;
  }

  // The anchors and frontier once out is pushed.
  lemma PushCredits(s: Setup, history: seq<ProcessedPoint>, g: Progress, out: ProcessedPoint, anchors: seq<nat>,
                    frontier: nat, start: nat)
    returns (anchors': seq<nat>, frontier': nat)
    requires s.cfg.stationaryWindowSec >= 0 && WindowFits(s, history, g)
    requires CreditsFit(s, history, g.accepted, anchors, start) && FrontierFits(history, g, frontier, start)
    requires 0.0 <= out.distanceDeltaM
    requires out.distanceDeltaM != 0.0 ==>
      && g.window != [] && Anchors(out)
      && out.distanceDeltaM == s.dist(g.window[AnchorIndex(g.window)].raw, out.raw)
    ensures CreditsFit(s, history, Pushed(s, g, out).accepted, anchors', start)
    ensures FrontierFits(history, Pushed(s, g, out), frontier', start)
  {
    hide AcceptedOnly, Trim, AnchorIndex;
    var track := Track(history, g.accepted);
    WindowHoldsLast(s, history, g);
    WindowIsSuffix(s, history, g);
    hide WindowFits;
    var anchor: nat := 0;
    frontier' := frontier;
    if out.distanceDeltaM != 0.0 {
      anchor, frontier' := AnchorPosition(history, g), |track|;
      var i := AnchorIndex(g.window);
      assert Unmarked(g.window[i]).raw == Unmarked(track[|track| - |g.window|..][i]).raw;
      assert track[|track| - |g.window|..][i] == track[anchor];
    }
    hide SameFixes, Unmarked;
    anchors' := anchors + [anchor];
    PushFrontier(s, history, g, out, frontier, frontier', start);
    PushKeepsCredits(s, history, g.accepted, anchors, out, anchor, start);
    hide CreditsFit, FrontierFits;
  }

  lemma PushFrontier(s: Setup, history: seq<ProcessedPoint>, g: Progress, out: ProcessedPoint, frontier: nat,
                     frontier': nat, start: nat)
    requires s.cfg.stationaryWindowSec >= 0 && |g.window| <= |Track(history, g.accepted)|
    requires g.window == [] ==> Track(history, g.accepted) == []
    requires FrontierFits(history, g, frontier, start) && 0.0 <= out.distanceDeltaM
    requires if out.distanceDeltaM != 0.0 then Anchors(out) && frontier' == |Track(history, g.accepted)|
             else frontier' == frontier
    ensures FrontierFits(history, Pushed(s, g, out), frontier', start)
  {
    hide AcceptedOnly, Trim, AnchorIndex;
    PushMovesAnchor(s, history, g, out);
    assert Track(history, g.accepted + [out]) == Track(history, g.accepted) + [out];
  }

  lemma StepKeepsCredits(s: Setup, history: seq<ProcessedPoint>, g: Progress, raw: RawPoint, next: Option<RawPoint>,
                         through: Option<Time>, anchors: seq<nat>, frontier: nat, start: nat)
    returns (anchors': seq<nat>, frontier': nat)
    requires IsMetric(s.dist) && s.cfg.stationaryWindowSec >= 0 && WindowFits(s, history, g)
    requires CreditsFit(s, history, g.accepted, anchors, start) && FrontierFits(history, g, frontier, start)
    ensures
      var after := Step(s, g, raw, next, through);
      CreditsFit(s, history, after.accepted, anchors', start) && FrontierFits(history, after, frontier', start)
  {
    var out := ProcessOne(s, g.window, raw, next, through);
    anchors', frontier' := anchors, frontier;
    if !out.isAccepted {
      hide ProcessOne;
      FrontierIgnoresProcessed(history, g, g.processed + [out], frontier, start);
      hide CreditsFit, FrontierFits;
    } else {
      ProcessOneRecords(s, g.window, raw, next, through);
      CreditIsMeasured(s, g.window, raw, next, through);
      hide ProcessOne, CreditsFit, FrontierFits, WindowFits, AnchorIndex, Trim;
      anchors', frontier' := PushCredits(s, history, g, out, anchors, frontier, start);
      var pushed := Pushed(s, g, out);
      if out.isStationary && pushed.window != [] {
        var since := pushed.window[0].recordedAt;
        MarkKeepsCredits(s, history, pushed.accepted, anchors', since, start);
        MarkKeepsFrontier(history, pushed, since, frontier', start);
      }
    }
  }

  lemma FrontierIgnoresProcessed(history: seq<ProcessedPoint>, g: Progress, processed: seq<ProcessedPoint>,
                                 frontier: nat, start: nat)
    requires FrontierFits(history, g, frontier, start)
    ensures FrontierFits(history, g.(processed := processed), frontier, start)
  {
  }

  // Where in the history the first credit of a batch is measured from.
  function StartOf(history: seq<ProcessedPoint>): nat {
    if AcceptedOnly(history) == [] then 0 else AnchorIndex(AcceptedOnly(history))
  }

  lemma {:induction false} StepsKeepCredits(s: Setup, history: seq<ProcessedPoint>, points: seq<RawPoint>,
                                            through: Option<Time>, n: nat)
    returns (anchors: seq<nat>, frontier: nat)
    requires IsMetric(s.dist) && InputFits(s, history) && n <= |points|
    ensures
      var g := Steps(s, history, points, through, n);
      CreditsFit(s, history, g.accepted, anchors, StartOf(history))
          && FrontierFits(history, g, frontier, StartOf(history))
  {
    if n == 0 {
      anchors, frontier := [], StartOf(history);
    } else {
      hide Step, CreditsFit, FrontierFits, WindowFits, IsMetric, AcceptedOnly, NonDecreasing;
      var g := Steps(s, history, points, through, n - 1);
      anchors, frontier := StepsKeepCredits(s, history, points, through, n - 1);
      StepsWindowFits(s, history, points, through, n - 1);
      anchors, frontier := StepKeepsCredits(s, history, g, points[n - 1], NextOf(points, n - 1), through, anchors,
          frontier, StartOf(history));
    }
  }

  // ---- speed ----

  ghost predicate SpeedFits(s: Setup, track: seq<ProcessedPoint>) {
    forall i :: 0 < i < |track| ==> WithinSpeed(s, track[i - 1], track[i])
  }

  lemma StepKeepsSpeed(s: Setup, history: seq<ProcessedPoint>, g: Progress, raw: RawPoint, next: Option<RawPoint>,
                       through: Option<Time>)
    requires s.cfg.stationaryWindowSec >= 0 && CeilingsFit(s.cfg)
    requires WindowFits(s, history, g) && SpeedFits(s, Track(history, g.accepted))
    ensures SpeedFits(s, Track(history, Step(s, g, raw, next, through).accepted))
  {
    hide ProcessOne, Trim, WindowFits, AcceptedOnly, SpeedFits, Track, CeilingsFit, WithinSpeed;
    var out := ProcessOne(s, g.window, raw, next, through);
    if out.isAccepted {
      ProcessOneRecords(s, g.window, raw, next, through);
      NewIsWithinSpeed(s, history, g, raw, next, through);
      SpeedFitsOneMore(s, history, g.accepted, out);
      var pushed := Pushed(s, g, out);
      if out.isStationary && pushed.window != [] {
        MarksKeepSpeed(s, history, pushed.accepted, pushed.window[0].recordedAt);
      }
    }
  }

  lemma SpeedFitsOneMore(s: Setup, history: seq<ProcessedPoint>, accepted: seq<ProcessedPoint>, out: ProcessedPoint)
    requires SpeedFits(s, Track(history, accepted))
    requires
      var track := Track(history, accepted);
      track != [] ==> WithinSpeed(s, track[|track| - 1], out)
    ensures SpeedFits(s, Track(history, accepted + [out]))
  {
    assert Track(history, accepted + [out]) == Track(history, accepted) + [out];
  }

  lemma NewIsWithinSpeed(s: Setup, history: seq<ProcessedPoint>, g: Progress, raw: RawPoint, next: Option<RawPoint>,
                         through: Option<Time>)
    requires s.cfg.stationaryWindowSec >= 0 && CeilingsFit(s.cfg) && WindowFits(s, history, g)
    requires ProcessOne(s, g.window, raw, next, through).isAccepted
    ensures
      var track := Track(history, g.accepted);
      track != [] ==> WithinSpeed(s, track[|track| - 1], ProcessOne(s, g.window, raw, next, through))
  {
    hide *;
    WindowHoldsLast(s, history, g);
    if g.window != [] {
      AcceptedIsWithinSpeed(s, g.window, raw, next, through);
      LastIsWithinSpeed(s, g.window, Track(history, g.accepted), ProcessOne(s, g.window, raw, next, through));
    }
  }

  lemma LastIsWithinSpeed(s: Setup, window: seq<ProcessedPoint>, track: seq<ProcessedPoint>, out: ProcessedPoint)
    requires window != [] && track != [] && Unmarked(window[|window| - 1]) == Unmarked(track[|track| - 1])
    requires WithinSpeed(s, window[|window| - 1], out)
    ensures WithinSpeed(s, track[|track| - 1], out)
  {
    SpeedIgnoresMarks(s, window[|window| - 1], track[|track| - 1], out);
  }

  lemma SpeedIgnoresMarks(s: Setup, p: ProcessedPoint, q: ProcessedPoint, out: ProcessedPoint)
    requires Unmarked(p) == Unmarked(q) && WithinSpeed(s, p, out)
    ensures WithinSpeed(s, q, out)
  {
    assert Unmarked(p).raw == Unmarked(q).raw && Unmarked(p).recordedAt == Unmarked(q).recordedAt;
  }

  lemma MarksKeepSpeed(s: Setup, history: seq<ProcessedPoint>, accepted: seq<ProcessedPoint>, since: Time)
    requires SpeedFits(s, Track(history, accepted))
    ensures SpeedFits(s, Track(history, MarkFrom(accepted, since)))
  {
    hide AcceptedOnly;
    var a, b := Track(history, MarkFrom(accepted, since)), Track(history, accepted);
    assert |a| == |b| && forall i :: 0 <= i < |a| ==> a[i].raw == b[i].raw && a[i].recordedAt == b[i].recordedAt;
  }

  lemma {:induction false} StepsKeepSpeed(s: Setup, history: seq<ProcessedPoint>, points: seq<RawPoint>,
                                          through: Option<Time>, n: nat)
    requires InputFits(s, history) && CeilingsFit(s.cfg) && SpeedFits(s, AcceptedOnly(history)) && n <= |points|
    ensures SpeedFits(s, Track(history, Steps(s, history, points, through, n).accepted))
  {
    hide Step, SpeedFits, WindowFits, AcceptedOnly, NonDecreasing;
    if n == 0 {
      assert Track(history, []) == AcceptedOnly(history);
    } else {
      StepsKeepSpeed(s, history, points, through, n - 1);
      StepsWindowFits(s, history, points, through, n - 1);
      hide Track;
      StepKeepsSpeed(s, history, Steps(s, history, points, through, n - 1), points[n - 1], NextOf(points, n - 1),
          through);
    }
  }

  lemma ReachAdds(v: real, a: int, b: int)
    ensures Reach(v, a) + Reach(v, b) == Reach(v, a + b)
  {
    assert InSeconds(a) + InSeconds(b) == InSeconds(a + b);
    var x, y := InSeconds(a), InSeconds(b);
    assert v * x + v * y == v * (x + y);
  }

  lemma ReachGrows(v: real, a: int, b: int)
    requires 0.0 <= v && a <= b
    ensures Reach(v, a) <= Reach(v, b)
  {
    var x, y := InSeconds(a), InSeconds(b);
    assert x <= y;
    assert v * x <= v * y;
  }

  lemma ReachOfNothing(v: real)
    ensures Reach(v, 0) == 0.0
  {
  }

  lemma Detour(dist: Distance, p: GeoPoint, q: GeoPoint, r: GeoPoint)
    requires IsMetric(dist)
    ensures dist(p, r) <= dist(p, q) + dist(q, r)
  {
  }

  // Between any two points of the track the device moved no faster than the ceiling.
  lemma {:induction false} StraightLine(s: Setup, track: seq<ProcessedPoint>, i: nat, j: nat)
    requires IsMetric(s.dist) && SpeedFits(s, track) && i <= j < |track|
    ensures s.dist(track[i].raw, track[j].raw)
            <= Reach(s.cfg.vehicleMaxSpeedMps, track[j].recordedAt - track[i].recordedAt)
  {
    hide Reach;
    if i == j {
      ReachOfNothing(s.cfg.vehicleMaxSpeedMps);
      assert s.dist(track[i].raw, track[i].raw) == 0.0;
    } else {
      StraightLine(s, track, i, j - 1);
      Detour(s.dist, track[i].raw, track[j - 1].raw, track[j].raw);
      hide IsMetric;
      assert WithinSpeed(s, track[j - 1], track[j]);
      ReachAdds(s.cfg.vehicleMaxSpeedMps, track[j - 1].recordedAt - track[i].recordedAt,
               track[j].recordedAt - track[j - 1].recordedAt);
    }
  }

  function TotalDistance(points: seq<ProcessedPoint>): real {
    if points == [] then 0.0
    else TotalDistance(points[..|points| - 1]) + points[|points| - 1].distanceDeltaM
  }

  // Track position of the last of the first m accepted points that was credited, or 0.
  function LastCredit(history: seq<ProcessedPoint>, accepted: seq<ProcessedPoint>, m: nat): nat
    requires m <= |accepted|
  {
    if m == 0 then 0
    else if accepted[m - 1].distanceDeltaM > 0.0 then |AcceptedOnly(history)| + m - 1
    else LastCredit(history, accepted, m - 1)
  }

  lemma {:induction false} LastCreditIsBehind(s: Setup, history: seq<ProcessedPoint>, accepted: seq<ProcessedPoint>,
                                              anchors: seq<nat>, m: nat, k: nat, start: nat)
    requires CreditsFit(s, history, accepted, anchors, start) && m <= k < |accepted| && accepted[k].distanceDeltaM > 0.0
    ensures LastCredit(history, accepted, m) <= anchors[k]
  {
    hide AcceptedOnly;
    if m > 0 && accepted[m - 1].distanceDeltaM <= 0.0 {
      LastCreditIsBehind(s, history, accepted, anchors, m - 1, k, start);
    }
  }

  lemma {:induction false} CreditsAreBounded(s: Setup, history: seq<ProcessedPoint>, accepted: seq<ProcessedPoint>,
                                             anchors: seq<nat>, m: nat, start: nat)
    requires IsMetric(s.dist) && 0.0 <= s.cfg.vehicleMaxSpeedMps
    requires CreditsFit(s, history, accepted, anchors, start)
    requires SpeedFits(s, Track(history, accepted)) && NonDecreasing(Track(history, accepted))
    requires m <= |accepted| && accepted != []
    ensures LastCredit(history, accepted, m) < |Track(history, accepted)|
    ensures
      var track := Track(history, accepted);
      TotalDistance(accepted[..m]) <=
        Reach(s.cfg.vehicleMaxSpeedMps, track[LastCredit(history, accepted, m)].recordedAt - track[0].recordedAt)
  {
    var track, v := Track(history, accepted), s.cfg.vehicleMaxSpeedMps;
    hide AcceptedOnly, SpeedFits, NonDecreasing, IsMetric, Reach;
    if m == 0 {
      ReachOfNothing(v);
    } else {
      var k, front := m - 1, LastCredit(history, accepted, m - 1);
      CreditsAreBounded(s, history, accepted, anchors, k, start);
      assert accepted[..m][..k] == accepted[..k];
      assert CreditFits(s, history, accepted, anchors, k);
      if accepted[k].distanceDeltaM > 0.0 {
        var anchor, here := anchors[k], |AcceptedOnly(history)| + k;
        assert track[here] == accepted[k];
        LastCreditIsBehind(s, history, accepted, anchors, k, k, start);
        hide CreditsFit;
        NonDecreasingPairs(track, front, anchor);
        StraightLine(s, track, anchor, here);
        ReachGrows(v, track[front].recordedAt - track[0].recordedAt, track[anchor].recordedAt - track[0].recordedAt);
        ReachAdds(v, track[anchor].recordedAt - track[0].recordedAt, track[here].recordedAt - track[anchor].recordedAt);
      }
    }
  }

  // The credited distance of a batch never exceeds the vehicle ceiling times the time from
  // the earliest history or accepted point to the last accepted one, and its credits are
  // measured over intervals of the track that do not overlap.
  lemma {:induction false} SpeedBound(s: Setup, history: seq<ProcessedPoint>, raw: seq<RawPoint>,
                                      through: Option<Time>) returns (anchors: seq<nat>)
    requires IsMetric(s.dist) && InputFits(s, history) && CeilingsFit(s.cfg) && 0.0 <= s.cfg.vehicleMaxSpeedMps
    requires SpeedFits(s, AcceptedOnly(history))
    ensures
      var accepted := Pipeline(s, history, raw, through).accepted;
      var track := Track(history, accepted);
      && CreditsFit(s, history, accepted, anchors, StartOf(history))
      && SpeedFits(s, track)
      && (accepted != [] ==>
            TotalDistance(accepted) <=
              Reach(s.cfg.vehicleMaxSpeedMps, accepted[|accepted| - 1].recordedAt - track[0].recordedAt))
  {
    var points := Sort(RawBefore, raw);
    var accepted := Pipeline(s, history, raw, through).accepted;
    var track := Track(history, accepted);
    hide Steps, AcceptedOnly, MarksFit, Reach, CreditsFit, SpeedFits, FrontierFits, IsMetric, WindowFits, AcceptedFits;
    var frontier: nat;
    anchors, frontier := StepsKeepCredits(s, history, points, through, |points|);
    StepsFit(s, history, points, through, |points|);
    StepsKeepSpeed(s, history, points, through, |points|);
    TrackIsSorted(s, history, Pipeline(s, history, raw, through), through);
    hide Shape, TimesFit;
    if accepted != [] {
      CreditsAreBounded(s, history, accepted, anchors, |accepted|, StartOf(history));
      assert accepted[..|accepted|] == accepted;
      var front := LastCredit(history, accepted, |accepted|);
      NonDecreasingPairs(track, front, |track| - 1);
      ReachGrows(s.cfg.vehicleMaxSpeedMps, track[front].recordedAt - track[0].recordedAt,
                track[|track| - 1].recordedAt - track[0].recordedAt);
    }
  }
}
