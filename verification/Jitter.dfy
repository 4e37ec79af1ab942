// When a move is taken for noise: a point is credited with its whole distance from its anchor
// or with nothing, and which of the two depends on how far both fixes can be trusted.
module Jitter {
  import opened Domain
  import opened Sorting
  import opened Noise
  import opened NoiseOutput
  import opened NoiseDistance

  // Nearer than the smallest radius, or than both the mean accuracy and the largest radius.
  predicate Uncertain(cfg: NoiseConfig, distance: real, accuracy: real, other: real) {
    || distance < cfg.noiseMinRadiusM
    || (distance < (accuracy + other) / 2.0 && distance < cfg.noiseMaxRadiusM)
  }

  // The a-th point is the last before the k-th that is neither jitter nor stationary. Only when
  // the sliding window holds no such point is it the previous one, whatever that is; and what is
  // stationary now may have been marked later.
  ghost predicate IsAnchorOf(s: Setup, track: seq<ProcessedPoint>, k: nat, a: nat)
    requires k < |track|
  {
    && a < k
    && (forall j :: a < j < k ==> !Anchors(track[j]))
    && (|| Anchors(track[a]) || track[a].isStationary
        || (a == k - 1
            && forall j :: 0 <= j < k
                         && track[j].recordedAt >= track[k - 1].recordedAt - Seconds(s.cfg.stationaryWindowSec)
                 ==> !Anchors(track[j])))
  }

  // What the k-th point is credited with, measured from the a-th.
  ghost predicate CreditedFrom(s: Setup, track: seq<ProcessedPoint>, k: nat, a: nat)
    requires k < |track|
  {
    var p := track[k];
    if p.isStationary then p.distanceDeltaM == 0.0
    else if k == 0 then p.distanceDeltaM == 0.0 && p.noiseReason == NoNoise
    else if p.recordedAt - track[k - 1].recordedAt > Seconds(s.cfg.segmentMaxGapSec) then
      p.distanceDeltaM == 0.0 && p.noiseReason == SegmentBreak
    else
      && IsAnchorOf(s, track, k, a)
      && var d := s.dist(track[a].raw, p.raw);
         if Uncertain(s.cfg, d, track[a].accuracyM, p.accuracyM)
         then p.distanceDeltaM == 0.0 && p.noiseReason == NoiseReason.Jitter
         else p.distanceDeltaM == d && p.noiseReason == NoNoise
  }

  ghost predicate AllCredited(s: Setup, history: seq<ProcessedPoint>, accepted: seq<ProcessedPoint>,
                              anchors: seq<nat>) {
    && |anchors| == |accepted|
    && forall k :: 0 <= k < |accepted| ==>
         CreditedFrom(s, Track(history, accepted), |AcceptedOnly(history)| + k, anchors[k])
  }

  // ---- one point ----

  lemma {:induction false} LastAnchorIs(points: seq<ProcessedPoint>)
    ensures LastAnchor(points) >= 0 ==> Anchors(points[LastAnchor(points)])
    ensures forall j :: LastAnchor(points) < j < |points| ==> !Anchors(points[j])
  {
    if points != [] && !Anchors(points[|points| - 1]) {
      LastAnchorIs(points[..|points| - 1]);
    }
  }

  // The distance decides against the mean accuracy, kept between the two radii.
  lemma ClampDecides(cfg: NoiseConfig, distance: real, accuracy: real, other: real)
    ensures distance < Clamp((accuracy + other) / 2.0, cfg.noiseMinRadiusM, cfg.noiseMaxRadiusM)
            <==> Uncertain(cfg, distance, accuracy, other)
  {
  }

  lemma OutIsCredited(s: Setup, window: seq<ProcessedPoint>, raw: RawPoint, next: Option<RawPoint>,
                      through: Option<Time>)
    requires ProcessOne(s, window, raw, next, through).isAccepted
    ensures
      var p := ProcessOne(s, window, raw, next, through);
      && p.raw == raw.position && p.accuracyM == raw.accuracyM && p.recordedAt == raw.recordedAt
      && if p.isStationary then p.distanceDeltaM == 0.0 && p.noiseReason == Stationary
         else if window == [] then p.distanceDeltaM == 0.0 && p.noiseReason == NoNoise
         else if p.recordedAt - window[|window| - 1].recordedAt > Seconds(s.cfg.segmentMaxGapSec) then
           p.distanceDeltaM == 0.0 && p.noiseReason == SegmentBreak
         else
           var anchor := window[AnchorIndex(window)];
           var d := s.dist(anchor.raw, p.raw);
           if Uncertain(s.cfg, d, anchor.accuracyM, p.accuracyM)
           then p.distanceDeltaM == 0.0 && p.noiseReason == NoiseReason.Jitter
           else p.distanceDeltaM == d && p.noiseReason == NoNoise
  {
    if window != [] {
      ClampDecides(s.cfg, s.dist(window[AnchorIndex(window)].raw, raw.position),
                   window[AnchorIndex(window)].accuracyM, raw.accuracyM);
    }
    hide DetectStationary, DetectOutlier, Trim, Clamp, AnchorIndex, Uncertain;
  }

  // ---- the window and the track ----

  // A track point differs from its image in the window only by having been marked since.
  ghost predicate ReasonsFit(history: seq<ProcessedPoint>, g: Progress) {
    var track := Track(history, g.accepted);
    && |g.window| <= |track|
    && forall i :: 0 <= i < |g.window| ==> SameReason(g.window[i], track[|track| - |g.window| + i])
  }

  predicate SameReason(inWindow: ProcessedPoint, inTrack: ProcessedPoint) {
    || inTrack.noiseReason == inWindow.noiseReason
    || (inTrack.isStationary && inTrack.noiseReason == Stationary)
  }

  lemma {:induction false} DroppedAreOlder(points: seq<ProcessedPoint>, cutoff: Time, j: nat)
    requires |DropBefore(points, cutoff)| <= |points| && j < |points| - |DropBefore(points, cutoff)|
    ensures points[j].recordedAt < cutoff
  {
    if points != [] && points[0].recordedAt < cutoff && j > 0 {
      DroppedAreOlder(points[1..], cutoff, j - 1);
    }
  }

  // What the window has lost is older than the stationary window before the last point.
  lemma LostIsOld(s: Setup, history: seq<ProcessedPoint>, g: Progress, j: nat)
    requires WindowFits(s, history, g) && |g.window| <= |Track(history, g.accepted)|
    requires j < |Track(history, g.accepted)| - |g.window|
    ensures
      var track := Track(history, g.accepted);
      track[j].recordedAt < track[|track| - 1].recordedAt - Seconds(s.cfg.stationaryWindowSec)
  {
    var track := Track(history, g.accepted);
    hide AcceptedOnly, DropBefore, Unmarked;
    assert g.accepted == [] ==> track == AcceptedOnly(history);
    if g.accepted != [] {
      assert g.accepted[..|g.accepted|] == g.accepted;
      DroppedAreOlder(track, g.accepted[|g.accepted| - 1].recordedAt - Seconds(s.cfg.stationaryWindowSec), j);
    }
  }

  // The anchor found in the window is that of the track.
  lemma WindowAnchorIs(s: Setup, history: seq<ProcessedPoint>, g: Progress, out: ProcessedPoint)
    requires WindowFits(s, history, g) && ReasonsFit(history, g) && g.window != []
    ensures
      var track := Track(history, g.accepted);
      IsAnchorOf(s, track + [out], |track|, |track| - |g.window| + AnchorIndex(g.window))
  {
    hide *;
    var track := Track(history, g.accepted);
    ReasonsAre(history, g);
    forall j | 0 <= j < |track| - |g.window|
      ensures track[j].recordedAt < track[|track| - 1].recordedAt - Seconds(s.cfg.stationaryWindowSec)
    {
      LostIsOld(s, history, g, j);
    }
    AnchorOfWindow(s, g.window, track, out);
  }

  lemma ReasonsAre(history: seq<ProcessedPoint>, g: Progress)
    requires ReasonsFit(history, g)
    ensures
      var track := Track(history, g.accepted);
      && |g.window| <= |track|
      && forall i :: 0 <= i < |g.window| ==> SameReason(g.window[i], track[|track| - |g.window| + i])
  {
    hide AcceptedOnly, SameReason;
  }

  lemma AnchorOfWindow(s: Setup, window: seq<ProcessedPoint>, track: seq<ProcessedPoint>, out: ProcessedPoint)
    requires 0 < |window| <= |track|
    requires forall i :: 0 <= i < |window| ==> SameReason(window[i], track[|track| - |window| + i])
    requires forall j :: 0 <= j < |track| - |window| ==>
               track[j].recordedAt < track[|track| - 1].recordedAt - Seconds(s.cfg.stationaryWindowSec)
    ensures IsAnchorOf(s, track + [out], |track|, |track| - |window| + AnchorIndex(window))
  {
    var lost, i := |track| - |window|, AnchorIndex(window);
    var all := track + [out];
    LastAnchorIs(window);
    hide LastAnchor;
    forall j | 0 <= j < |window| && !Anchors(window[j]) ensures !Anchors(all[lost + j]) {
      assert SameReason(window[j], track[lost + j]);
    }
    assert SameReason(window[i], track[lost + i]);
    forall j | lost + i < j < |track| ensures !Anchors(all[j]) {
      assert !Anchors(window[j - lost]) && all[lost + (j - lost)] == all[j];
    }
    if LastAnchor(window) < 0 {
      forall j | lost <= j < |track| ensures !Anchors(all[j]) {
        assert !Anchors(window[j - lost]) && all[lost + (j - lost)] == all[j];
      }
    }
  }

  lemma SameFix(p: ProcessedPoint, q: ProcessedPoint)
    requires Unmarked(p) == Unmarked(q)
    ensures p.raw == q.raw && p.accuracyM == q.accuracyM && p.recordedAt == q.recordedAt
  {
    assert Unmarked(p).raw == Unmarked(q).raw && Unmarked(p).accuracyM == Unmarked(q).accuracyM;
    assert Unmarked(p).recordedAt == Unmarked(q).recordedAt;
  }

  lemma OutIsCreditedInTrack(s: Setup, history: seq<ProcessedPoint>, g: Progress, raw: RawPoint,
                             next: Option<RawPoint>, through: Option<Time>)
    returns (a: nat)
    requires s.cfg.stationaryWindowSec >= 0 && WindowFits(s, history, g) && ReasonsFit(history, g)
    requires ProcessOne(s, g.window, raw, next, through).isAccepted
    ensures
      var out, track := ProcessOne(s, g.window, raw, next, through), Track(history, g.accepted);
      CreditedFrom(s, track + [out], |track|, a)
  {
    hide *;
    var out, track := ProcessOne(s, g.window, raw, next, through), Track(history, g.accepted);
    a := 0;
    OutIsCredited(s, g.window, raw, next, through);
    WindowHoldsLast(s, history, g);
    if g.window == [] {
      FirstIsCredited(s, track, out);
    } else {
      ReasonsAre(history, g);
      var i := AnchorIndex(g.window);
      a := |track| - |g.window| + i;
      WindowAnchorIs(s, history, g, out);
      SameFix(g.window[|g.window| - 1], track[|track| - 1]);
      WindowFix(s, history, g, i);
      CreditIsFrom(s, g.window, track, out, i, a);
    }
  }

  lemma WindowFix(s: Setup, history: seq<ProcessedPoint>, g: Progress, i: nat)
    requires WindowFits(s, history, g) && i < |g.window| <= |Track(history, g.accepted)|
    ensures
      var p, q := g.window[i], Track(history, g.accepted)[|Track(history, g.accepted)| - |g.window| + i];
      p.raw == q.raw && p.accuracyM == q.accuracyM
  {
    WindowIsSuffix(s, history, g);
    hide WindowFits, Track, Unmarked;
    var track := Track(history, g.accepted);
    assert Unmarked(g.window[i]) == Unmarked(track[|track| - |g.window|..][i]);
    SameFix(g.window[i], track[|track| - |g.window| + i]);
  }

  lemma FirstIsCredited(s: Setup, track: seq<ProcessedPoint>, out: ProcessedPoint)
    requires track == [] && out.distanceDeltaM == 0.0 && (!out.isStationary ==> out.noiseReason == NoNoise)
    ensures CreditedFrom(s, track + [out], |track|, 0)
  {
  }

  lemma CreditIsFrom(s: Setup, window: seq<ProcessedPoint>, track: seq<ProcessedPoint>, out: ProcessedPoint, i: nat,
                     a: nat)
    requires i < |window| && a < |track| && IsAnchorOf(s, track + [out], |track|, a)
    requires window[i].raw == track[a].raw && window[i].accuracyM == track[a].accuracyM
    requires window[|window| - 1].recordedAt == track[|track| - 1].recordedAt
    requires
      var d := s.dist(window[i].raw, out.raw);
      if out.isStationary then out.distanceDeltaM == 0.0
      else if out.recordedAt - window[|window| - 1].recordedAt > Seconds(s.cfg.segmentMaxGapSec) then
        out.distanceDeltaM == 0.0 && out.noiseReason == SegmentBreak
      else if Uncertain(s.cfg, d, window[i].accuracyM, out.accuracyM)
        then out.distanceDeltaM == 0.0 && out.noiseReason == NoiseReason.Jitter
      else out.distanceDeltaM == d && out.noiseReason == NoNoise
    ensures CreditedFrom(s, track + [out], |track|, a)
  {
    hide Uncertain, IsAnchorOf;
    assert (track + [out])[a] == track[a] && (track + [out])[|track|] == out;
    assert (track + [out])[|track| - 1] == track[|track| - 1];
  }

  // ---- what every step keeps ----

  lemma PushKeepsReasons(s: Setup, history: seq<ProcessedPoint>, g: Progress, out: ProcessedPoint)
    requires s.cfg.stationaryWindowSec >= 0 && ReasonsFit(history, g)
    ensures ReasonsFit(history, Pushed(s, g, out))
  {
    hide AcceptedOnly, Trim;
    var dropped := PushedWindow(s, history, g, out);
    var pushed := Pushed(s, g, out);
    var track, after := Track(history, g.accepted), Track(history, pushed.accepted);
    hide Track, Pushed;
    forall i | 0 <= i < |pushed.window| ensures SameReason(pushed.window[i], after[|after| - |pushed.window| + i]) {
      assert pushed.window[i] == (g.window + [out])[dropped + i];
      if dropped + i < |g.window| {
        assert SameReason(g.window[dropped + i], track[|track| - |g.window| + (dropped + i)]);
      }
    }
  }

  lemma MarkKeepsReasons(history: seq<ProcessedPoint>, g: Progress, since: Time)
    requires ReasonsFit(history, g)
    ensures ReasonsFit(history, MarkedBack(g, since))
  {
    hide AcceptedOnly;
    var track, after := Track(history, g.accepted), Track(history, MarkedBack(g, since).accepted);
    forall i | 0 <= i < |g.window| ensures SameReason(g.window[i], after[|after| - |g.window| + i]) {
      assert SameReason(g.window[i], track[|track| - |g.window| + i]);
    }
  }

  // Marked points look like this.
  ghost predicate OnlyMarked(before: seq<ProcessedPoint>, after: seq<ProcessedPoint>) {
    |before| == |after| && forall i :: 0 <= i < |before| ==>
      || after[i] == before[i]
      || (&& after[i].isStationary && after[i].noiseReason == Stationary && after[i].distanceDeltaM == 0.0
          && Unmarked(after[i]) == Unmarked(before[i]))
  }

  lemma MarkingOnlyMarks(history: seq<ProcessedPoint>, accepted: seq<ProcessedPoint>, since: Time)
    ensures OnlyMarked(Track(history, accepted), Track(history, MarkFrom(accepted, since)))
  {
    hide AcceptedOnly;
  }

  lemma MarkKeepsCredit(s: Setup, before: seq<ProcessedPoint>, after: seq<ProcessedPoint>, k: nat, a: nat)
    requires OnlyMarked(before, after) && k < |before| && CreditedFrom(s, before, k, a)
    ensures CreditedFrom(s, after, k, a)
  {
    hide Uncertain;
    forall i | 0 <= i < |before|
      ensures after[i].recordedAt == before[i].recordedAt && after[i].raw == before[i].raw
      ensures after[i].accuracyM == before[i].accuracyM && (!Anchors(before[i]) ==> !Anchors(after[i]))
    {
      assert Unmarked(after[i]) == Unmarked(before[i]);
      SameFix(after[i], before[i]);
    }
    hide Unmarked, OnlyMarked, IsAnchorOf;
    if after[k] == before[k] && a < k && IsAnchorOf(s, before, k, a) {
      MarkKeepsAnchor(s, before, after, k, a);
    }
    assert OnlyMarked(before, after);
    MarkedOrSame(before, after, k);
  }

  lemma MarkedOrSame(before: seq<ProcessedPoint>, after: seq<ProcessedPoint>, k: nat)
    requires OnlyMarked(before, after) && k < |before|
    ensures after[k] == before[k] || (after[k].isStationary && after[k].distanceDeltaM == 0.0)
  {
    hide Unmarked;
  }

  lemma MarkKeepsAnchor(s: Setup, before: seq<ProcessedPoint>, after: seq<ProcessedPoint>, k: nat, a: nat)
    requires OnlyMarked(before, after) && k < |before| && IsAnchorOf(s, before, k, a)
    requires forall i :: 0 <= i < |before| ==>
               after[i].recordedAt == before[i].recordedAt && (!Anchors(before[i]) ==> !Anchors(after[i]))
    ensures IsAnchorOf(s, after, k, a)
  {
    hide Unmarked;
  }

  lemma StepKeepsCredited(s: Setup, history: seq<ProcessedPoint>, g: Progress, raw: RawPoint, next: Option<RawPoint>,
                          through: Option<Time>, anchors: seq<nat>)
    returns (more: seq<nat>)
    requires s.cfg.stationaryWindowSec >= 0 && WindowFits(s, history, g) && ReasonsFit(history, g)
    requires AllCredited(s, history, g.accepted, anchors)
    ensures
      var after := Step(s, g, raw, next, through);
      AllCredited(s, history, after.accepted, more) && ReasonsFit(history, after)
  {
    hide ProcessOne, AllCredited, ReasonsFit, WindowFits, Trim, CreditedFrom, Track, AcceptedOnly, MarkFrom;
    var out := ProcessOne(s, g.window, raw, next, through);
    more := anchors;
    SameListsSameReasons(history, g, Step(s, g, raw, next, through));
    if out.isAccepted {
      var a := OutIsCreditedInTrack(s, history, g, raw, next, through);
      ProcessOneRecords(s, g.window, raw, next, through);
      more := anchors + [a];
      PushKeepsCredited(s, history, g.accepted, out, anchors, a);
      PushKeepsReasons(s, history, g, out);
      var pushed := Pushed(s, g, out);
      if out.isStationary && pushed.window != [] {
        var since := pushed.window[0].recordedAt;
        MarkKeepsCredited(s, history, pushed.accepted, more, since);
        MarkKeepsReasons(history, pushed, since);
      }
    }
  }

  lemma SameListsSameReasons(history: seq<ProcessedPoint>, before: Progress, after: Progress)
    requires ReasonsFit(history, before)
    ensures after.window == before.window && after.accepted == before.accepted ==> ReasonsFit(history, after)
  {
    hide Track, SameReason;
  }

  lemma PushKeepsCredited(s: Setup, history: seq<ProcessedPoint>, accepted: seq<ProcessedPoint>, out: ProcessedPoint,
                          anchors: seq<nat>, a: nat)
    requires AllCredited(s, history, accepted, anchors)
    requires CreditedFrom(s, Track(history, accepted) + [out], |Track(history, accepted)|, a)
    ensures AllCredited(s, history, accepted + [out], anchors + [a])
  {
    hide AcceptedOnly;
    var track, h := Track(history, accepted), |AcceptedOnly(history)|;
    assert Track(history, accepted + [out]) == track + [out];
    forall k | 0 <= k < |accepted + [out]| ensures CreditedFrom(s, track + [out], h + k, (anchors + [a])[k]) {
      if k < |accepted| {
        assert CreditedFrom(s, track, h + k, anchors[k]);
        MoreTrackKeepsCredit(s, track, out, h + k, anchors[k]);
      }
    }
    hide CreditedFrom, Track;
  }

  lemma MoreTrackKeepsCredit(s: Setup, track: seq<ProcessedPoint>, out: ProcessedPoint, k: nat, a: nat)
    requires k < |track| && CreditedFrom(s, track, k, a)
    ensures CreditedFrom(s, track + [out], k, a)
  {
    hide Uncertain;
  }

  lemma MarkKeepsCredited(s: Setup, history: seq<ProcessedPoint>, accepted: seq<ProcessedPoint>, anchors: seq<nat>,
                          since: Time)
    requires AllCredited(s, history, accepted, anchors)
    ensures AllCredited(s, history, MarkFrom(accepted, since), anchors)
  {
    hide AcceptedOnly, OnlyMarked;
    MarkingOnlyMarks(history, accepted, since);
    var before, after, h := Track(history, accepted), Track(history, MarkFrom(accepted, since)),
        |AcceptedOnly(history)|;
    forall k | 0 <= k < |accepted| ensures CreditedFrom(s, after, h + k, anchors[k]) {
      assert CreditedFrom(s, before, h + k, anchors[k]);
      MarkKeepsCredit(s, before, after, h + k, anchors[k]);
    }
    hide CreditedFrom;
  }

  lemma {:induction false} StepsKeepCredited(s: Setup, history: seq<ProcessedPoint>, points: seq<RawPoint>,
                                             through: Option<Time>, n: nat)
    returns (anchors: seq<nat>)
    requires InputFits(s, history) && n <= |points|
    ensures
      var g := Steps(s, history, points, through, n);
      AllCredited(s, history, g.accepted, anchors) && ReasonsFit(history, g)
  {
    hide Step, AllCredited, ReasonsFit, WindowFits;
    if n == 0 {
      anchors := [];
      NothingIsCredited(s, history);
    } else {
      var g := Steps(s, history, points, through, n - 1);
      anchors := StepsKeepCredited(s, history, points, through, n - 1);
      StepsWindowFits(s, history, points, through, n - 1);
      anchors := StepKeepsCredited(s, history, g, points[n - 1], NextOf(points, n - 1), through, anchors);
    }
  }

  lemma NothingIsCredited(s: Setup, history: seq<ProcessedPoint>)
    ensures AllCredited(s, history, [], []) && ReasonsFit(history, Progress(AcceptedOnly(history), [], []))
  {
    hide AcceptedOnly;
    assert Track(history, []) == AcceptedOnly(history);
  }

  // For any batch: an accepted point that is not stationary and continues its segment is
  // credited with its whole distance from its anchor, unless that is within the uncertainty of
  // the two fixes, and then with nothing. All others are credited with nothing.
  lemma {:induction false} CreditsAreExact(s: Setup, history: seq<ProcessedPoint>, raw: seq<RawPoint>,
                                           through: Option<Time>) returns (anchors: seq<nat>)
    requires InputFits(s, history)
    ensures AllCredited(s, history, Pipeline(s, history, raw, through).accepted, anchors)
  {
    var points := Sort(RawBefore, raw);
    hide Steps, AllCredited, ReasonsFit, Sort;
    anchors := StepsKeepCredited(s, history, points, through, |points|);
  }
}
