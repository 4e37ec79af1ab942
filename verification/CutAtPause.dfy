// A cut in a long enough pause never shows, unless a spike stands right before it.
module CutAtPause {
  import opened Domain
  import opened Sorting
  import opened Noise
  import opened NoiseOutput
  import opened NoiseBoundary
  import opened NoiseCut

  // No point for longer than the stationary window and the longest gap within a segment.
  predicate PausesAtCut(c: Cut)
    requires 0 < c.n < |c.points|
  {
    var pause := c.points[c.n].recordedAt - c.points[c.n - 1].recordedAt;
    pause > Seconds(c.s.cfg.stationaryWindowSec) && pause > Seconds(c.s.cfg.segmentMaxGapSec)
  }

  ghost predicate AllBy(points: seq<ProcessedPoint>, at: Time) {
    forall k :: 0 <= k < |points| ==> points[k].recordedAt <= at
  }

  lemma {:induction false} DropsAll(points: seq<ProcessedPoint>, at: Time, cutoff: Time)
    requires AllBy(points, at) && at < cutoff
    ensures DropBefore(points, cutoff) == []
  {
    if points != [] {
      DropsAll(points[1..], at, cutoff);
    }
  }

  lemma {:induction false} DropsAllBut(points: seq<ProcessedPoint>, p: ProcessedPoint, at: Time, cutoff: Time)
    requires AllBy(points, at) && at < cutoff <= p.recordedAt
    ensures DropBefore(points + [p], cutoff) == [p]
  {
    if points == [] {
      assert points + [p] == [p];
    } else {
      assert (points + [p])[1..] == points[1..] + [p];
      DropsAllBut(points[1..], p, at, cutoff);
    }
  }

  // After a pause, only the previous point's place and time matter.
  lemma PauseForgets(s: Setup, window: seq<ProcessedPoint>, raw: RawPoint, at: Time)
    requires window != [] && AllBy(window, at)
    requires raw.recordedAt - at > Seconds(s.cfg.stationaryWindowSec) >= 0
    requires raw.recordedAt - at > Seconds(s.cfg.segmentMaxGapSec)
    ensures Smoothed(s, window, raw) == s.smooth([], raw)
    ensures CreditOf(s, window, raw) == Credit(0.0, SegmentBreak)
    ensures forall out: ProcessedPoint :: Measured(s, window, raw, out) == out.(noiseReason := SegmentBreak)
    ensures forall out: ProcessedPoint :: out.recordedAt == raw.recordedAt ==>
              Trim(window + [out], raw.recordedAt, s.cfg.stationaryWindowSec) == [out]
  {
    DropsAll(window, at, raw.recordedAt - Seconds(s.cfg.segmentMaxGapSec));
    forall out: ProcessedPoint | out.recordedAt == raw.recordedAt
      ensures Trim(window + [out], raw.recordedAt, s.cfg.stationaryWindowSec) == [out]
    {
      DropsAllBut(window, out, at, raw.recordedAt - Seconds(s.cfg.stationaryWindowSec));
    }
    assert window[|window| - 1].recordedAt <= at;
    hide DropBefore;
  }

  // Two windows that both lie before the pause lead to the same point and the same new window.
  lemma PausedAlike(s: Setup, a: seq<ProcessedPoint>, b: seq<ProcessedPoint>, raw: RawPoint, next: Option<RawPoint>,
                    through1: Option<Time>, through2: Option<Time>, at: Time)
    requires a != [] && b != [] && AllBy(a, at) && AllBy(b, at) && EndsAlike(a, b)
    requires raw.recordedAt - at > Seconds(s.cfg.stationaryWindowSec) >= 0
    requires raw.recordedAt - at > Seconds(s.cfg.segmentMaxGapSec)
    requires ProcessOne(s, a, raw, next, through1).isAccepted && ProcessOne(s, b, raw, next, through2).isAccepted
    ensures ProcessOne(s, a, raw, next, through1) == ProcessOne(s, b, raw, next, through2)
    ensures
      var out := ProcessOne(s, a, raw, next, through1);
      && Trim(a + [out], raw.recordedAt, s.cfg.stationaryWindowSec) == [out]
      && Trim(b + [out], raw.recordedAt, s.cfg.stationaryWindowSec) == [out]
  {
    SamePreviousDecidesAlike(s, a, b, raw, next);
    AfterPause(s, a, raw, next, through1, at);
    AfterPause(s, b, raw, next, through2, at);
    hide ProcessOne, Fresh, DetectOutlier, Settled, AllBy, Trim, EndsAlike;
  }

  // A point after a pause is one without history, but for the break and the implied speed.
  lemma AfterPause(s: Setup, window: seq<ProcessedPoint>, raw: RawPoint, next: Option<RawPoint>,
                   through: Option<Time>, at: Time)
    requires window != [] && AllBy(window, at)
    requires raw.recordedAt - at > Seconds(s.cfg.stationaryWindowSec) >= 0
    requires raw.recordedAt - at > Seconds(s.cfg.segmentMaxGapSec)
    requires ProcessOne(s, window, raw, next, through).isAccepted
    ensures
      var out := ProcessOne(s, window, raw, next, through);
      && out == Settled(s, [], Fresh(raw).(impliedSpeedMps := DetectOutlier(s, Last(window), raw, next).impliedSpeed,
                                           filtered := Some(s.smooth([], raw)), isAccepted := true,
                                           noiseReason := SegmentBreak))
      && Trim(window + [out], raw.recordedAt, s.cfg.stationaryWindowSec) == [out]
  {
    PauseForgets(s, window, raw, at);
    ProcessOneSettles(s, window, raw, next, through);
    ProcessOneRecords(s, window, raw, next, through);
    var plain := AcceptedAsIs(s, window, raw, next, through);
    SettlesAlone(s, window, plain);
    hide ProcessOne, DropBefore, Measured, DetectOutlier, DetectStationary, AllBy, CreditOf, Trim, Settled;
  }

  lemma SettlesAlone(s: Setup, window: seq<ProcessedPoint>, p: ProcessedPoint)
    requires Trim(window + [p], p.recordedAt, s.cfg.stationaryWindowSec) == [p] && s.cfg.stationaryWindowSec >= 0
    ensures Settled(s, window, p) == Settled(s, [], p)
  {
    assert [] + [p] == [p];
    assert Trim([p], p.recordedAt, s.cfg.stationaryWindowSec) == [p];
    hide DetectStationary;
  }

  // Up to their windows, the runs agree from the first point accepted after the pause on.
  ghost predicate Agree(c: Cut, i: nat)
    requires 0 < c.n <= i <= |c.points|
  {
    var a, b := OneAt(c, i).window, TwoAt(c, i).window;
    a == b || (a != [] && b != [] && AllBy(a, c.points[c.n - 1].recordedAt) && AllBy(b, c.points[c.n - 1].recordedAt))
  }

  lemma TimesAreSorted(c: Cut, i: nat, j: nat)
    requires Fits(c) && i <= j < |c.points|
    ensures c.points[i].recordedAt <= c.points[j].recordedAt
  {
    assert i < j ==> !RawBefore(c.points[j], c.points[i]);
  }

  // Everything the first batch accepted was recorded before the pause.
  lemma FirstIsBefore(c: Cut)
    requires Fits(c)
    ensures AllBy(First(c).accepted, c.points[c.n - 1].recordedAt)
  {
    hide Pipeline, Sort, Steps, Sorted, RawBefore, InputFits, Increasing;
    OutputInOrder(c.s, c.history, c.points[..c.n], c.through);
    FitsSorted(c);
    var f := First(c);
    forall k | 0 <= k < |f.accepted| ensures f.accepted[k].recordedAt <= c.points[c.n - 1].recordedAt {
      assert f.accepted[k] in f.processed;
      var i :| 0 <= i < |f.processed| && f.processed[i] == f.accepted[k];
      assert Records(f.processed[i], c.points[..c.n][i]);
      TimesAreSorted(c, i, c.n - 1);
    }
  }

  lemma FitsSorted(c: Cut)
    requires Fits(c)
    ensures Sort(RawBefore, c.points[..c.n]) == c.points[..c.n] && InputFits(c.s, c.history) && 0 < c.n < |c.points|
  {
    hide RawBefore;
    SortedSlices(c.points, c.n);
    SortOfSorted(RawBefore, c.points[..c.n]);
  }

  lemma {:induction false} NothingAcceptedYet(s: Setup, history: seq<ProcessedPoint>, points: seq<RawPoint>,
                                              through: Option<Time>, i: nat)
    requires i <= |points| && Steps(s, history, points, through, i).accepted == []
    ensures Steps(s, history, points, through, i).window == AcceptedOnly(history)
  {
    if i > 0 {
      StepCarries(s, Steps(s, history, points, through, i - 1), points[i - 1], NextOf(points, i - 1), through);
      NothingAcceptedYet(s, history, points, through, i - 1);
    }
    hide ProcessOne, Trim;
  }

  lemma TrackIsBy(track: seq<ProcessedPoint>, at: Time)
    requires NonDecreasing(track) && (track != [] ==> track[|track| - 1].recordedAt <= at)
    ensures AllBy(track, at)
  {
    forall k | 0 <= k < |track| ensures track[k].recordedAt <= at {
      NonDecreasingPairs(track, k, |track| - 1);
    }
  }

  lemma WindowIsBy(s: Setup, history: seq<ProcessedPoint>, g: Progress, at: Time)
    requires WindowFits(s, history, g) && AllBy(Track(history, g.accepted), at)
    ensures AllBy(g.window, at)
  {
    var track := Track(history, g.accepted);
    hide AcceptedOnly, DropBefore;
    if g.accepted == [] {
      assert track == AcceptedOnly(history);
    } else {
      assert g.accepted[..|g.accepted|] == g.accepted;
      DropIsSuffix(track, g.accepted[|g.accepted| - 1].recordedAt - Seconds(s.cfg.stationaryWindowSec));
    }
    forall k | 0 <= k < |g.window| ensures g.window[k].recordedAt <= at {
      assert Unmarked(g.window[k]).recordedAt == g.window[k].recordedAt;
    }
  }

  lemma ReloadedIsBy(c: Cut)
    requires Fits(c) && First(c).accepted != []
    ensures AllBy(Reloaded(c), c.points[c.n - 1].recordedAt) && Reloaded(c) != []
  {
    ReloadedFits(c);
    FirstIsBefore(c);
    FitsBounds(c);
    hide First, Fits, AcceptedOnly, Increasing;
    assert Reloaded(c)[|Reloaded(c)| - 1] == First(c).accepted[|First(c).accepted| - 1];
    TrackIsBy(Reloaded(c), c.points[c.n - 1].recordedAt);
  }

  lemma AgreeAtCut(c: Cut)
    requires Fits(c) && !SpikeAtCut(c)
    ensures Agree(c, c.n)
  {
    hide Steps, First, Fits, AcceptedOnly, SpikeAtCut, AllBy, WindowFits, InputFits, Watermark, EndsAlike;
    FitsBounds(c);
    FirstIsPrefix(c);
    ReloadedFits(c);
    TwoStarts(c);
    if First(c).accepted == [] {
      NothingAcceptedYet(c.s, c.history, c.points, c.through, c.n);
      assert AcceptedOnly(c.history) + [] == AcceptedOnly(c.history);
    } else {
      ReloadedIsBy(c);
      FitsInput(c);
      StepsWindowFits(c.s, c.history, c.points, c.through, c.n);
      WindowIsBy(c.s, c.history, OneAt(c, c.n), c.points[c.n - 1].recordedAt);
      RunsStayAligned(c, c.n);
      PreviousAlike(c, c.n);
      EndsTogether(OneAt(c, c.n).window, TwoAt(c, c.n).window);
    }
  }

  lemma FitsInput(c: Cut)
    requires Fits(c)
    ensures InputFits(c.s, c.history) && c.s.cfg.stationaryWindowSec >= 0
  {
  }

  lemma EndsTogether(a: seq<ProcessedPoint>, b: seq<ProcessedPoint>)
    requires EndsAlike(a, b)
    ensures a == [] <==> b == []
  {
  }

  // The pause is over at every later point.
  lemma PauseIsOver(c: Cut, i: nat)
    requires Fits(c) && PausesAtCut(c) && c.n <= i < |c.points|
    ensures
      var pause := c.points[i].recordedAt - c.points[c.n - 1].recordedAt;
      && pause > Seconds(c.s.cfg.stationaryWindowSec) >= 0 && pause > Seconds(c.s.cfg.segmentMaxGapSec)
  {
    TimesAreSorted(c, c.n, i);
    FitsInput(c);
    hide Sorted, InputFits, DistinctIds;
  }

  // The same window leads to the same accepted point, whatever the watermark.
  lemma SameWindowAlike(s: Setup, window: seq<ProcessedPoint>, raw: RawPoint, next: Option<RawPoint>,
                        through1: Option<Time>, through2: Option<Time>)
    requires ProcessOne(s, window, raw, next, through1).isAccepted
    requires ProcessOne(s, window, raw, next, through2).isAccepted
    ensures ProcessOne(s, window, raw, next, through1) == ProcessOne(s, window, raw, next, through2)
  {
    ProcessOneSettles(s, window, raw, next, through1);
    ProcessOneSettles(s, window, raw, next, through2);
    hide ProcessOne, Settled, Measured, Trim, DetectOutlier;
  }

  lemma OutsAgree(c: Cut, i: nat)
    requires Fits(c) && !SpikeAtCut(c) && PausesAtCut(c) && c.n <= i < |c.points| && Agree(c, i)
    ensures OneOut(c, i).isAccepted == TwoOut(c, i).isAccepted
    ensures OneOut(c, i).isAccepted ==>
              && OneOut(c, i) == TwoOut(c, i)
              && Trim(OneAt(c, i).window + [OneOut(c, i)], c.points[i].recordedAt, c.s.cfg.stationaryWindowSec)
                 == Trim(TwoAt(c, i).window + [OneOut(c, i)], c.points[i].recordedAt, c.s.cfg.stationaryWindowSec)
  {
    hide Fits, SpikeAtCut, ProcessOne, Trim, OneAt, TwoAt, PausesAtCut, AllBy, EndsAlike, Aligned, Bare, Watermark;
    RunsStayAligned(c, i);
    AcceptAlike(c, i);
    PauseIsOver(c, i);
    PreviousAlike(c, i);
    FitsBounds(c);
    if OneOut(c, i).isAccepted {
      var a, b, raw, next := OneAt(c, i).window, TwoAt(c, i).window, c.points[i], NextOf(c.points, i);
      if a == b {
        SameWindowAlike(c.s, a, raw, next, c.through, Watermark(c));
      } else {
        PausedAlike(c.s, a, b, raw, next, c.through, Watermark(c), c.points[c.n - 1].recordedAt);
      }
    }
  }

  lemma AgreeStep(c: Cut, i: nat)
    requires Fits(c) && !SpikeAtCut(c) && PausesAtCut(c) && c.n <= i < |c.points| && Agree(c, i)
    ensures Agree(c, i + 1)
  {
    hide Fits, SpikeAtCut, ProcessOne, Trim, PausesAtCut, AllBy, OneAt, TwoAt, Watermark, Step;
    OutsAgree(c, i);
    StepsOneMore(c, i);
    StepWindow(c.s, OneAt(c, i), c.points[i], NextOf(c.points, i), c.through);
    StepWindow(c.s, TwoAt(c, i), c.points[i], NextOf(c.points, i), Watermark(c));
  }

  lemma StepWindow(s: Setup, g: Progress, raw: RawPoint, next: Option<RawPoint>, through: Option<Time>)
    ensures
      var out := ProcessOne(s, g.window, raw, next, through);
      Step(s, g, raw, next, through).window
      == if out.isAccepted then Trim(g.window + [out], raw.recordedAt, s.cfg.stationaryWindowSec) else g.window
  {
    hide ProcessOne, Trim;
  }

  lemma {:induction false} RunsAgree(c: Cut, i: nat)
    requires Fits(c) && !SpikeAtCut(c) && PausesAtCut(c) && c.n <= i <= |c.points|
    ensures 0 < c.n && Agree(c, i)
  {
    hide *;
    FitsBounds(c);
    if i == c.n {
      AgreeAtCut(c);
    } else {
      RunsAgree(c, i - 1);
      AgreeStep(c, i - 1);
    }
  }

  lemma AgreeingViews(c: Cut, i: nat)
    requires Fits(c) && !SpikeAtCut(c) && PausesAtCut(c) && c.n <= i < |c.points|
    ensures SmoothedAlike(c, i) && CreditedAlike(c, i)
  {
    hide *;
    RunsAgree(c, i);
    PauseIsOver(c, i);
    AgreementIs(c, i);
    AgreeingWindows(c.s, OneAt(c, i).window, TwoAt(c, i).window, c.points[i], c.points[c.n - 1].recordedAt);
    ViewsAre(c, i);
  }

  lemma AgreementIs(c: Cut, i: nat)
    requires 0 < c.n <= i <= |c.points| && Agree(c, i)
    ensures
      var a, b, at := OneAt(c, i).window, TwoAt(c, i).window, c.points[c.n - 1].recordedAt;
      a == b || (a != [] && b != [] && AllBy(a, at) && AllBy(b, at))
  {
    hide OneAt, TwoAt, AllBy;
  }

  lemma ViewsAre(c: Cut, i: nat)
    requires c.n <= i < |c.points|
    requires
      var a, b := OneAt(c, i).window, TwoAt(c, i).window;
      && Smoothed(c.s, a, c.points[i]) == Smoothed(c.s, b, c.points[i])
      && CreditOf(c.s, a, c.points[i]) == CreditOf(c.s, b, c.points[i])
    ensures SmoothedAlike(c, i) && CreditedAlike(c, i)
  {
    hide OneAt, TwoAt, OneOut, Whole, CreditOf, Smoothed;
  }

  // Once the pause is over, what was accepted before it has no say.
  lemma AgreeingWindows(s: Setup, a: seq<ProcessedPoint>, b: seq<ProcessedPoint>, raw: RawPoint, at: Time)
    requires a == b || (a != [] && b != [] && AllBy(a, at) && AllBy(b, at))
    requires raw.recordedAt - at > Seconds(s.cfg.stationaryWindowSec) >= 0
    requires raw.recordedAt - at > Seconds(s.cfg.segmentMaxGapSec)
    ensures Smoothed(s, a, raw) == Smoothed(s, b, raw) && CreditOf(s, a, raw) == CreditOf(s, b, raw)
  {
    hide AllBy, CreditOf, Smoothed, Measured, Trim;
    if a != b {
      PauseForgets(s, a, raw, at);
      PauseForgets(s, b, raw, at);
    }
  }

  // A window that ends after the pause begins after it.
  lemma LaterWindow(s: Setup, h: seq<ProcessedPoint>, w: seq<ProcessedPoint>, j: int, k: int, at: Time)
    requires CoverStart(s, h, w, j, k).Some? && w[j].recordedAt - at > Seconds(s.cfg.stationaryWindowSec)
    ensures w[k].recordedAt > at
  {
    DropIsSuffix(Track(h, w[..j + 1]), w[j].recordedAt - Seconds(s.cfg.stationaryWindowSec));
    hide DropBefore, AcceptedOnly;
  }

  lemma PushedLater(c: Cut, j: nat)
    requires Fits(c) && !SpikeAtCut(c) && PausesAtCut(c) && |First(c).accepted| <= j < |Whole(c).accepted|
    ensures Whole(c).accepted[j].recordedAt - c.points[c.n - 1].recordedAt > Seconds(c.s.cfg.stationaryWindowSec)
  {
    hide *;
    FitsBounds(c);
    var i := PushedIndex(c, j);
    OneOutIsCarried(c, i);
    PauseIsOver(c, i);
    ProcessOneRecords(c.s, OneAt(c, i).window, c.points[i], NextOf(c.points, i), c.through);
    OutTime(c, i);
    SameTime(Whole(c).accepted[j], OneOut(c, i));
  }

  lemma OutTime(c: Cut, i: nat)
    requires i < |c.points|
    ensures OneOut(c, i).recordedAt == c.points[i].recordedAt
  {
    ProcessOneRecords(c.s, OneAt(c, i).window, c.points[i], NextOf(c.points, i), c.through);
    hide ProcessOne, OneAt;
  }

  lemma SameTime(p: ProcessedPoint, q: ProcessedPoint)
    requires Unmarked(p) == Unmarked(q)
    ensures p.recordedAt == q.recordedAt
  {
    assert Unmarked(p).recordedAt == Unmarked(q).recordedAt;
  }

  lemma PauseDatesNothingBack(c: Cut)
    requires Fits(c) && !SpikeAtCut(c) && PausesAtCut(c)
    ensures NothingDatedBack(c)
  {
    hide Fits, SpikeAtCut, PausesAtCut, First, Whole, CoverStart, Unmarked;
    FitsBounds(c);
    FirstIsBefore(c);
    FirstIsCarried(c);
    var w, f := Whole(c).accepted, First(c).accepted;
    forall k, j | 0 <= k < |f| <= j && LastStart(c.s, c.history, w, j, k) ensures false {
      CoverInside(c.s, c.history, w, j, k);
      PushedLater(c, j);
      SameTime(w[k], f[k]);
      LaterWindow(c.s, c.history, w, j, k, c.points[c.n - 1].recordedAt);
    }
  }

  // Cutting a batch in a pause longer than the stationary window and than the gap that starts a
  // new segment changes nothing exactly when no spike stands at the cut.
  lemma {:induction false} CutAtPauseIsHarmless(c: Cut)
    requires Fits(c) && PausesAtCut(c)
    ensures Whole(c).accepted == Joined(c) <==> !SpikeAtCut(c)
  {
    hide *;
    FitsBounds(c);
    if !SpikeAtCut(c) {
      PauseDatesNothingBack(c);
      forall i | c.n <= i < |c.points| ensures SmoothedAlike(c, i) && CreditedAlike(c, i) {
        AgreeingViews(c, i);
      }
    }
    CutIsHarmless(c);
  }
}
