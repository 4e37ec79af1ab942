// The smoother does not look back over a pause: a position after one is filtered to itself.
module SmoothingPauses {
  import opened Domain
  import opened Sorting
  import opened Noise
  import opened NoiseOutput
  import opened NoiseDistance
  import opened Smoothing

  // The k-th point begins a segment: nothing accepted before it is recent enough to go with it.
  predicate BeginsSegment(s: Setup, track: seq<ProcessedPoint>, k: nat)
    requires k < |track|
  {
    k == 0 || track[k].recordedAt - track[k - 1].recordedAt > Seconds(s.cfg.segmentMaxGapSec)
  }

  ghost predicate BeginningsAreRaw(s: Setup, history: seq<ProcessedPoint>, accepted: seq<ProcessedPoint>) {
    var track := Track(history, accepted);
    forall k: nat :: |AcceptedOnly(history)| <= k < |track| && BeginsSegment(s, track, k) ==>
      track[k].filtered == Some(track[k].raw)
  }

  lemma AloneIsRaw(points: int, raw: RawPoint)
    ensures WeightedMovingAverage(points)([], raw) == raw.position
  {
    var w := Weight(raw.accuracyM);
    assert Recent(points, []) == [];
    DivideBack(raw.position.lat, w);
    DivideBack(raw.position.lon, w);
  }

  lemma DivideBack(x: real, w: real)
    requires w > 0.0
    ensures (0.0 + x * w) / (0.0 + w) == x
  {
  }

  lemma {:induction false} AllAreDropped(points: seq<ProcessedPoint>, cutoff: Time)
    requires forall i :: 0 <= i < |points| ==> points[i].recordedAt < cutoff
    ensures DropBefore(points, cutoff) == []
  {
    if points != [] {
      AllAreDropped(points[1..], cutoff);
    }
  }

  lemma OutAfterPause(s: Setup, points: int, window: seq<ProcessedPoint>, raw: RawPoint, next: Option<RawPoint>,
                      through: Option<Time>)
    requires s.smooth == WeightedMovingAverage(points) && ProcessOne(s, window, raw, next, through).isAccepted
    requires forall i :: 0 <= i < |window| ==>
               window[i].recordedAt < raw.recordedAt - Seconds(s.cfg.segmentMaxGapSec)
    ensures ProcessOne(s, window, raw, next, through).filtered == Some(raw.position)
  {
    AllAreDropped(window, raw.recordedAt - Seconds(s.cfg.segmentMaxGapSec));
    AloneIsRaw(points, raw);
    hide DropBefore, WeightedMovingAverage, DetectStationary, DetectOutlier, Clamp, Validate;
  }

  lemma WindowIsNoLater(s: Setup, history: seq<ProcessedPoint>, g: Progress, i: nat)
    requires s.cfg.stationaryWindowSec >= 0 && WindowFits(s, history, g)
    requires NonDecreasing(Track(history, g.accepted)) && i < |g.window|
    ensures Track(history, g.accepted) != []
    ensures g.window[i].recordedAt <= Track(history, g.accepted)[|Track(history, g.accepted)| - 1].recordedAt
  {
    hide *;
    WindowIsSuffix(s, history, g);
    SuffixIsNoLater(g.window, Track(history, g.accepted), i);
  }

  lemma SuffixIsNoLater(window: seq<ProcessedPoint>, track: seq<ProcessedPoint>, i: nat)
    requires i < |window| <= |track| && SameFixes(window, track[|track| - |window|..]) && NonDecreasing(track)
    ensures window[i].recordedAt <= track[|track| - 1].recordedAt
  {
    var suffix, j := track[|track| - |window|..], |track| - |window| + i;
    assert Unmarked(window[i]) == Unmarked(suffix[i]) && suffix[i] == track[j];
    NonDecreasingPairs(track, j, |track| - 1);
    hide SameFixes, NonDecreasing;
    SameTime(window[i], track[j]);
  }

  lemma SameTime(p: ProcessedPoint, q: ProcessedPoint)
    requires Unmarked(p) == Unmarked(q)
    ensures p.recordedAt == q.recordedAt
  {
    assert Unmarked(p).recordedAt == Unmarked(q).recordedAt;
  }

  lemma PushKeepsBeginnings(s: Setup, points: int, history: seq<ProcessedPoint>, g: Progress, raw: RawPoint,
                            next: Option<RawPoint>, through: Option<Time>)
    requires s.smooth == WeightedMovingAverage(points) && s.cfg.stationaryWindowSec >= 0
    requires WindowFits(s, history, g) && NonDecreasing(Track(history, g.accepted))
    requires BeginningsAreRaw(s, history, g.accepted) && ProcessOne(s, g.window, raw, next, through).isAccepted
    ensures BeginningsAreRaw(s, history, g.accepted + [ProcessOne(s, g.window, raw, next, through)])
  {
    hide *;
    var out, track := ProcessOne(s, g.window, raw, next, through), Track(history, g.accepted);
    ProcessOneRecords(s, g.window, raw, next, through);
    RecordsIs(out, raw);
    if track == [] || out.recordedAt - track[|track| - 1].recordedAt > Seconds(s.cfg.segmentMaxGapSec) {
      forall i | 0 <= i < |g.window|
        ensures g.window[i].recordedAt < raw.recordedAt - Seconds(s.cfg.segmentMaxGapSec)
      {
        WindowIsNoLater(s, history, g, i);
      }
      OutAfterPause(s, points, g.window, raw, next, through);
    }
    OneMoreBeginning(s, history, g.accepted, out);
  }

  lemma RecordsIs(out: ProcessedPoint, raw: RawPoint)
    requires Records(out, raw)
    ensures out.recordedAt == raw.recordedAt && out.raw == raw.position
  {
  }

  lemma OneMoreBeginning(s: Setup, history: seq<ProcessedPoint>, accepted: seq<ProcessedPoint>, out: ProcessedPoint)
    requires BeginningsAreRaw(s, history, accepted)
    requires
      var track := Track(history, accepted);
      track == [] || out.recordedAt - track[|track| - 1].recordedAt > Seconds(s.cfg.segmentMaxGapSec) ==>
        out.filtered == Some(out.raw)
    ensures BeginningsAreRaw(s, history, accepted + [out])
  {
    hide AcceptedOnly;
    var track := Track(history, accepted);
    assert Track(history, accepted + [out]) == track + [out];
    forall k: nat | |AcceptedOnly(history)| <= k < |track| && BeginsSegment(s, track + [out], k)
      ensures (track + [out])[k].filtered == Some((track + [out])[k].raw)
    {
      assert BeginsSegment(s, track, k);
    }
  }

  lemma MarkKeepsBeginnings(s: Setup, history: seq<ProcessedPoint>, accepted: seq<ProcessedPoint>, since: Time)
    requires BeginningsAreRaw(s, history, accepted)
    ensures BeginningsAreRaw(s, history, MarkFrom(accepted, since))
  {
    hide AcceptedOnly;
    MarkedTrackIs(history, accepted, since);
    var before, after := Track(history, accepted), Track(history, MarkFrom(accepted, since));
    hide MarkFrom, Track;
    forall k: nat | |AcceptedOnly(history)| <= k < |after| && BeginsSegment(s, after, k)
      ensures after[k].filtered == Some(after[k].raw)
    {
      assert BeginsSegment(s, before, k);
    }
  }

  lemma MarkedTrackIs(history: seq<ProcessedPoint>, accepted: seq<ProcessedPoint>, since: Time)
    ensures
      var before, after := Track(history, accepted), Track(history, MarkFrom(accepted, since));
      && |after| == |before|
      && forall i :: 0 <= i < |before| ==>
           && after[i].recordedAt == before[i].recordedAt
           && after[i].raw == before[i].raw && after[i].filtered == before[i].filtered
  {
    hide AcceptedOnly;
  }

  lemma StepKeepsBeginnings(s: Setup, points: int, history: seq<ProcessedPoint>, g: Progress, raw: RawPoint,
                            next: Option<RawPoint>, through: Option<Time>)
    requires s.smooth == WeightedMovingAverage(points) && s.cfg.stationaryWindowSec >= 0
    requires WindowFits(s, history, g) && NonDecreasing(Track(history, g.accepted))
    requires BeginningsAreRaw(s, history, g.accepted)
    ensures BeginningsAreRaw(s, history, Step(s, g, raw, next, through).accepted)
  {
    hide ProcessOne, BeginningsAreRaw, WindowFits, Trim, MarkFrom, NonDecreasing, Track, WeightedMovingAverage;
    var out := ProcessOne(s, g.window, raw, next, through);
    if out.isAccepted {
      PushKeepsBeginnings(s, points, history, g, raw, next, through);
      var window := Trim(g.window + [out], raw.recordedAt, s.cfg.stationaryWindowSec);
      if window != [] {
        MarkKeepsBeginnings(s, history, g.accepted + [out], window[0].recordedAt);
      }
    }
  }

  lemma TrackIsInOrder(s: Setup, history: seq<ProcessedPoint>, points: seq<RawPoint>, through: Option<Time>, n: nat)
    requires InputFits(s, history) && n <= |points|
    ensures NonDecreasing(Track(history, Steps(s, history, points, through, n).accepted))
  {
    StepsFit(s, history, points, through, n);
    hide Steps, WindowFits, AcceptedFits, MarksFit, Records, AcceptedOnly;
  }

  lemma {:induction false} StepsKeepBeginnings(s: Setup, points: int, history: seq<ProcessedPoint>, raw: seq<RawPoint>,
                                               through: Option<Time>, n: nat)
    requires s.smooth == WeightedMovingAverage(points) && InputFits(s, history) && n <= |raw|
    ensures BeginningsAreRaw(s, history, Steps(s, history, raw, through, n).accepted)
  {
    hide Step, BeginningsAreRaw, WindowFits, WeightedMovingAverage, NonDecreasing;
    if n == 0 {
      NothingBegins(s, history);
    } else {
      StepsKeepBeginnings(s, points, history, raw, through, n - 1);
      StepsWindowFits(s, history, raw, through, n - 1);
      TrackIsInOrder(s, history, raw, through, n - 1);
      var g := Steps(s, history, raw, through, n - 1);
      StepKeepsBeginnings(s, points, history, g, raw[n - 1], NextOf(raw, n - 1), through);
    }
  }

  lemma NothingBegins(s: Setup, history: seq<ProcessedPoint>)
    ensures BeginningsAreRaw(s, history, [])
  {
    hide AcceptedOnly;
  }

  // For any batch, with the weighted moving average: a point that begins a segment is filtered
  // to the very position it reported, however many points were accepted before the pause.
  lemma {:induction false} PausesAreNotSmoothed(s: Setup, points: int, history: seq<ProcessedPoint>,
                                                raw: seq<RawPoint>, through: Option<Time>)
    requires s.smooth == WeightedMovingAverage(points) && InputFits(s, history)
    ensures BeginningsAreRaw(s, history, Pipeline(s, history, raw, through).accepted)
  {
    var sorted := Sort(RawBefore, raw);
    hide Steps, BeginningsAreRaw, WeightedMovingAverage, Sort;
    StepsKeepBeginnings(s, points, history, sorted, through, |sorted|);
  }
}
