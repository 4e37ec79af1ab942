// What the end of a batch costs the noise pipeline.
module NoiseBoundary {
  // Unlike trip detection, it looks one sample ahead. So a batch cut short ends as the longer
  // batch stood at that point except, exactly, when its last sample is a spike that only the
  // following one gives away. What later samples then do to earlier ones is another matter.

  import opened Domain
  import opened Sorting
  import opened Noise

  // Faster than its activity allows, slower than the vehicle ceiling, and the following sample
  // is nearer to the previous point again.
  predicate IsSpike(s: Setup, previous: ProcessedPoint, raw: RawPoint, next: RawPoint) {
    var elapsed := InSeconds(raw.recordedAt - previous.recordedAt);
    && elapsed > 0.0
    && MaxSpeed(s.cfg, raw.activityType) < s.dist(previous.raw, raw.position) / elapsed <= s.cfg.vehicleMaxSpeedMps
    && s.dist(previous.raw, next.position) < s.dist(previous.raw, raw.position)
  }

  // Only the following sample tells that this one is a spike.
  predicate ShownByNext(s: Setup, window: seq<ProcessedPoint>, raw: RawPoint, next: RawPoint, through: Option<Time>) {
    && (through.Some? ==> raw.recordedAt > through.value)
    && Validate(s.cfg, raw) == NoNoise
    && window != [] && IsSpike(s, window[|window| - 1], raw, next)
  }

  lemma OutlierShownByNext(s: Setup, previous: ProcessedPoint, raw: RawPoint, next: RawPoint)
    ensures DetectOutlier(s, Some(previous), raw, Some(next)) == DetectOutlier(s, Some(previous), raw, None)
            <==> !IsSpike(s, previous, raw, next)
    ensures IsSpike(s, previous, raw, next) ==>
              && DetectOutlier(s, Some(previous), raw, Some(next)).outlier
              && !DetectOutlier(s, Some(previous), raw, None).outlier
  {
  }

  lemma SettlingKeepsAcceptance(s: Setup, history: seq<ProcessedPoint>, raw: RawPoint, out: ProcessedPoint)
    ensures Settled(s, history, Measured(s, history, raw, out)).isAccepted == out.isAccepted
  {
    hide Trim, DetectStationary, Clamp;
  }

  lemma DecidesAlike(s: Setup, window: seq<ProcessedPoint>, raw: RawPoint, next: RawPoint, through: Option<Time>)
    ensures ProcessOne(s, window, raw, Some(next), through) == ProcessOne(s, window, raw, None, through)
            <==> !ShownByNext(s, window, raw, next, through)
    ensures ShownByNext(s, window, raw, next, through) ==>
              && !ProcessOne(s, window, raw, Some(next), through).isAccepted
              && ProcessOne(s, window, raw, None, through).isAccepted
  {
    hide IsSpike, Settled, Measured, DetectOutlier, Validate, Trim;
    if window == [] {
      NothingBefore(s, raw, next);
    } else {
      OutlierShownByNext(s, window[|window| - 1], raw, next);
      var judged := Fresh(raw).(impliedSpeedMps := DetectOutlier(s, Last(window), raw, None).impliedSpeed);
      var smoothed := s.smooth(Trim(window, raw.recordedAt, s.cfg.segmentMaxGapSec), raw);
      SettlingKeepsAcceptance(s, window, raw, judged.(filtered := Some(smoothed), isAccepted := true));
    }
  }

  lemma NothingBefore(s: Setup, raw: RawPoint, next: RawPoint)
    ensures DetectOutlier(s, None, raw, Some(next)) == DetectOutlier(s, None, raw, None)
  {
  }

  // Before its last sample, the shorter batch goes exactly as the longer one.
  lemma {:induction false} PrefixGoesAlike(s: Setup, history: seq<ProcessedPoint>, points: seq<RawPoint>,
                                           through: Option<Time>, n: nat, m: nat)
    requires n < m <= |points|
    ensures Steps(s, history, points[..m], through, n) == Steps(s, history, points, through, n)
  {
    hide Step;
    if n > 0 {
      PrefixGoesAlike(s, history, points, through, n - 1, m);
    }
  }

  lemma PushKeepsAcceptance(s: Setup, g: Progress, raw: RawPoint, next: Option<RawPoint>, through: Option<Time>)
    ensures
      var after := Step(s, g, raw, next, through).processed;
      && |after| == |g.processed| + 1
      && after[|g.processed|].isAccepted == ProcessOne(s, g.window, raw, next, through).isAccepted
  {
    hide ProcessOne, Trim;
  }

  // The batch cut after n samples ends where the longer batch stands after n samples, exactly
  // when its last sample is no spike shown by the next; otherwise it accepts that spike, which
  // the longer batch rejects.
  lemma {:induction false} CutEndsAlike(s: Setup, history: seq<ProcessedPoint>, points: seq<RawPoint>,
                                        through: Option<Time>, n: nat)
    requires Sorted(RawBefore, points) && 0 < n < |points|
    ensures
      var short, long := Pipeline(s, history, points[..n], through), Steps(s, history, points, through, n);
      var spike := ShownByNext(s, Steps(s, history, points, through, n - 1).window, points[n - 1], points[n], through);
      && (short == long <==> !spike)
      && |short.processed| == |long.processed| == n
      && (spike ==> short.processed[n - 1].isAccepted && !long.processed[n - 1].isAccepted)
  {
    hide ShownByNext, ProcessOne, Step, RawBefore;
    SortOfSorted(RawBefore, points[..n]);
    PrefixGoesAlike(s, history, points, through, n - 1, n);
    var g := Steps(s, history, points, through, n - 1);
    ProcessedCount(s, history, points, through, n - 1);
    DecidesAlike(s, g.window, points[n - 1], points[n], through);
    PushKeepsAcceptance(s, g, points[n - 1], None, through);
    PushKeepsAcceptance(s, g, points[n - 1], Some(points[n]), through);
    SameDecisionSameStep(s, g, points[n - 1], points[n], through);
  }

  lemma SameDecisionSameStep(s: Setup, g: Progress, raw: RawPoint, next: RawPoint, through: Option<Time>)
    ensures ProcessOne(s, g.window, raw, Some(next), through) == ProcessOne(s, g.window, raw, None, through) ==>
              Step(s, g, raw, Some(next), through) == Step(s, g, raw, None, through)
  {
    hide ProcessOne, Trim;
  }

  lemma {:induction false} ProcessedCount(s: Setup, history: seq<ProcessedPoint>, points: seq<RawPoint>,
                                          through: Option<Time>, n: nat)
    requires n <= |points|
    ensures |Steps(s, history, points, through, n).processed| == n
  {
    hide Step;
    if n > 0 {
      ProcessedCount(s, history, points, through, n - 1);
      PushKeepsAcceptance(s, Steps(s, history, points, through, n - 1), points[n - 1], NextOf(points, n - 1), through);
    }
  }
}
