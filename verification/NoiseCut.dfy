// One batch against two: exactly when cutting a batch changes what the noise pipeline accepts,
// and what it says about the accepted points.
module NoiseCut {
  import opened Domain
  import opened Sorting
  import opened Noise
  import opened NoiseOutput
  import opened NoiseBoundary

  // A batch of points, to be cut after the first n.
  datatype Cut = Cut(s: Setup, history: seq<ProcessedPoint>, points: seq<RawPoint>, through: Option<Time>, n: nat)

  ghost predicate DistinctIds(points: seq<RawPoint>) {
    forall i, j :: 0 <= i < j < |points| ==> points[i].eventId != points[j].eventId
  }

  ghost predicate Fits(c: Cut) {
    && InputFits(c.s, c.history) && Sorted(RawBefore, c.points) && DistinctIds(c.points)
    && 0 < c.n < |c.points|
  }

  function Whole(c: Cut): Progress {
    Pipeline(c.s, c.history, c.points, c.through)
  }

  function First(c: Cut): Progress
    requires c.n <= |c.points|
  {
    Pipeline(c.s, c.history, c.points[..c.n], c.through)
  }

  // What the second batch finds stored: the history and all points accepted by the first.
  function Reloaded(c: Cut): seq<ProcessedPoint>
    requires c.n <= |c.points|
  {
    Track(c.history, First(c).accepted)
  }

  // The detector has processed the last accepted point.
  function Watermark(c: Cut): Option<Time>
    requires c.n <= |c.points|
  {
    var accepted := First(c).accepted;
    if accepted == [] then c.through else Some(accepted[|accepted| - 1].recordedAt)
  }

  function Rest(c: Cut): Progress
    requires c.n <= |c.points|
  {
    Pipeline(c.s, Reloaded(c), c.points[c.n..], Watermark(c))
  }

  function Joined(c: Cut): seq<ProcessedPoint>
    requires c.n <= |c.points|
  {
    First(c).accepted + Rest(c).accepted
  }

  // The two runs before the i-th point.
  function OneAt(c: Cut, i: nat): Progress
    requires i <= |c.points|
  {
    Steps(c.s, c.history, c.points, c.through, i)
  }

  function TwoAt(c: Cut, i: nat): Progress
    requires c.n <= i <= |c.points|
  {
    Steps(c.s, Reloaded(c), c.points[c.n..], Watermark(c), i - c.n)
  }

  function OneOut(c: Cut, i: nat): ProcessedPoint
    requires i < |c.points|
  {
    ProcessOne(c.s, OneAt(c, i).window, c.points[i], NextOf(c.points, i), c.through)
  }

  function TwoOut(c: Cut, i: nat): ProcessedPoint
    requires c.n <= i < |c.points|
  {
    ProcessOne(c.s, TwoAt(c, i).window, c.points[i], NextOf(c.points, i), Watermark(c))
  }

  // ---- the four ways a cut may show ----

  // The last point of the first batch is a spike that only the next point gives away.
  predicate SpikeAtCut(c: Cut)
    requires 0 < c.n < |c.points|
  {
    ShownByNext(c.s, OneAt(c, c.n - 1).window, c.points[c.n - 1], c.points[c.n], c.through)
  }

  function Smoothed(s: Setup, window: seq<ProcessedPoint>, raw: RawPoint): GeoPoint {
    s.smooth(Trim(window, raw.recordedAt, s.cfg.segmentMaxGapSec), raw)
  }

  // The smoother makes the same of an accepted point, whether it sees the sliding window or
  // the reloaded history.
  predicate SmoothedAlike(c: Cut, i: nat)
    requires c.n <= i < |c.points|
  {
    OneOut(c, i).isAccepted ==>
      Smoothed(c.s, OneAt(c, i).window, c.points[i]) == Smoothed(c.s, TwoAt(c, i).window, c.points[i])
  }

  datatype Credit = Credit(distanceM: real, reason: NoiseReason)

  // The distance from the anchor, or why there is none.
  function CreditOf(s: Setup, window: seq<ProcessedPoint>, raw: RawPoint): Credit {
    var p := Measured(s, window, raw, Fresh(raw));
    Credit(p.distanceDeltaM, p.noiseReason)
  }

  // An accepted point that does not end up stationary is credited alike from the anchor of the
  // sliding window and from that of the reloaded history.
  predicate CreditedAlike(c: Cut, i: nat)
    requires c.n <= i < |c.points|
  {
    OneOut(c, i).isAccepted && |OneAt(c, i).accepted| < |Whole(c).accepted|
    && !Whole(c).accepted[|OneAt(c, i).accepted|].isStationary ==>
      CreditOf(c.s, OneAt(c, i).window, c.points[i]) == CreditOf(c.s, TwoAt(c, i).window, c.points[i])
  }

  // No window that ends after the first points dates the k-th anew, or only where it is dated
  // already.
  ghost predicate KeepsDate(s: Setup, history: seq<ProcessedPoint>, accepted: seq<ProcessedPoint>,
                            first: seq<ProcessedPoint>, k: int)
    requires 0 <= k < |first|
  {
    forall j :: |first| <= j && LastStart(s, history, accepted, j, k) ==>
      first[k].stationarySince == CoverStart(s, history, accepted, j, k)
  }

  // No stationary window of the second batch reaches back over a point of the first, except
  // one that begins where the point is already dated.
  ghost predicate NothingDatedBack(c: Cut)
    requires c.n <= |c.points|
  {
    forall k :: 0 <= k < |First(c).accepted| ==>
      KeepsDate(c.s, c.history, Whole(c).accepted, First(c).accepted, k)
  }

  // ---- what later steps do to earlier points ----

  // The points of a, some of them marked since, are the first ones of b.
  predicate CarriedOn(a: seq<ProcessedPoint>, b: seq<ProcessedPoint>) {
    && |a| <= |b|
    && forall k :: 0 <= k < |a| ==> Unmarked(b[k]) == Unmarked(a[k]) && (!b[k].isStationary ==> b[k] == a[k])
  }

  lemma CarriedTwice(a: seq<ProcessedPoint>, b: seq<ProcessedPoint>, c: seq<ProcessedPoint>)
    requires CarriedOn(a, b) && CarriedOn(b, c)
    ensures CarriedOn(a, c)
  {
    hide Unmarked;
  }

  lemma StepCarries(s: Setup, g: Progress, raw: RawPoint, next: Option<RawPoint>, through: Option<Time>)
    ensures
      var out, after := ProcessOne(s, g.window, raw, next, through), Step(s, g, raw, next, through);
      && CarriedOn(g.accepted + (if out.isAccepted then [out] else []), after.accepted)
      && |after.accepted| == |g.accepted| + (if out.isAccepted then 1 else 0)
  {
    hide ProcessOne, Trim;
  }

  lemma StepCarriesOld(s: Setup, g: Progress, raw: RawPoint, next: Option<RawPoint>, through: Option<Time>)
    ensures CarriedOn(g.accepted, Step(s, g, raw, next, through).accepted)
  {
    StepCarries(s, g, raw, next, through);
    hide ProcessOne, Step, Unmarked;
    var out, after := ProcessOne(s, g.window, raw, next, through), Step(s, g, raw, next, through).accepted;
    assert forall k :: 0 <= k < |g.accepted| ==>
        (g.accepted + (if out.isAccepted then [out] else []))[k] == g.accepted[k];
  }

  lemma {:induction false} StepsCarry(s: Setup, history: seq<ProcessedPoint>, points: seq<RawPoint>,
                                      through: Option<Time>, i: nat, j: nat)
    requires i <= j <= |points|
    ensures CarriedOn(Steps(s, history, points, through, i).accepted, Steps(s, history, points, through, j).accepted)
  {
    hide Step, Unmarked;
    if i < j {
      StepsCarry(s, history, points, through, i, j - 1);
      var g := Steps(s, history, points, through, j - 1);
      StepCarriesOld(s, g, points[j - 1], NextOf(points, j - 1), through);
      CarriedTwice(Steps(s, history, points, through, i).accepted, g.accepted,
                   Steps(s, history, points, through, j).accepted);
    }
  }

  // What the i-th point became is carried on to the end of the batch.
  lemma OutIsCarried(s: Setup, history: seq<ProcessedPoint>, points: seq<RawPoint>, through: Option<Time>, i: nat)
    requires i < |points|
    ensures
      var g := Steps(s, history, points, through, i);
      var out := ProcessOne(s, g.window, points[i], NextOf(points, i), through);
      var final := Steps(s, history, points, through, |points|).accepted;
      && |Steps(s, history, points, through, i + 1).accepted| == |g.accepted| + (if out.isAccepted then 1 else 0)
      && (out.isAccepted ==>
            && |g.accepted| < |final| && Unmarked(final[|g.accepted|]) == Unmarked(out)
            && (!final[|g.accepted|].isStationary ==> final[|g.accepted|] == out))
  {
    hide ProcessOne, Step, Unmarked;
    var g := Steps(s, history, points, through, i);
    var out := ProcessOne(s, g.window, points[i], NextOf(points, i), through);
    var pushed := g.accepted + (if out.isAccepted then [out] else []);
    var after := Steps(s, history, points, through, i + 1).accepted;
    var final := Steps(s, history, points, through, |points|).accepted;
    StepCarries(s, g, points[i], NextOf(points, i), through);
    StepsCarry(s, history, points, through, i + 1, |points|);
    CarriedTwice(pushed, after, final);
    if out.isAccepted {
      assert pushed[|g.accepted|] == out;
    }
  }

  // ---- what a point becomes ----

  // A point without marks and smoothing: what acceptance looks at.
  function Bare(p: ProcessedPoint): ProcessedPoint {
    Unmarked(p).(filtered := None)
  }

  predicate IsLate(raw: RawPoint, through: Option<Time>) {
    through.Some? && raw.recordedAt <= through.value
  }

  lemma AcceptedWhen(s: Setup, window: seq<ProcessedPoint>, raw: RawPoint, next: Option<RawPoint>,
                     through: Option<Time>)
    ensures ProcessOne(s, window, raw, next, through).isAccepted
            <==> !IsLate(raw, through) && Validate(s.cfg, raw) == NoNoise
                 && !DetectOutlier(s, Last(window), raw, next).outlier
  {
    hide DetectStationary, DetectOutlier, Trim, Validate, Clamp, AnchorIndex;
  }

  lemma OutIs(s: Setup, window: seq<ProcessedPoint>, raw: RawPoint, next: Option<RawPoint>, through: Option<Time>)
    requires ProcessOne(s, window, raw, next, through).isAccepted
    ensures
      var out := ProcessOne(s, window, raw, next, through);
      && out.filtered == Some(Smoothed(s, window, raw))
      && Bare(out) == Bare(Fresh(raw).(impliedSpeedMps := DetectOutlier(s, Last(window), raw, next).impliedSpeed,
                                       isAccepted := true))
      && (!out.isStationary ==>
            Credit(out.distanceDeltaM, out.noiseReason) == CreditOf(s, window, raw) && out.stationarySince.None?)
  {
    ProcessOneSettles(s, window, raw, next, through);
    hide ProcessOne, DetectStationary, DetectOutlier, Trim, Clamp, AnchorIndex;
  }

  // Only place and time of the previous point decide on an outlier.
  lemma SamePreviousDecidesAlike(s: Setup, a: seq<ProcessedPoint>, b: seq<ProcessedPoint>, raw: RawPoint,
                                 next: Option<RawPoint>)
    requires EndsAlike(a, b)
    ensures DetectOutlier(s, Last(a), raw, next) == DetectOutlier(s, Last(b), raw, next)
  {
    if a != [] {
      var p, q := a[|a| - 1], b[|b| - 1];
      assert Bare(p).raw == Bare(q).raw && Bare(p).recordedAt == Bare(q).recordedAt;
    }
  }

  // ---- the two runs side by side ----

  // The accepted points of the two runs so far are the same, up to marks and smoothing.
  ghost predicate Aligned(c: Cut, i: nat)
    requires c.n <= i <= |c.points|
  {
    SameBare(OneAt(c, i).accepted, First(c).accepted + TwoAt(c, i).accepted)
  }

  predicate SameBare(a: seq<ProcessedPoint>, b: seq<ProcessedPoint>) {
    |a| == |b| && forall k :: 0 <= k < |a| ==> Bare(a[k]) == Bare(b[k])
  }

  lemma AcceptedAgain(points: seq<ProcessedPoint>)
    requires forall i :: 0 <= i < |points| ==> points[i].isAccepted
    ensures AcceptedOnly(points) == points
  {
    FilterAll((p: ProcessedPoint) => p.isAccepted, points);
  }

  lemma FilteredAreAccepted(points: seq<ProcessedPoint>)
    ensures forall i :: 0 <= i < |AcceptedOnly(points)| ==> AcceptedOnly(points)[i].isAccepted
  {
    forall i | 0 <= i < |AcceptedOnly(points)| ensures AcceptedOnly(points)[i].isAccepted {
      assert AcceptedOnly(points)[i] in AcceptedOnly(points);
    }
  }

  lemma ReloadedFits(c: Cut)
    requires Fits(c)
    ensures AcceptedOnly(Reloaded(c)) == Reloaded(c) && InputFits(c.s, Reloaded(c))
    ensures c.through.Some? ==>
              forall k :: 0 <= k < |First(c).accepted| ==> First(c).accepted[k].recordedAt > c.through.value
    ensures Increasing(First(c).accepted)
  {
    var points, g := Sort(RawBefore, c.points[..c.n]), First(c);
    OutputInOrder(c.s, c.history, c.points[..c.n], c.through);
    StepsFit(c.s, c.history, points, c.through, |points|);
    FilteredAreAccepted(c.history);
    hide Pipeline, Sort, Sorted, AcceptedOnly, RawBefore, Records, WindowFits, MarksFit, AcceptedFits;
    TrackIsSorted(c.s, c.history, g, c.through);
    AcceptedAgain(Reloaded(c));
  }

  lemma PartsAreSorted(c: Cut)
    requires Fits(c)
    ensures Whole(c) == OneAt(c, |c.points|) && Rest(c) == TwoAt(c, |c.points|)
    ensures First(c) == Steps(c.s, c.history, c.points[..c.n], c.through, c.n)
  {
    hide Steps, Pipeline, Sorted, Track, Watermark, InputFits, DistinctIds;
    SortedSlices(c.points, c.n);
    SortedPipeline(c.s, c.history, c.points, c.through);
    SortedPipeline(c.s, c.history, c.points[..c.n], c.through);
    SortedPipeline(c.s, Reloaded(c), c.points[c.n..], Watermark(c));
  }

  lemma SortedSlices(points: seq<RawPoint>, n: nat)
    requires Sorted(RawBefore, points) && n <= |points|
    ensures Sorted(RawBefore, points[..n]) && Sorted(RawBefore, points[n..])
  {
    hide RawBefore;
  }

  lemma SortedPipeline(s: Setup, history: seq<ProcessedPoint>, points: seq<RawPoint>, through: Option<Time>)
    requires Sorted(RawBefore, points)
    ensures Pipeline(s, history, points, through) == Steps(s, history, points, through, |points|)
  {
    hide RawBefore, Steps;
    SortOfSorted(RawBefore, points);
    hide Sort, Sorted;
  }

  lemma FirstIsPrefix(c: Cut)
    requires Fits(c) && !SpikeAtCut(c)
    ensures First(c) == OneAt(c, c.n)
  {
    CutEndsAlike(c.s, c.history, c.points, c.through, c.n);
    hide ShownByNext, Steps, Pipeline;
  }

  lemma AlignedStart(c: Cut)
    requires Fits(c) && !SpikeAtCut(c)
    ensures Aligned(c, c.n)
  {
    FirstIsPrefix(c);
    assert TwoAt(c, c.n).accepted == [];
    assert First(c).accepted + [] == First(c).accepted;
    hide First, OneAt, TwoAt, Bare;
  }

  lemma TwoStarts(c: Cut)
    requires c.n <= |c.points|
    ensures TwoAt(c, c.n).window == AcceptedOnly(Reloaded(c))
  {
    hide Reloaded;
  }

  // The previous point is the same in both runs, up to marks and smoothing.
  lemma PreviousAlike(c: Cut, i: nat)
    requires Fits(c) && c.n <= i <= |c.points| && Aligned(c, i)
    ensures
      var a, b := OneAt(c, i).window, TwoAt(c, i).window;
      EndsAlike(a, b)
  {
    hide *;
    var h, first := AcceptedOnly(c.history), First(c).accepted;
    var one, two := OneAt(c, i).accepted, TwoAt(c, i).accepted;
    OneWindowEnds(c, i);
    TwoWindowEnds(c, i);
    AlignedBare(c, i);
    TracksEndAlike(h, one, first, two);
    EndsChain(OneAt(c, i).window, h + one, h + first + two, TwoAt(c, i).window);
  }

  lemma AlignedBare(c: Cut, i: nat)
    requires c.n <= i <= |c.points| && Aligned(c, i)
    ensures SameBare(OneAt(c, i).accepted, First(c).accepted + TwoAt(c, i).accepted)
  {
    hide OneAt, TwoAt, First, SameBare;
  }

  lemma EndsChain(a: seq<ProcessedPoint>, b: seq<ProcessedPoint>, c: seq<ProcessedPoint>, d: seq<ProcessedPoint>)
    requires EndsAlike(a, b) && EndsAlike(b, c) && EndsAlike(d, c)
    ensures EndsAlike(a, d)
  {
    hide Bare;
  }

  lemma WindowEnds(s: Setup, history: seq<ProcessedPoint>, points: seq<RawPoint>, through: Option<Time>, i: nat)
    requires InputFits(s, history) && i <= |points|
    ensures
      var g := Steps(s, history, points, through, i);
      EndsAlike(g.window, AcceptedOnly(history) + g.accepted)
  {
    hide Steps, AcceptedOnly, WindowFits, Unmarked, EndsAlike;
    var g := Steps(s, history, points, through, i);
    StepsWindowFits(s, history, points, through, i);
    WindowHoldsLast(s, history, g);
    UnmarkedEnds(g.window, Track(history, g.accepted));
  }

  lemma UnmarkedEnds(a: seq<ProcessedPoint>, b: seq<ProcessedPoint>)
    requires a == [] <==> b == []
    requires b != [] ==> Unmarked(a[|a| - 1]) == Unmarked(b[|b| - 1])
    ensures EndsAlike(a, b)
  {
    hide Unmarked;
  }

  lemma FitsBounds(c: Cut)
    requires Fits(c)
    ensures 0 < c.n < |c.points|
  {
  }

  lemma OneWindowEnds(c: Cut, i: nat)
    requires Fits(c) && c.n <= i <= |c.points|
    ensures EndsAlike(OneAt(c, i).window, AcceptedOnly(c.history) + OneAt(c, i).accepted)
  {
    hide Steps, AcceptedOnly, EndsAlike, Sorted, InputFits;
    WindowEnds(c.s, c.history, c.points, c.through, i);
  }

  lemma TwoWindowEnds(c: Cut, i: nat)
    requires Fits(c) && c.n <= i <= |c.points|
    ensures EndsAlike(TwoAt(c, i).window, AcceptedOnly(c.history) + First(c).accepted + TwoAt(c, i).accepted)
  {
    hide Steps, AcceptedOnly, First, Watermark, EndsAlike, Fits, InputFits;
    ReloadedFits(c);
    FitsBounds(c);
    WindowEnds(c.s, Reloaded(c), c.points[c.n..], Watermark(c), i - c.n);
  }

  predicate EndsAlike(a: seq<ProcessedPoint>, b: seq<ProcessedPoint>) {
    (a == [] <==> b == []) && (a != [] ==> Bare(a[|a| - 1]) == Bare(b[|b| - 1]))
  }

  lemma TracksEndAlike(h: seq<ProcessedPoint>, a: seq<ProcessedPoint>, first: seq<ProcessedPoint>,
                       b: seq<ProcessedPoint>)
    requires SameBare(a, first + b)
    ensures EndsAlike(h + a, h + first + b)
  {
    hide Bare;
    assert h + first + b == h + (first + b);
    if a != [] {
      assert Bare(a[|a| - 1]) == Bare((first + b)[|a| - 1]);
    }
  }

  // A point accepted by the one run comes after everything the first batch accepted.
  lemma AcceptedAfterFirst(c: Cut, i: nat)
    requires Fits(c) && c.n <= i < |c.points| && Aligned(c, i) && OneOut(c, i).isAccepted && First(c).accepted != []
    ensures First(c).accepted[|First(c).accepted| - 1].recordedAt < c.points[i].recordedAt
  {
    hide *;
    AcceptedComesLast(c, i);
    AlignedBare(c, i);
    LastOfFirst(OneAt(c, i).accepted, First(c).accepted, TwoAt(c, i).accepted, c.points[i].recordedAt);
  }

  lemma LastOfFirst(a: seq<ProcessedPoint>, first: seq<ProcessedPoint>, b: seq<ProcessedPoint>, at: Time)
    requires SameBare(a, first + b) && NonDecreasing(a) && first != []
    requires a != [] ==> a[|a| - 1].recordedAt < at
    ensures first[|first| - 1].recordedAt < at
  {
    hide NonDecreasing, Bare;
    SameTimeAt(a, first, b, |first| - 1);
    NonDecreasingPairs(a, |first| - 1, |a| - 1);
  }

  lemma AcceptedComesLast(c: Cut, i: nat)
    requires Fits(c) && c.n <= i < |c.points| && OneOut(c, i).isAccepted
    ensures
      var accepted := OneAt(c, i).accepted;
      NonDecreasing(accepted) && (accepted != [] ==> accepted[|accepted| - 1].recordedAt < c.points[i].recordedAt)
  {
    var g := OneAt(c, i);
    StepsFit(c.s, c.history, c.points, c.through, i);
    hide Steps, ProcessOne, MarksFit, AcceptedFits, TimesFit, WindowFits, Records, Sorted;
    ShapeIsIncreasing(c.s, c.history, c.points, c.through, i, g);
    NewComesLast(c.s, c.history, g, c.points[i], NextOf(c.points, i), c.through);
  }

  lemma SameTimeAt(a: seq<ProcessedPoint>, first: seq<ProcessedPoint>, b: seq<ProcessedPoint>, k: nat)
    requires SameBare(a, first + b) && k < |first|
    ensures a[k].recordedAt == first[k].recordedAt
  {
    assert Bare(a[k]).recordedAt == Bare((first + b)[k]).recordedAt;
  }

  // Both runs accept the point or neither does, and it looks the same to later ones.
  lemma AcceptAlike(c: Cut, i: nat)
    requires Fits(c) && c.n <= i < |c.points| && Aligned(c, i)
    ensures OneOut(c, i).isAccepted <==> TwoOut(c, i).isAccepted
    ensures OneOut(c, i).isAccepted ==> Bare(OneOut(c, i)) == Bare(TwoOut(c, i))
  {
    var raw, next := c.points[i], NextOf(c.points, i);
    var a, b := OneAt(c, i).window, TwoAt(c, i).window;
    PreviousAlike(c, i);
    SamePreviousDecidesAlike(c.s, a, b, raw, next);
    AcceptedWhen(c.s, a, raw, next, c.through);
    AcceptedWhen(c.s, b, raw, next, Watermark(c));
    ReloadedFits(c);
    if OneOut(c, i).isAccepted {
      if First(c).accepted != [] {
        AcceptedAfterFirst(c, i);
      }
      OutIs(c.s, a, raw, next, c.through);
    }
    if TwoOut(c, i).isAccepted {
      OutIs(c.s, b, raw, next, Watermark(c));
    }
    hide OneAt, TwoAt, First, ProcessOne, DetectOutlier, Validate, Aligned, Bare, Smoothed, Reloaded, InputFits;
  }

  lemma AlignedStep(c: Cut, i: nat)
    requires Fits(c) && c.n <= i < |c.points| && Aligned(c, i)
    ensures Aligned(c, i + 1)
  {
    var g1, g2, out1, out2 := OneAt(c, i), TwoAt(c, i), OneOut(c, i), TwoOut(c, i);
    AcceptAlike(c, i);
    StepsOneMore(c, i);
    StepCarries(c.s, g1, c.points[i], NextOf(c.points, i), c.through);
    StepCarries(c.s, g2, c.points[i], NextOf(c.points, i), Watermark(c));
    hide OneAt, TwoAt, First, ProcessOne, Step, Watermark;
    var more1, more2 := if out1.isAccepted then [out1] else [], if out2.isAccepted then [out2] else [];
    CarryBare(g1.accepted + more1, OneAt(c, i + 1).accepted);
    CarryBare(g2.accepted + more2, TwoAt(c, i + 1).accepted);
    AppendBare(g1.accepted, First(c).accepted, g2.accepted, more1, more2, OneAt(c, i + 1).accepted,
               TwoAt(c, i + 1).accepted);
  }

  lemma StepsOneMore(c: Cut, i: nat)
    requires c.n <= i < |c.points|
    ensures OneAt(c, i + 1) == Step(c.s, OneAt(c, i), c.points[i], NextOf(c.points, i), c.through)
    ensures TwoAt(c, i + 1) == Step(c.s, TwoAt(c, i), c.points[i], NextOf(c.points, i), Watermark(c))
  {
    hide Step, Watermark, Reloaded;
    assert NextOf(c.points[c.n..], i - c.n) == NextOf(c.points, i);
  }

  lemma CarryBare(a: seq<ProcessedPoint>, b: seq<ProcessedPoint>)
    requires CarriedOn(a, b) && |a| == |b|
    ensures SameBare(a, b)
  {
    hide Unmarked;
  }

  lemma AppendBare(a: seq<ProcessedPoint>, first: seq<ProcessedPoint>, b: seq<ProcessedPoint>,
                   more1: seq<ProcessedPoint>,
                   more2: seq<ProcessedPoint>, after1: seq<ProcessedPoint>, after2: seq<ProcessedPoint>)
    requires SameBare(a, first + b) && SameBare(more1, more2)
    requires SameBare(a + more1, after1) && SameBare(b + more2, after2)
    ensures SameBare(after1, first + after2)
  {
    hide Bare;
    forall k | 0 <= k < |after1| ensures Bare(after1[k]) == Bare((first + after2)[k]) {
      assert Bare((a + more1)[k]) == Bare(after1[k]);
      assert k >= |first| ==> Bare((b + more2)[k - |first|]) == Bare(after2[k - |first|]);
      assert (a + more1)[k] == if k < |a| then a[k] else more1[k - |a|];
      assert k < |a| ==> Bare(a[k]) == Bare((first + b)[k]);
      assert k >= |a| ==> Bare(more1[k - |a|]) == Bare(more2[k - |a|]);
    }
  }

  lemma {:induction false} RunsStayAligned(c: Cut, i: nat)
    requires Fits(c) && !SpikeAtCut(c) && c.n <= i <= |c.points|
    ensures Aligned(c, i)
  {
    hide *;
    if i == c.n {
      AlignedStart(c);
    } else {
      RunsStayAligned(c, i - 1);
      AlignedStep(c, i - 1);
    }
  }

  // ---- smoothing ----

  lemma {:induction false} RunsStayFixed(c: Cut, i: nat)
    requires Fits(c) && !SpikeAtCut(c) && c.n <= i <= |c.points|
    requires forall j :: c.n <= j < |c.points| ==> SmoothedAlike(c, j)
    ensures SameFixes(OneAt(c, i).accepted, First(c).accepted + TwoAt(c, i).accepted)
  {
    hide *;
    if i == c.n {
      FixedStart(c);
    } else {
      RunsStayFixed(c, i - 1);
      RunsStayAligned(c, i - 1);
      FixedStep(c, i - 1);
    }
  }

  lemma FixedStart(c: Cut)
    requires Fits(c) && !SpikeAtCut(c)
    ensures SameFixes(OneAt(c, c.n).accepted, First(c).accepted + TwoAt(c, c.n).accepted)
  {
    FirstIsPrefix(c);
    assert TwoAt(c, c.n).accepted == [];
    assert First(c).accepted + [] == First(c).accepted;
    hide First, OneAt, TwoAt, Unmarked;
  }

  lemma FixedStep(c: Cut, i: nat)
    requires Fits(c) && c.n <= i < |c.points| && Aligned(c, i) && SmoothedAlike(c, i)
    requires SameFixes(OneAt(c, i).accepted, First(c).accepted + TwoAt(c, i).accepted)
    ensures SameFixes(OneAt(c, i + 1).accepted, First(c).accepted + TwoAt(c, i + 1).accepted)
  {
    var g1, g2, out1, out2 := OneAt(c, i), TwoAt(c, i), OneOut(c, i), TwoOut(c, i);
    AcceptAlike(c, i);
    StepsOneMore(c, i);
    StepCarries(c.s, g1, c.points[i], NextOf(c.points, i), c.through);
    StepCarries(c.s, g2, c.points[i], NextOf(c.points, i), Watermark(c));
    if out1.isAccepted {
      OutIs(c.s, g1.window, c.points[i], NextOf(c.points, i), c.through);
      OutIs(c.s, g2.window, c.points[i], NextOf(c.points, i), Watermark(c));
      BareAndFiltered(out1, out2);
    }
    hide OneAt, TwoAt, First, ProcessOne, Step, Watermark, Bare, Unmarked, Smoothed, DetectOutlier, Aligned;
    var more1, more2 := if out1.isAccepted then [out1] else [], if out2.isAccepted then [out2] else [];
    AppendFixes(g1.accepted, First(c).accepted, g2.accepted, more1, more2, OneAt(c, i + 1).accepted,
                TwoAt(c, i + 1).accepted);
  }

  lemma BareAndFiltered(p: ProcessedPoint, q: ProcessedPoint)
    requires Bare(p) == Bare(q) && p.filtered == q.filtered
    ensures Unmarked(p) == Unmarked(q)
  {
    assert Unmarked(p) == Bare(p).(filtered := p.filtered);
    assert Unmarked(q) == Bare(q).(filtered := q.filtered);
  }

  lemma AppendFixes(a: seq<ProcessedPoint>, first: seq<ProcessedPoint>, b: seq<ProcessedPoint>,
                    more1: seq<ProcessedPoint>, more2: seq<ProcessedPoint>, after1: seq<ProcessedPoint>,
                    after2: seq<ProcessedPoint>)
    requires SameFixes(a, first + b) && SameFixes(more1, more2)
    requires CarriedOn(a + more1, after1) && |after1| == |a + more1|
    requires CarriedOn(b + more2, after2) && |after2| == |b + more2|
    ensures SameFixes(after1, first + after2)
  {
    hide Unmarked;
    forall k | 0 <= k < |after1| ensures Unmarked(after1[k]) == Unmarked((first + after2)[k]) {
      assert Unmarked((a + more1)[k]) == Unmarked(after1[k]);
      assert k >= |first| ==> Unmarked((b + more2)[k - |first|]) == Unmarked(after2[k - |first|]);
      assert (a + more1)[k] == if k < |a| then a[k] else more1[k - |a|];
      assert k < |a| ==> Unmarked(a[k]) == Unmarked((first + b)[k]);
      assert k >= |a| ==> Unmarked(more1[k - |a|]) == Unmarked(more2[k - |a|]);
    }
  }

  lemma OneOutIsCarried(c: Cut, i: nat)
    requires Fits(c) && i < |c.points| && OneOut(c, i).isAccepted
    ensures
      var k, w := |OneAt(c, i).accepted|, Whole(c).accepted;
      && k < |w| && Unmarked(w[k]) == Unmarked(OneOut(c, i))
      && (!w[k].isStationary ==> w[k] == OneOut(c, i))
  {
    hide Steps, ProcessOne, Unmarked, Fits, Whole, First, Rest;
    PartsAreSorted(c);
    OutIsCarried(c.s, c.history, c.points, c.through, i);
  }

  lemma TwoOutIsCarried(c: Cut, i: nat)
    requires Fits(c) && c.n <= i < |c.points| && TwoOut(c, i).isAccepted
    ensures
      var k, r := |TwoAt(c, i).accepted|, Rest(c).accepted;
      && k < |r| && Unmarked(r[k]) == Unmarked(TwoOut(c, i))
      && (!r[k].isStationary ==> r[k] == TwoOut(c, i))
  {
    hide Steps, ProcessOne, Unmarked, Fits, Whole, First, Rest, Watermark, Reloaded;
    PartsAreSorted(c);
    OutIsCarried(c.s, Reloaded(c), c.points[c.n..], Watermark(c), i - c.n);
    assert NextOf(c.points[c.n..], i - c.n) == NextOf(c.points, i);
  }

  // An accepted point of the second batch in the outputs of both.
  lemma OutsAreCarried(c: Cut, i: nat)
    requires Fits(c) && !SpikeAtCut(c) && c.n <= i < |c.points| && OneOut(c, i).isAccepted
    ensures
      var k, w, r := |OneAt(c, i).accepted|, Whole(c).accepted, Rest(c).accepted;
      var d := |First(c).accepted|;
      && d <= k < |w| && k - d < |r| && TwoOut(c, i).isAccepted && Bare(OneOut(c, i)) == Bare(TwoOut(c, i))
      && Unmarked(w[k]) == Unmarked(OneOut(c, i)) && Unmarked(r[k - d]) == Unmarked(TwoOut(c, i))
      && (!w[k].isStationary ==> w[k] == OneOut(c, i))
      && (!r[k - d].isStationary ==> r[k - d] == TwoOut(c, i))
  {
    hide *;
    RunsStayAligned(c, i);
    AlignedCounts(c, i);
    AcceptAlike(c, i);
    OneOutIsCarried(c, i);
    TwoOutIsCarried(c, i);
  }

  lemma AlignedCounts(c: Cut, i: nat)
    requires c.n <= i <= |c.points| && Aligned(c, i)
    ensures |OneAt(c, i).accepted| == |First(c).accepted| + |TwoAt(c, i).accepted|
  {
    hide OneAt, First, TwoAt, Bare;
  }

  lemma SmoothingIsNeeded(c: Cut, i: nat)
    requires Fits(c) && !SpikeAtCut(c) && c.n <= i < |c.points| && Whole(c).accepted == Joined(c)
    ensures SmoothedAlike(c, i)
  {
    hide *;
    if OneOut(c, i).isAccepted {
      OutsAreCarried(c, i);
      FiltersAre(c, i);
      var k := |OneAt(c, i).accepted|;
      JoinedAt(c, k);
      SameFiltered(Whole(c).accepted[k], OneOut(c, i));
      SameFiltered(Whole(c).accepted[k], TwoOut(c, i));
    }
    SmoothedAlikeIs(c, i);
  }

  lemma SmoothedAlikeIs(c: Cut, i: nat)
    requires c.n <= i < |c.points|
    requires OneOut(c, i).isAccepted ==>
               Smoothed(c.s, OneAt(c, i).window, c.points[i]) == Smoothed(c.s, TwoAt(c, i).window, c.points[i])
    ensures SmoothedAlike(c, i)
  {
    hide OneAt, TwoAt, OneOut, Smoothed;
  }

  lemma JoinedAt(c: Cut, k: nat)
    requires c.n <= |c.points| && |First(c).accepted| <= k < |Joined(c)|
    ensures Joined(c)[k] == Rest(c).accepted[k - |First(c).accepted|]
  {
    hide First, Rest;
  }

  lemma FiltersAre(c: Cut, i: nat)
    requires c.n <= i < |c.points| && OneOut(c, i).isAccepted && TwoOut(c, i).isAccepted
    ensures OneOut(c, i).filtered == Some(Smoothed(c.s, OneAt(c, i).window, c.points[i]))
    ensures TwoOut(c, i).filtered == Some(Smoothed(c.s, TwoAt(c, i).window, c.points[i]))
  {
    OutIs(c.s, OneAt(c, i).window, c.points[i], NextOf(c.points, i), c.through);
    OutIs(c.s, TwoAt(c, i).window, c.points[i], NextOf(c.points, i), Watermark(c));
    hide OneAt, TwoAt, Watermark, Bare, Smoothed, DetectOutlier, ProcessOne;
  }

  lemma SameFiltered(p: ProcessedPoint, q: ProcessedPoint)
    requires Unmarked(p) == Unmarked(q)
    ensures p.filtered == q.filtered
  {
    assert Unmarked(p).filtered == Unmarked(q).filtered;
  }

  // ---- marks ----

  // Where the window that ends at the j-th accepted point begins, if it covers the k-th.
  function CoverStart(s: Setup, history: seq<ProcessedPoint>, accepted: seq<ProcessedPoint>, j: int,
                      k: int): Option<Time> {
    if Covers(s, history, accepted, j, k) then Some(SinceOf(s, history, accepted, j)) else None
  }

  // The k-th point is dated by the window that ends at the j-th, the last one to cover it.
  ghost predicate LastStart(s: Setup, history: seq<ProcessedPoint>, accepted: seq<ProcessedPoint>, j: int, k: int) {
    && CoverStart(s, history, accepted, j, k).Some?
    && forall i :: j < i ==> CoverStart(s, history, accepted, i, k).None?
  }

  // A point is stationary exactly when some window covers it, and the last one dates it.
  lemma MarkSays(s: Setup, h: seq<ProcessedPoint>, a: seq<ProcessedPoint>, k: int) returns (j: int)
    requires 0 <= k < |a| && MarkFits(s, h, a, k)
    ensures a[k].isStationary <==> exists i :: CoverStart(s, h, a, i, k).Some?
    ensures a[k].isStationary ==>
              && LastStart(s, h, a, j, k) && a[k].stationarySince == CoverStart(s, h, a, j, k)
              && a[k].distanceDeltaM == 0.0 && a[k].noiseReason == Stationary
    ensures !a[k].isStationary ==> a[k].stationarySince.None?
  {
    hide Triggers, WindowAt;
    j := 0;
    if a[k].isStationary {
      j :| DatedBy(s, h, a, j, k);
      assert CoverStart(s, h, a, j, k).Some?;
    } else {
      forall i ensures CoverStart(s, h, a, i, k).None? {
        assert !Covers(s, h, a, i, k);
      }
    }
  }

  // The same fixes, covered by the same windows, end up with the same marks.
  lemma SameCoversSameMarks(s: Setup, h: seq<ProcessedPoint>, a: seq<ProcessedPoint>, k: int,
                            h2: seq<ProcessedPoint>, b: seq<ProcessedPoint>, d: int)
    requires 0 <= k < |a| && 0 <= k - d < |b|
    requires MarkFits(s, h, a, k) && MarkFits(s, h2, b, k - d) && Unmarked(a[k]) == Unmarked(b[k - d])
    requires SameStarts(s, h, a, k, h2, b, d)
    ensures a[k].isStationary == b[k - d].isStationary
    ensures a[k].isStationary ==> a[k] == b[k - d]
  {
    hide *;
    var i := MarkSays(s, h, a, k);
    var j := MarkSays(s, h2, b, k - d);
    SameStartAt(s, h, a, k, h2, b, d, i);
    SameStartAt(s, h, a, k, h2, b, d, j + d);
    assert (j + d) - d == j;
    if a[k].isStationary && b[k - d].isStationary {
      SameLast(s, h, a, i, k, h2, b, j, d);
      SameMarks(a[k], b[k - d]);
    } else if b[k - d].isStationary {
      LastIsSome(s, h2, b, j, k - d);
    } else if a[k].isStationary {
      LastIsSome(s, h, a, i, k);
    }
  }

  ghost predicate SameStarts(s: Setup, h: seq<ProcessedPoint>, a: seq<ProcessedPoint>, k: int, h2: seq<ProcessedPoint>,
                             b: seq<ProcessedPoint>, d: int) {
    forall j :: CoverStart(s, h, a, j, k) == CoverStart(s, h2, b, j - d, k - d)
  }

  lemma SameStartAt(s: Setup, h: seq<ProcessedPoint>, a: seq<ProcessedPoint>, k: int, h2: seq<ProcessedPoint>,
                    b: seq<ProcessedPoint>, d: int, j: int)
    requires SameStarts(s, h, a, k, h2, b, d)
    ensures CoverStart(s, h, a, j, k) == CoverStart(s, h2, b, j - d, k - d)
  {
  }

  lemma LastIsSome(s: Setup, h: seq<ProcessedPoint>, a: seq<ProcessedPoint>, j: int, k: int)
    requires LastStart(s, h, a, j, k)
    ensures CoverStart(s, h, a, j, k).Some?
  {
  }

  lemma SameLast(s: Setup, h: seq<ProcessedPoint>, a: seq<ProcessedPoint>, i: int, k: int, h2: seq<ProcessedPoint>,
                 b: seq<ProcessedPoint>, j: int, d: int)
    requires LastStart(s, h, a, i, k) && LastStart(s, h2, b, j, k - d)
    requires CoverStart(s, h, a, i, k) == CoverStart(s, h2, b, i - d, k - d)
    requires CoverStart(s, h, a, j + d, k) == CoverStart(s, h2, b, j, k - d)
    ensures i == j + d
  {
    hide CoverStart;
  }

  lemma SameMarks(p: ProcessedPoint, q: ProcessedPoint)
    requires Unmarked(p) == Unmarked(q) && p.isStationary && q.isStationary
    requires p.distanceDeltaM == q.distanceDeltaM && p.noiseReason == q.noiseReason
    requires p.stationarySince == q.stationarySince
    ensures p == q
  {
    assert p == Unmarked(p).(isStationary := true, distanceDeltaM := p.distanceDeltaM, noiseReason := p.noiseReason,
                             stationarySince := p.stationarySince);
    assert q == Unmarked(q).(isStationary := true, distanceDeltaM := q.distanceDeltaM, noiseReason := q.noiseReason,
                             stationarySince := q.stationarySince);
  }

  lemma MarksAre(c: Cut)
    requires Fits(c)
    ensures MarksFit(c.s, c.history, Whole(c).accepted)
    ensures MarksFit(c.s, c.history, First(c).accepted)
    ensures MarksFit(c.s, Reloaded(c), Rest(c).accepted)
  {
    ReloadedFits(c);
    MarksAreDeclarative(c.s, c.history, c.points, c.through);
    MarksAreDeclarative(c.s, c.history, c.points[..c.n], c.through);
    MarksAreDeclarative(c.s, Reloaded(c), c.points[c.n..], Watermark(c));
    hide Pipeline, MarksFit, Reloaded, InputFits, Watermark, Sorted;
  }

  // Windows of the second batch reach back over the reloaded points as they do in one batch.
  lemma CoversShift(s: Setup, h: seq<ProcessedPoint>, f: seq<ProcessedPoint>, h2: seq<ProcessedPoint>,
                    r: seq<ProcessedPoint>, j: int, k: int)
    requires AcceptedOnly(h2) == AcceptedOnly(h) + f && |f| <= k
    ensures CoverStart(s, h, f + r, j, k) == CoverStart(s, h2, r, j - |f|, k - |f|)
  {
    if |f| <= j < |f + r| {
      WindowShifts(s, h, f, h2, r, j);
    }
    hide WindowAt, DetectStationary, AcceptedOnly;
  }

  lemma CoverStartIgnoresMarks(s: Setup, h: seq<ProcessedPoint>, a: seq<ProcessedPoint>, b: seq<ProcessedPoint>, j: int,
                               k: int)
    requires SameFixes(a, b)
    ensures CoverStart(s, h, a, j, k) == CoverStart(s, h, b, j, k)
  {
    CoversIgnoresMarks(s, h, a, b, j, k);
    hide Triggers, WindowAt, Unmarked;
  }

  lemma WindowShifts(s: Setup, h: seq<ProcessedPoint>, f: seq<ProcessedPoint>, h2: seq<ProcessedPoint>,
                     r: seq<ProcessedPoint>, j: int)
    requires AcceptedOnly(h2) == AcceptedOnly(h) + f && |f| <= j < |f + r|
    ensures WindowAt(s, h, f + r, j) == WindowAt(s, h2, r, j - |f|)
  {
    hide AcceptedOnly, Trim;
    assert (f + r)[..j + 1] == f + r[..j - |f| + 1];
    assert AcceptedOnly(h) + (f + r[..j - |f| + 1]) == AcceptedOnly(h) + f + r[..j - |f| + 1];
  }

  // With the same fixes, the points of the second batch are marked alike.
  lemma MarkedAlike(s: Setup, h: seq<ProcessedPoint>, w: seq<ProcessedPoint>, f: seq<ProcessedPoint>,
                    h2: seq<ProcessedPoint>, r: seq<ProcessedPoint>, k: int)
    requires AcceptedOnly(h2) == AcceptedOnly(h) + f && SameFixes(w, f + r) && |f| <= k < |w|
    requires MarksFit(s, h, w) && MarksFit(s, h2, r)
    ensures w[k].isStationary == r[k - |f|].isStationary && (w[k].isStationary ==> w[k] == r[k - |f|])
  {
    var d := |f|;
    hide CoverStart, MarkFits, Unmarked, AcceptedOnly;
    assert Unmarked(w[k]) == Unmarked((f + r)[k]);
    forall j ensures CoverStart(s, h, w, j, k) == CoverStart(s, h2, r, j - d, k - d) {
      CoverStartIgnoresMarks(s, h, w, f + r, j, k);
      CoversShift(s, h, f, h2, r, j, k);
    }
    SameCoversSameMarks(s, h, w, k, h2, r, d);
  }

  lemma RestMarkedAlike(c: Cut, k: int)
    requires Fits(c) && SameFixes(Whole(c).accepted, Joined(c)) && |First(c).accepted| <= k < |Whole(c).accepted|
    ensures
      var w, r := Whole(c).accepted, Rest(c).accepted[k - |First(c).accepted|];
      w[k].isStationary == r.isStationary && (w[k].isStationary ==> w[k] == r)
  {
    hide Whole, First, Rest, MarksFit, AcceptedOnly, Fits, InputFits, Increasing, Unmarked;
    FitsBounds(c);
    MarksAre(c);
    ReloadedFits(c);
    MarkedAlike(c.s, c.history, Whole(c).accepted, First(c).accepted, Reloaded(c), Rest(c).accepted, k);
  }

  // ---- the points of the first batch ----

  lemma CoverPrefix(s: Setup, h: seq<ProcessedPoint>, w: seq<ProcessedPoint>, f: seq<ProcessedPoint>, j: int, k: int)
    requires CarriedOn(f, w) && j < |f|
    ensures CoverStart(s, h, w, j, k) == CoverStart(s, h, f, j, k)
  {
    var prefix := w[..|f|];
    assert SameFixes(prefix, f) by { hide Unmarked; }
    CoverStartIgnoresMarks(s, h, prefix, f, j, k);
    if 0 <= j {
      assert prefix[..j + 1] == w[..j + 1];
    }
    hide DetectStationary, Trim, Unmarked, AcceptedOnly;
  }

  // A point of the first batch keeps its marks exactly when no later window dates it anew.
  lemma PrefixMarks(s: Setup, h: seq<ProcessedPoint>, w: seq<ProcessedPoint>, f: seq<ProcessedPoint>, k: int)
    requires CarriedOn(f, w) && 0 <= k < |f| && MarkFits(s, h, w, k) && MarkFits(s, h, f, k)
    ensures w[k] == f[k] <==> KeepsDate(s, h, w, f, k)
  {
    hide *;
    CarriedAt(f, w, k);
    var i := MarkSays(s, h, w, k);
    var j := MarkSays(s, h, f, k);
    if !w[k].isStationary {
      UncoveredKeepsDate(s, h, w, f, k);
    } else {
      KeepsDateWhen(s, h, w, f, k, i);
      LastIsSome(s, h, w, i, k);
      if i < |f| {
        CoverPrefix(s, h, w, f, i, k);
        LastIsSome(s, h, f, j, k);
        CoverInside(s, h, f, j, k);
        CoverPrefix(s, h, w, f, j, k);
        LastIsLatest(s, h, w, i, k, j);
        LastIsLatest(s, h, f, j, k, i);
      }
      if f[k].isStationary && f[k].stationarySince == w[k].stationarySince {
        SameMarks(w[k], f[k]);
      }
    }
  }

  lemma CarriedAt(a: seq<ProcessedPoint>, b: seq<ProcessedPoint>, k: int)
    requires CarriedOn(a, b) && 0 <= k < |a|
    ensures k < |b| && Unmarked(b[k]) == Unmarked(a[k]) && (!b[k].isStationary ==> b[k] == a[k])
  {
  }

  lemma LastIsLatest(s: Setup, h: seq<ProcessedPoint>, a: seq<ProcessedPoint>, j: int, k: int, i: int)
    requires LastStart(s, h, a, j, k) && CoverStart(s, h, a, i, k).Some?
    ensures i <= j
  {
    hide CoverStart;
  }

  lemma UncoveredKeepsDate(s: Setup, h: seq<ProcessedPoint>, w: seq<ProcessedPoint>, f: seq<ProcessedPoint>, k: int)
    requires 0 <= k < |f| && forall i :: CoverStart(s, h, w, i, k).None?
    ensures KeepsDate(s, h, w, f, k)
  {
    hide CoverStart;
  }

  // Only the last window matters.
  lemma KeepsDateWhen(s: Setup, h: seq<ProcessedPoint>, w: seq<ProcessedPoint>, f: seq<ProcessedPoint>, k: int, i: int)
    requires 0 <= k < |f| && LastStart(s, h, w, i, k)
    ensures KeepsDate(s, h, w, f, k) <==> i < |f| || f[k].stationarySince == CoverStart(s, h, w, i, k)
  {
    hide CoverStart;
    forall j | LastStart(s, h, w, j, k) ensures j == i {
      LastIsLatest(s, h, w, i, k, j);
      LastIsLatest(s, h, w, j, k, i);
    }
  }

  lemma CoverInside(s: Setup, h: seq<ProcessedPoint>, f: seq<ProcessedPoint>, j: int, k: int)
    ensures CoverStart(s, h, f, j, k).Some? ==> j < |f|
  {
  }

  lemma FirstIsCarried(c: Cut)
    requires Fits(c) && !SpikeAtCut(c)
    ensures CarriedOn(First(c).accepted, Whole(c).accepted)
  {
    hide Steps, CarriedOn, First, Whole, Rest, Fits, SpikeAtCut, Reloaded, Watermark;
    FitsBounds(c);
    FirstIsPrefix(c);
    PartsAreSorted(c);
    StepsCarry(c.s, c.history, c.points, c.through, c.n, |c.points|);
  }

  lemma FirstHalf(c: Cut)
    requires Fits(c) && !SpikeAtCut(c)
    ensures |First(c).accepted| <= |Whole(c).accepted|
    ensures Whole(c).accepted[..|First(c).accepted|] == First(c).accepted <==> NothingDatedBack(c)
  {
    var w, f := Whole(c).accepted, First(c).accepted;
    hide First, Whole, Rest, Fits, SpikeAtCut, MarkFits, KeepsDate, Unmarked;
    FirstIsCarried(c);
    MarksAre(c);
    FitsBounds(c);
    forall k | 0 <= k < |f| ensures w[k] == f[k] <==> KeepsDate(c.s, c.history, w, f, k) {
      PrefixMarks(c.s, c.history, w, f, k);
    }
    if w[..|f|] == f {
      assert forall k :: 0 <= k < |f| ==> w[k] == w[..|f|][k];
    }
  }

  // ---- the points of the second batch ----

  lemma PushesOne(c: Cut, i: nat)
    requires c.n <= i < |c.points|
    ensures |OneAt(c, i + 1).accepted| == |OneAt(c, i).accepted| + (if OneOut(c, i).isAccepted then 1 else 0)
  {
    hide OneAt, ProcessOne, Step, TwoAt, CarriedOn;
    StepCarries(c.s, OneAt(c, i), c.points[i], NextOf(c.points, i), c.through);
    StepsOneMore(c, i);
  }

  // The point at which the k-th accepted one was pushed.
  lemma PushedAt(c: Cut, k: nat, i: nat) returns (r: nat)
    requires c.n <= i <= |c.points| && |OneAt(c, c.n).accepted| <= k < |OneAt(c, i).accepted|
    ensures c.n <= r < |c.points| && |OneAt(c, r).accepted| == k && OneOut(c, r).isAccepted
    decreases i
  {
    hide *;
    PushesOne(c, i - 1);
    if k < |OneAt(c, i - 1).accepted| {
      r := PushedAt(c, k, i - 1);
    } else {
      r := i - 1;
    }
  }

  lemma CreditsAre(c: Cut, i: nat)
    requires c.n <= i < |c.points| && OneOut(c, i).isAccepted && TwoOut(c, i).isAccepted
    ensures !OneOut(c, i).isStationary ==>
              HasCredit(OneOut(c, i), CreditOf(c.s, OneAt(c, i).window, c.points[i]))
    ensures !TwoOut(c, i).isStationary ==>
              HasCredit(TwoOut(c, i), CreditOf(c.s, TwoAt(c, i).window, c.points[i]))
  {
    OutIs(c.s, OneAt(c, i).window, c.points[i], NextOf(c.points, i), c.through);
    OutIs(c.s, TwoAt(c, i).window, c.points[i], NextOf(c.points, i), Watermark(c));
    hide OneAt, TwoAt, Watermark, Bare, Smoothed, DetectOutlier, ProcessOne, CreditOf;
  }

  predicate HasCredit(p: ProcessedPoint, credit: Credit) {
    p.distanceDeltaM == credit.distanceM && p.noiseReason == credit.reason && p.stationarySince.None?
  }

  lemma SameWhenMoving(p: ProcessedPoint, q: ProcessedPoint, credit: Credit)
    requires Unmarked(p) == Unmarked(q) && !p.isStationary && !q.isStationary
    requires HasCredit(p, credit) && HasCredit(q, credit)
    ensures p == q
  {
    assert p == Unmarked(p).(distanceDeltaM := p.distanceDeltaM, noiseReason := p.noiseReason);
    assert q == Unmarked(q).(distanceDeltaM := q.distanceDeltaM, noiseReason := q.noiseReason);
  }

  lemma RestPointAlike(c: Cut, k: nat)
    requires Fits(c) && !SpikeAtCut(c) && SameFixes(Whole(c).accepted, Joined(c))
    requires |First(c).accepted| <= k < |Whole(c).accepted|
    requires forall i :: c.n <= i < |c.points| ==> CreditedAlike(c, i)
    ensures Whole(c).accepted[k] == Joined(c)[k]
  {
    hide *;
    var i := PushedIndex(c, k);
    RestMarkedAlike(c, k);
    SameFixesLength(Whole(c).accepted, Joined(c), k);
    JoinedAt(c, k);
    if !Whole(c).accepted[k].isStationary {
      OutsAreCarried(c, i);
      CreditsAre(c, i);
      CreditedAlikeAt(c, i);
      SameWhenMoving(Whole(c).accepted[k], Joined(c)[k], CreditOf(c.s, OneAt(c, i).window, c.points[i]));
    }
  }

  lemma SameFixesLength(a: seq<ProcessedPoint>, b: seq<ProcessedPoint>, k: nat)
    requires SameFixes(a, b) && k < |a|
    ensures |a| == |b| && Unmarked(a[k]) == Unmarked(b[k])
  {
  }

  lemma CreditedAlikeAt(c: Cut, i: nat)
    requires c.n <= i < |c.points| && CreditedAlike(c, i) && OneOut(c, i).isAccepted
    requires |OneAt(c, i).accepted| < |Whole(c).accepted| && !Whole(c).accepted[|OneAt(c, i).accepted|].isStationary
    ensures CreditOf(c.s, OneAt(c, i).window, c.points[i]) == CreditOf(c.s, TwoAt(c, i).window, c.points[i])
  {
    hide CreditOf, OneAt, TwoAt, OneOut, Whole;
  }

  lemma PushedIndex(c: Cut, k: nat) returns (i: nat)
    requires Fits(c) && !SpikeAtCut(c) && |First(c).accepted| <= k < |Whole(c).accepted|
    ensures c.n <= i < |c.points| && |OneAt(c, i).accepted| == k && OneOut(c, i).isAccepted
  {
    hide *;
    FitsBounds(c);
    FirstIsPrefix(c);
    PartsAreSorted(c);
    i := PushedAt(c, k, |c.points|);
  }

  lemma CreditIsNeeded(c: Cut, i: nat)
    requires Fits(c) && !SpikeAtCut(c) && c.n <= i < |c.points| && Whole(c).accepted == Joined(c)
    ensures CreditedAlike(c, i)
  {
    hide *;
    if OneOut(c, i).isAccepted {
      OutsAreCarried(c, i);
      CreditsAre(c, i);
      var k := |OneAt(c, i).accepted|;
      JoinedAt(c, k);
      if !Whole(c).accepted[k].isStationary {
        SameCredit(OneOut(c, i), CreditOf(c.s, OneAt(c, i).window, c.points[i]),
                   CreditOf(c.s, TwoAt(c, i).window, c.points[i]));
      }
    }
    CreditedAlikeIs(c, i);
  }

  lemma SameCredit(p: ProcessedPoint, a: Credit, b: Credit)
    requires HasCredit(p, a) && HasCredit(p, b)
    ensures a == b
  {
  }

  lemma CreditedAlikeIs(c: Cut, i: nat)
    requires c.n <= i < |c.points|
    requires OneOut(c, i).isAccepted && |OneAt(c, i).accepted| < |Whole(c).accepted|
             && !Whole(c).accepted[|OneAt(c, i).accepted|].isStationary ==>
               CreditOf(c.s, OneAt(c, i).window, c.points[i]) == CreditOf(c.s, TwoAt(c, i).window, c.points[i])
    ensures CreditedAlike(c, i)
  {
    hide CreditOf, OneAt, TwoAt, OneOut, Whole;
  }

  // ---- a spike at the cut ----

  lemma {:induction false} VerdictsStay(s: Setup, history: seq<ProcessedPoint>, points: seq<RawPoint>,
                                        through: Option<Time>, i: nat, j: nat, k: nat)
    requires k < i <= j <= |points|
    ensures k < |Steps(s, history, points, through, i).processed|
    ensures k < |Steps(s, history, points, through, j).processed|
    ensures Steps(s, history, points, through, j).processed[k].isAccepted
            == Steps(s, history, points, through, i).processed[k].isAccepted
  {
    ProcessedCount(s, history, points, through, i);
    ProcessedCount(s, history, points, through, j);
    if i < j {
      VerdictsStay(s, history, points, through, i, j - 1, k);
      StepKeepsVerdicts(s, Steps(s, history, points, through, j - 1), points[j - 1], NextOf(points, j - 1), through, k);
    }
    hide Step;
  }

  lemma StepKeepsVerdicts(s: Setup, g: Progress, raw: RawPoint, next: Option<RawPoint>, through: Option<Time>, k: nat)
    requires k < |g.processed|
    ensures
      var after := Step(s, g, raw, next, through).processed;
      k < |after| && after[k].isAccepted == g.processed[k].isAccepted
  {
    hide ProcessOne, Trim;
  }

  predicate Mentions(points: seq<ProcessedPoint>, id: EventId) {
    exists k :: 0 <= k < |points| && points[k].eventId == id
  }

  lemma SpikeIsJoined(c: Cut)
    requires Fits(c) && SpikeAtCut(c)
    ensures Mentions(Joined(c), c.points[c.n - 1].eventId)
  {
    CutEndsAlike(c.s, c.history, c.points, c.through, c.n);
    OutputInOrder(c.s, c.history, c.points[..c.n], c.through);
    SortedSlices(c.points, c.n);
    SortOfSorted(RawBefore, c.points[..c.n]);
    var f := First(c);
    assert Records(f.processed[c.n - 1], c.points[..c.n][c.n - 1]);
    assert f.processed[c.n - 1] in f.accepted;
    hide Pipeline, Steps, Sort, Sorted, ShownByNext, Rest;
    var k :| 0 <= k < |f.accepted| && f.accepted[k] == f.processed[c.n - 1];
    assert Joined(c)[k] == f.accepted[k];
  }

  lemma SpikeIsRejected(c: Cut)
    requires Fits(c) && SpikeAtCut(c)
    ensures !Mentions(Whole(c).accepted, c.points[c.n - 1].eventId)
  {
    hide Pipeline, Steps, Sort, Sorted, ShownByNext, Rest, First, AcceptedOnly, Records, InputFits, Increasing;
    CutEndsAlike(c.s, c.history, c.points, c.through, c.n);
    OutputInOrder(c.s, c.history, c.points, c.through);
    PartsAreSorted(c);
    SortOfSorted(RawBefore, c.points);
    VerdictsStay(c.s, c.history, c.points, c.through, c.n, |c.points|, c.n - 1);
    RejectedIsAbsent(Whole(c).processed, c.points, c.n - 1);
  }

  lemma RejectedIsAbsent(processed: seq<ProcessedPoint>, points: seq<RawPoint>, n: nat)
    requires n < |processed| == |points| && DistinctIds(points) && !processed[n].isAccepted
    requires forall i :: 0 <= i < |points| ==> Records(processed[i], points[i])
    ensures !Mentions(AcceptedOnly(processed), points[n].eventId)
  {
    var accepted := AcceptedOnly(processed);
    forall k | 0 <= k < |accepted| ensures accepted[k].eventId != points[n].eventId {
      assert accepted[k] in processed;
      var i :| 0 <= i < |processed| && processed[i] == accepted[k];
      assert Records(processed[i], points[i]) && processed[i].isAccepted by {
        assert accepted[k] in accepted;
      }
    }
  }

  // ---- the theorems ----

  function Ids(points: seq<ProcessedPoint>): seq<EventId> {
    seq(|points|, k requires 0 <= k < |points| => points[k].eventId)
  }

  lemma SameIdsMention(a: seq<ProcessedPoint>, b: seq<ProcessedPoint>, id: EventId)
    requires Ids(a) == Ids(b) && Mentions(b, id)
    ensures Mentions(a, id)
  {
    var k :| 0 <= k < |b| && b[k].eventId == id;
    assert Ids(b)[k] == Ids(a)[k] == a[k].eventId;
  }

  lemma SameBareSameIds(a: seq<ProcessedPoint>, b: seq<ProcessedPoint>)
    requires SameBare(a, b)
    ensures Ids(a) == Ids(b)
  {
    forall k | 0 <= k < |a| ensures a[k].eventId == b[k].eventId {
      assert Bare(a[k]).eventId == Bare(b[k]).eventId;
    }
  }

  // Over complete outputs: one batch and two accept the same points exactly when the last
  // point before the cut is no spike that only the next one gives away.
  lemma {:induction false} SamePointsAreAccepted(c: Cut)
    requires Fits(c)
    ensures Ids(Whole(c).accepted) == Ids(Joined(c)) <==> !SpikeAtCut(c)
  {
    hide *;
    FitsBounds(c);
    if SpikeAtCut(c) {
      SpikeIsJoined(c);
      SpikeIsRejected(c);
      if Ids(Whole(c).accepted) == Ids(Joined(c)) {
        SameIdsMention(Whole(c).accepted, Joined(c), c.points[c.n - 1].eventId);
      }
    } else {
      RunsEndAligned(c);
      SameBareSameIds(Whole(c).accepted, Joined(c));
    }
  }

  lemma RunsEndAligned(c: Cut)
    requires Fits(c) && !SpikeAtCut(c)
    ensures SameBare(Whole(c).accepted, Joined(c))
  {
    RunsStayAligned(c, |c.points|);
    PartsAreSorted(c);
    hide OneAt, TwoAt, First, Whole, Rest, SameBare, SpikeAtCut;
  }

  lemma RunsEndFixed(c: Cut)
    requires Fits(c) && !SpikeAtCut(c)
    requires forall j :: c.n <= j < |c.points| ==> SmoothedAlike(c, j)
    ensures SameFixes(Whole(c).accepted, Joined(c))
  {
    RunsStayFixed(c, |c.points|);
    PartsAreSorted(c);
    hide OneAt, TwoAt, First, Whole, Rest, SameFixes, SpikeAtCut, SmoothedAlike;
  }

  // One batch and two end with the same accepted points, marks, distances and positions and
  // all, exactly when none of the four ways applies: no spike shows at the cut, no standstill
  // of the second batch reaches back over it, and reloading the history changes neither what
  // the smoother makes of a later point nor what it is credited.
  lemma {:induction false} CutIsHarmless(c: Cut)
    requires Fits(c)
    ensures Whole(c).accepted == Joined(c)
            <==> && !SpikeAtCut(c)
                 && NothingDatedBack(c)
                 && (forall i :: c.n <= i < |c.points| ==> SmoothedAlike(c, i) && CreditedAlike(c, i))
  {
    hide *;
    FitsBounds(c);
    SamePointsAreAccepted(c);
    if !SpikeAtCut(c) {
      FirstHalf(c);
      if Whole(c).accepted == Joined(c) {
        JoinedBegins(c);
        forall i | c.n <= i < |c.points| ensures SmoothedAlike(c, i) && CreditedAlike(c, i) {
          SmoothingIsNeeded(c, i);
          CreditIsNeeded(c, i);
        }
      }
      if NothingDatedBack(c) && (forall i :: c.n <= i < |c.points| ==> SmoothedAlike(c, i) && CreditedAlike(c, i)) {
        RunsEndFixed(c);
        HalvesMakeWhole(c);
      }
    }
  }

  lemma JoinedBegins(c: Cut)
    requires c.n <= |c.points|
    ensures |First(c).accepted| <= |Joined(c)| && Joined(c)[..|First(c).accepted|] == First(c).accepted
  {
    hide First, Rest;
  }

  lemma HalvesMakeWhole(c: Cut)
    requires Fits(c) && !SpikeAtCut(c) && SameFixes(Whole(c).accepted, Joined(c))
    requires |First(c).accepted| <= |Whole(c).accepted|
    requires Whole(c).accepted[..|First(c).accepted|] == First(c).accepted
    requires forall i :: c.n <= i < |c.points| ==> CreditedAlike(c, i)
    ensures Whole(c).accepted == Joined(c)
  {
    hide *;
    FitsBounds(c);
    JoinedBegins(c);
    var w, j, d := Whole(c).accepted, Joined(c), |First(c).accepted|;
    SameLength(w, j);
    forall k | 0 <= k < |w| ensures w[k] == j[k] {
      if k < d {
        assert w[k] == w[..d][k] && j[k] == j[..d][k];
      } else {
        RestPointAlike(c, k);
      }
    }
  }

  lemma SameLength(a: seq<ProcessedPoint>, b: seq<ProcessedPoint>)
    requires SameFixes(a, b)
    ensures |a| == |b|
  {
  }
}
