// Each of the four ways in which cutting a batch may show does occur, the last three on their
// own: every other condition for a harmless cut holds there.
module CutWitnesses {
  import opened Domain
  import opened Sorting
  import opened Noise
  import opened NoiseOutput
  import opened NoiseBoundary
  import opened NoiseCut
  import opened Smoothing

  // Along one meridian, in metres.
  function Along(p: GeoPoint, q: GeoPoint): real {
    if p.lat <= q.lat then q.lat - p.lat else p.lat - q.lat
  }

  // None of the inputs below depends on an odd notion of distance.
  lemma WitnessesAreMetric()
    ensures IsMetric(BackMarking().s.dist) && IsMetric(Spiking().s.dist)
    ensures IsMetric(LosingAnchor().s.dist) && IsMetric(LongSmoothing().s.dist)
  {
  }

  function Unsmoothed(history: seq<ProcessedPoint>, raw: RawPoint): GeoPoint {
    raw.position
  }

  // The defaults, but a standstill shows after one second and two points.
  const QUICK_CONFIG := DEFAULT_NOISE_CONFIG.(stationaryWindowSec := 10, stationaryMinDurationSec := 1,
                                              stationaryMinPoints := 2)

  function At(id: EventId, second: int, metre: real, speed: real): RawPoint {
    RawPoint(id, Seconds(second), GeoPoint(metre, 0.0), 1.0, Some(speed), "unknown", None)
  }

  // What an accepted point looks like before it is marked.
  function Plain(raw: RawPoint, filtered: GeoPoint, implied: real, distance: real, reason: NoiseReason)
    : ProcessedPoint
  {
    Fresh(raw).(impliedSpeedMps := implied, filtered := Some(filtered), isAccepted := true, distanceDeltaM := distance,
                noiseReason := reason)
  }

  lemma StartsEmpty(s: Setup, points: seq<RawPoint>, through: Option<Time>)
    ensures Steps(s, [], points, through, 0) == Progress([], [], [])
  {
  }

  lemma StepsOn(s: Setup, history: seq<ProcessedPoint>, points: seq<RawPoint>, through: Option<Time>, n: nat)
    requires n < |points|
    ensures Steps(s, history, points, through, n + 1)
            == Step(s, Steps(s, history, points, through, n), points[n], NextOf(points, n), through)
  {
    hide Step;
  }

  lemma FirstPoint(s: Setup, raw: RawPoint, next: Option<RawPoint>)
    requires Validate(s.cfg, raw) == NoNoise && s.cfg.stationaryMinPoints >= 2 && s.cfg.stationaryWindowSec >= 0
    ensures
      var out := Plain(raw, s.smooth([], raw), 0.0, 0.0, NoNoise);
      && ProcessOne(s, [], raw, next, None) == out
      && Step(s, Progress([], [], []), raw, next, None) == Progress([out], [out], [out])
  {
    hide Validate;
    var out := Plain(raw, s.smooth([], raw), 0.0, 0.0, NoNoise);
    assert Trim([out], raw.recordedAt, s.cfg.stationaryWindowSec) == [out];
    assert [] + [out] == [out];
  }

  // The first point of a batch without history, in one batch and in a cut one.
  lemma StartsAlike(c: Cut)
    requires Fits(c) && c.history == [] && c.through == None
    requires Validate(c.s.cfg, c.points[0]) == NoNoise && c.s.cfg.stationaryMinPoints >= 2
    ensures
      var out := Plain(c.points[0], c.s.smooth([], c.points[0]), 0.0, 0.0, NoNoise);
      OneAt(c, 1) == Progress([out], [out], [out]) && (c.n == 1 ==> First(c).accepted == [out])
  {
    hide Step, Validate, Sorted, ProcessOne;
    StartsEmpty(c.s, c.points, None);
    StepsOn(c.s, [], c.points, None, 0);
    FirstPoint(c.s, c.points[0], NextOf(c.points, 0));
    if c.n == 1 {
      var start := c.points[..1];
      PartsAreSorted(c);
      StartsEmpty(c.s, start, None);
      StepsOn(c.s, [], start, None, 0);
      FirstPoint(c.s, start[0], NextOf(start, 0));
    }
  }

  // A point at a distance that no speed check minds, before the stationary test.
  lemma Judged(s: Setup, window: seq<ProcessedPoint>, raw: RawPoint, next: Option<RawPoint>, implied: real)
    requires Validate(s.cfg, raw) == NoNoise && DetectOutlier(s, Last(window), raw, next) == Verdict(implied, false)
    ensures
      var plain := Plain(raw, Smoothed(s, window, raw), implied, 0.0, NoNoise);
      ProcessOne(s, window, raw, next, None) == Settled(s, window, Measured(s, window, raw, plain))
  {
    hide Validate, DetectOutlier, Settled, Measured, Trim;
  }

  lemma Pushes(s: Setup, g: Progress, raw: RawPoint, next: Option<RawPoint>, out: ProcessedPoint,
               window: seq<ProcessedPoint>)
    requires ProcessOne(s, g.window, raw, next, None) == out && out.isAccepted
    requires Trim(g.window + [out], raw.recordedAt, s.cfg.stationaryWindowSec) == window != []
    ensures
      var since, processed, accepted := window[0].recordedAt, g.processed + [out], g.accepted + [out];
      Step(s, g, raw, next, None)
      == if out.isStationary then Progress(window, MarkAcceptedFrom(processed, since), MarkFrom(accepted, since))
         else Progress(window, processed, accepted)
  {
    hide ProcessOne, Trim;
  }

  // ---- a standstill of the second batch reaches back ----

  function BackMarking(): Cut {
    Cut(Setup(QUICK_CONFIG, Along, Unsmoothed), [], [At("a", 1, 0.0, 0.0), At("b", 3, 0.0, 0.0)], None, 1)
  }

  lemma BackMarkingFits()
    ensures Fits(BackMarking())
  {
    var points := BackMarking().points;
    assert points[0].recordedAt < points[1].recordedAt;
    assert Sorted(RawBefore, points);
    assert AcceptedOnly([]) == [];
  }

  lemma BackMarkingSteps(g: Progress, a: ProcessedPoint)
    requires a == Plain(At("a", 1, 0.0, 0.0), GeoPoint(0.0, 0.0), 0.0, 0.0, NoNoise) && g == Progress([a], [a], [a])
    ensures
      var after := Step(BackMarking().s, g, At("b", 3, 0.0, 0.0), None, None);
      |after.accepted| == 2 && after.accepted[0].isStationary && after.accepted[1].isStationary
  {
    var s, raw := BackMarking().s, At("b", 3, 0.0, 0.0);
    var b := Plain(raw, raw.position, 0.0, 0.0, Jitter);
    assert Measured(s, [a], raw, b.(noiseReason := NoNoise)) == b;
    assert DropBefore([a, b], Seconds(3) - Seconds(10)) == [a, b];
    assert [a] + [b] == [a, b];
    assert DetectStationary(s, [a, b]);
    var marked := MarkedStationary(b, Seconds(1));
    assert Settled(s, [a], b) == marked;
    Judged(s, [a], raw, None, 0.0);
    assert [a] + [marked] == [a, marked];
    assert DropBefore([a, marked], Seconds(3) - Seconds(10)) == [a, marked];
    hide ProcessOne, Step, DetectStationary, Settled;
    Pushes(s, g, raw, None, marked, [a, marked]);
  }

  // Two points at one place: in one batch both end up stationary, but the first one does not
  // when it was saved before the second arrived.
  lemma {:induction false} StandstillReachesBack()
    ensures
      var c := BackMarking();
      && Fits(c) && Whole(c).accepted != Joined(c)
      && !SpikeAtCut(c) && SmoothedAlike(c, 1) && CreditedAlike(c, 1) && !NothingDatedBack(c)
  {
    var c := BackMarking();
    BackMarkingFits();
    StartsAlike(c);
    PartsAreSorted(c);
    var a := First(c).accepted[0];
    StepsOn(c.s, [], c.points, None, 1);
    BackMarkingSteps(OneAt(c, 1), a);
    assert Whole(c).accepted[0].isStationary && !Joined(c)[0].isStationary;
    CutIsHarmless(c);
    hide Steps, Step, First, Whole, Rest, TwoAt, NothingDatedBack, CreditOf, Fits;
  }

  // ---- a spike that only the next point gives away ----

  function Spiking(): Cut {
    Cut(Setup(DEFAULT_NOISE_CONFIG, Along, Unsmoothed), [],
        [At("a", 1, 0.0, 1.0), At("b", 2, 10.0, 1.0), At("c", 3, 0.0, 1.0)], None, 2)
  }

  lemma ThreePointsFit(c: Cut)
    requires c.history == [] && |c.points| == 3 && c.n == 2 && c.s.cfg.stationaryWindowSec >= 0
    requires c.points[0].eventId == "a" && c.points[1].eventId == "b" && c.points[2].eventId == "c"
    requires c.points[0].recordedAt < c.points[1].recordedAt < c.points[2].recordedAt
    ensures Fits(c)
  {
    var points := c.points;
    assert points[0].eventId[0] == 'a' && points[1].eventId[0] == 'b' && points[2].eventId[0] == 'c';
    assert Sorted(RawBefore, points);
    assert AcceptedOnly([]) == [];
  }

  // Ten metres away and back within two seconds: one batch rejects the point in the middle, a
  // batch that ends with it accepts it.
  lemma {:induction false} SpikeEndsTheBatch()
    ensures
      var c := Spiking();
      Fits(c) && SpikeAtCut(c) && Ids(Whole(c).accepted) != Ids(Joined(c)) && Whole(c).accepted != Joined(c)
  {
    var c := Spiking();
    SpikingStarts();
    SpikingSpikes(OneAt(c, 1).window);
    SamePointsAreAccepted(c);
    hide Steps, Whole, First, Rest, Joined, Fits, OneAt, ShownByNext;
  }

  lemma SpikingStarts()
    ensures
      var c := Spiking();
      Fits(c) && OneAt(c, 1).window == [Plain(c.points[0], GeoPoint(0.0, 0.0), 0.0, 0.0, NoNoise)]
  {
    var c := Spiking();
    ThreePointsFit(c);
    StartsAlike(c);
    hide Steps, First, Fits;
  }

  lemma SpikingSpikes(window: seq<ProcessedPoint>)
    requires window == [Plain(At("a", 1, 0.0, 1.0), GeoPoint(0.0, 0.0), 0.0, 0.0, NoNoise)]
    ensures ShownByNext(Spiking().s, window, At("b", 2, 10.0, 1.0), At("c", 3, 0.0, 1.0), None)
  {
  }

  // ---- an anchor is lost ----

  function LosingAnchor(): Cut {
    Cut(Setup(QUICK_CONFIG, Along, Unsmoothed), [],
        [At("a", 1, 0.0, 0.0), At("b", 3, 5.0, 0.0), At("c", 4, 40.0, 5.0)], None, 2)
  }

  function AnchorA(): ProcessedPoint {
    Plain(At("a", 1, 0.0, 0.0), GeoPoint(0.0, 0.0), 0.0, 0.0, NoNoise)
  }

  function StandingB(): ProcessedPoint {
    MarkedStationary(Plain(At("b", 3, 5.0, 0.0), GeoPoint(5.0, 0.0), 2.5, 0.0, Jitter), Seconds(1))
  }

  function MovedC(): ProcessedPoint {
    Plain(At("c", 4, 40.0, 5.0), GeoPoint(40.0, 0.0), 35.0, 40.0, NoNoise)
  }

  lemma LosingAnchorSecond()
    ensures
      var s, raw, a, b := LosingAnchor().s, At("b", 3, 5.0, 0.0), AnchorA(), StandingB();
      var marked := [MarkedStationary(a, Seconds(1)), b];
      Step(s, Progress([a], [a], [a]), raw, Some(At("c", 4, 40.0, 5.0)), None) == Progress([a, b], marked, marked)
  {
    var s, raw, a, b := LosingAnchor().s, At("b", 3, 5.0, 0.0), AnchorA(), StandingB();
    var plain := Plain(raw, GeoPoint(5.0, 0.0), 2.5, 0.0, Jitter);
    assert Measured(s, [a], raw, plain.(noiseReason := NoNoise)) == plain;
    assert [a] + [plain] == [a, plain] && [a] + [b] == [a, b];
    assert DropBefore([a, plain], Seconds(3) - Seconds(10)) == [a, plain];
    assert DropBefore([a, b], Seconds(3) - Seconds(10)) == [a, b];
    assert DetectStationary(s, [a, plain]);
    assert Settled(s, [a], plain) == b;
    Judged(s, [a], raw, Some(At("c", 4, 40.0, 5.0)), 2.5);
    hide ProcessOne, Step, DetectStationary, Settled, Measured;
    Pushes(s, Progress([a], [a], [a]), raw, Some(At("c", 4, 40.0, 5.0)), b, [a, b]);
    var marked := [MarkedStationary(a, Seconds(1)), b];
    assert MarkFrom([a, b], Seconds(1)) == marked && MarkAcceptedFrom([a, b], Seconds(1)) == marked;
  }

  lemma LosingAnchorThird(processed: seq<ProcessedPoint>, accepted: seq<ProcessedPoint>)
    ensures
      var s, raw, a, b := LosingAnchor().s, At("c", 4, 40.0, 5.0), AnchorA(), StandingB();
      && ProcessOne(s, [a, b], raw, None, None) == MovedC()
      && Step(s, Progress([a, b], processed, accepted), raw, None, None).accepted == accepted + [MovedC()]
      && CreditOf(s, [a, b], raw) == Credit(40.0, NoNoise)
      && CreditOf(s, [MarkedStationary(a, Seconds(1)), b], raw) == Credit(35.0, NoNoise)
  {
    var s, raw, a, b, out := LosingAnchor().s, At("c", 4, 40.0, 5.0), AnchorA(), StandingB(), MovedC();
    AnchorIsFound();
    hide LastAnchor, AnchorIndex, ProcessOne, Step, DetectStationary;
    assert Measured(s, [a, b], raw, out.(distanceDeltaM := 0.0)) == out;
    MoveIsNoStandstill();
    assert Smoothed(s, [a, b], raw) == GeoPoint(40.0, 0.0);
    Judged(s, [a, b], raw, None, 35.0);
    hide Settled;
    assert [a, b] + [out] == [a, b, out];
    Pushes(s, Progress([a, b], processed, accepted), raw, None, out, [a, b, out]);
  }

  lemma AnchorIsFound()
    ensures AnchorIndex([AnchorA(), StandingB()]) == 0
    ensures AnchorIndex([MarkedStationary(AnchorA(), Seconds(1)), StandingB()]) == 1
  {
    var a, b := AnchorA(), StandingB();
    var lost := [MarkedStationary(a, Seconds(1)), b];
    assert [a, b][..1] == [a] && lost[..1] == [lost[0]] && lost[..1][..0] == [];
    assert LastAnchor([a]) == 0;
    assert LastAnchor([lost[0]]) == -1;
  }

  lemma MoveIsNoStandstill()
    ensures
      var all := [AnchorA(), StandingB(), MovedC()];
      && Settled(LosingAnchor().s, [AnchorA(), StandingB()], MovedC()) == MovedC()
      && Trim(all, Seconds(4), 10) == all
  {
    var s, a, b, out := LosingAnchor().s, AnchorA(), StandingB(), MovedC();
    assert [a, b] + [out] == [a, b, out];
    assert DropBefore([a, b, out], Seconds(4) - Seconds(10)) == [a, b, out];
    assert !Still(s, GeoPoint(0.0, 0.0), [a, b, out][2]);
  }

  // Two points of a standstill, then a move: within one batch the move is measured from the
  // first of the two, after a cut from the second, as the stored marks hide the first.
  lemma {:induction false} StoredMarksHideTheAnchor()
    ensures
      var c := LosingAnchor();
      && Fits(c) && Whole(c).accepted != Joined(c)
      && !SpikeAtCut(c) && SmoothedAlike(c, 2) && NothingDatedBack(c) && !CreditedAlike(c, 2)
  {
    var c := LosingAnchor();
    LosingAnchorRuns();
    LosingAnchorEnds(c, OneAt(c, 2).accepted);
    LosingAnchorCredits(c);
    hide First, Whole, Rest, OneAt, TwoAt, NothingDatedBack, Fits, SpikeAtCut, Joined, CreditedAlike, SmoothedAlike;
    HarmAt(c, 2);
  }

  // One point smoothed or credited otherwise is enough.
  lemma HarmAt(c: Cut, i: nat)
    requires Fits(c) && c.n <= i < |c.points| && !(SmoothedAlike(c, i) && CreditedAlike(c, i))
    ensures Whole(c).accepted != Joined(c)
  {
    hide *;
    FitsBounds(c);
    CutIsHarmless(c);
  }

  lemma LosingAnchorCredits(c: Cut)
    requires c == LosingAnchor()
    requires OneAt(c, 2).window == [AnchorA(), StandingB()]
    requires |OneAt(c, 2).accepted| == 2 && Whole(c).accepted == OneAt(c, 2).accepted + [MovedC()]
    requires TwoAt(c, 2).window == [MarkedStationary(AnchorA(), Seconds(1)), StandingB()]
    ensures SmoothedAlike(c, 2) && !CreditedAlike(c, 2)
  {
    hide OneAt, TwoAt, Whole, ProcessOne, CreditOf, Trim;
    LosingAnchorThird([], []);
    assert NextOf(c.points, 2) == None;
  }

  lemma LosingAnchorRuns()
    ensures
      var c, marked := LosingAnchor(), [MarkedStationary(AnchorA(), Seconds(1)), StandingB()];
      && Fits(c) && !SpikeAtCut(c)
      && OneAt(c, 2) == Progress([AnchorA(), StandingB()], marked, marked)
      && OneAt(c, 3).accepted == marked + [MovedC()]
  {
    var c, a := LosingAnchor(), AnchorA();
    hide Steps, Step, ProcessOne, Fits, First;
    ThreePointsFit(c);
    StartsAlike(c);
    assert OneAt(c, 1) == Progress([a], [a], [a]);
    StepsOn(c.s, [], c.points, None, 1);
    StepsOn(c.s, [], c.points, None, 2);
    LosingAnchorSecond();
    LosingAnchorThird(OneAt(c, 2).processed, OneAt(c, 2).accepted);
  }

  // With nothing dated back, the second batch starts from the marked points.
  lemma LosingAnchorEnds(c: Cut, marked: seq<ProcessedPoint>)
    requires c == LosingAnchor() && Fits(c) && !SpikeAtCut(c)
    requires marked == [MarkedStationary(AnchorA(), Seconds(1)), StandingB()]
    requires OneAt(c, 2).accepted == marked && OneAt(c, 3).accepted == marked + [MovedC()]
    ensures TwoAt(c, 2).window == marked && NothingDatedBack(c) && Whole(c).accepted == marked + [MovedC()]
  {
    hide Steps, Step, ProcessOne, Fits, SpikeAtCut, KeepsDate;
    FirstIsPrefix(c);
    PartsAreSorted(c);
    ReloadedFits(c);
    FirstHalf(c);
    assert AcceptedOnly([]) == [];
    assert Reloaded(c) == marked;
    assert (marked + [MovedC()])[..2] == marked;
    TwoStarts(c);
  }

  // ---- the smoother sees more ----

  function LongSmoothing(): Cut {
    Cut(Setup(DEFAULT_NOISE_CONFIG.(stationaryWindowSec := 1), Along, WeightedMovingAverage(5)), [],
        [At("a", 1, 0.0, 1.0), At("b", 10, 20.0, 1.0), At("c", 11, 21.0, 1.0)], None, 2)
  }

  function SmoothA(): ProcessedPoint {
    Plain(At("a", 1, 0.0, 1.0), GeoPoint(0.0, 0.0), 0.0, 0.0, NoNoise)
  }

  function SmoothB(): ProcessedPoint {
    Plain(At("b", 10, 20.0, 1.0), GeoPoint(10.0, 0.0), 20.0 / 9.0, 20.0, NoNoise)
  }

  function SmoothC(): ProcessedPoint {
    Plain(At("c", 11, 21.0, 1.0), GeoPoint(15.5, 0.0), 1.0, 0.0, Jitter)
  }

  lemma SumOfUnits(history: seq<ProcessedPoint>, p: ProcessedPoint, raw: RawPoint, sums: Sums)
    requires SumUp(history, raw) == sums && p.filtered.Some? && p.accuracyM == 1.0
    ensures SumUp(history + [p], raw)
            == Sums(sums.lat + p.filtered.value.lat, sums.lon + p.filtered.value.lon, sums.weight + 1.0)
  {
    assert (history + [p])[..|history|] == history;
  }

  lemma Averages()
    ensures
      var smooth := WeightedMovingAverage(5);
      var a, b, c := At("a", 1, 0.0, 1.0), At("b", 10, 20.0, 1.0), At("c", 11, 21.0, 1.0);
      && smooth([], a) == GeoPoint(0.0, 0.0)
      && smooth([SmoothA()], b) == GeoPoint(10.0, 0.0)
      && smooth([SmoothB()], c) == GeoPoint(15.5, 0.0)
      && smooth([SmoothA(), SmoothB()], c) == GeoPoint(31.0 / 3.0, 0.0)
  {
    var a, b, c := At("a", 1, 0.0, 1.0), At("b", 10, 20.0, 1.0), At("c", 11, 21.0, 1.0);
    hide SumUp, WeightedMovingAverage;
    Summed();
    AverageIs([], a, Sums(0.0, 0.0, 1.0));
    AverageIs([SmoothA()], b, Sums(20.0, 0.0, 2.0));
    AverageIs([SmoothB()], c, Sums(31.0, 0.0, 2.0));
    AverageIs([SmoothA(), SmoothB()], c, Sums(31.0, 0.0, 3.0));
  }

  lemma Summed()
    ensures
      var a, b, c := At("a", 1, 0.0, 1.0), At("b", 10, 20.0, 1.0), At("c", 11, 21.0, 1.0);
      && SumUp([], a) == Sums(0.0, 0.0, 1.0)
      && SumUp([SmoothA()], b) == Sums(20.0, 0.0, 2.0)
      && SumUp([SmoothB()], c) == Sums(31.0, 0.0, 2.0)
      && SumUp([SmoothA(), SmoothB()], c) == Sums(31.0, 0.0, 3.0)
  {
    hide SumUp;
    var a, b, c := At("a", 1, 0.0, 1.0), At("b", 10, 20.0, 1.0), At("c", 11, 21.0, 1.0);
    SumOfNone(a);
    SumOfNone(b);
    SumOfNone(c);
    SumOfUnits([], SmoothA(), b, Sums(20.0, 0.0, 1.0));
    SumOfUnits([], SmoothB(), c, Sums(21.0, 0.0, 1.0));
    SumOfUnits([], SmoothA(), c, Sums(21.0, 0.0, 1.0));
    assert [] + [SmoothA()] == [SmoothA()] && [] + [SmoothB()] == [SmoothB()];
    SumOfUnits([SmoothA()], SmoothB(), c, Sums(21.0, 0.0, 2.0));
    assert [SmoothA()] + [SmoothB()] == [SmoothA(), SmoothB()];
  }

  lemma SumOfNone(raw: RawPoint)
    requires raw.accuracyM == 1.0
    ensures SumUp([], raw) == Sums(raw.position.lat, raw.position.lon, 1.0)
  {
  }

  lemma AverageIs(history: seq<ProcessedPoint>, raw: RawPoint, sums: Sums)
    requires |history| < 5 && SumUp(history, raw) == sums && sums.weight > 0.0
    ensures WeightedMovingAverage(5)(history, raw) == GeoPoint(sums.lat / sums.weight, sums.lon / sums.weight)
  {
    hide SumUp;
    assert Recent(5, history) == history;
  }

  lemma LongSmoothingSecond()
    ensures
      var s, raw, a, b := LongSmoothing().s, At("b", 10, 20.0, 1.0), SmoothA(), SmoothB();
      Step(s, Progress([a], [a], [a]), raw, Some(At("c", 11, 21.0, 1.0)), None) == Progress([b], [a, b], [a, b])
  {
    var s, raw, a, b := LongSmoothing().s, At("b", 10, 20.0, 1.0), SmoothA(), SmoothB();
    Averages();
    hide SumUp, Average;
    assert DropBefore([a], Seconds(10) - Seconds(120)) == [a];
    assert Measured(s, [a], raw, b.(distanceDeltaM := 0.0)) == b;
    assert [a] + [b] == [a, b];
    assert DropBefore([a, b], Seconds(10) - Seconds(1)) == [b];
    assert Settled(s, [a], b) == b;
    Judged(s, [a], raw, Some(At("c", 11, 21.0, 1.0)), 20.0 / 9.0);
    hide ProcessOne, Step, DetectStationary, Settled, WeightedMovingAverage, SumUp, Average;
    Pushes(s, Progress([a], [a], [a]), raw, Some(At("c", 11, 21.0, 1.0)), b, [b]);
  }

  lemma LongSmoothingThird(processed: seq<ProcessedPoint>, accepted: seq<ProcessedPoint>)
    ensures
      var s, raw, a, b := LongSmoothing().s, At("c", 11, 21.0, 1.0), SmoothA(), SmoothB();
      && ProcessOne(s, [b], raw, None, None) == SmoothC()
      && Step(s, Progress([b], processed, accepted), raw, None, None).accepted == accepted + [SmoothC()]
      && CreditOf(s, [b], raw) == CreditOf(s, [a, b], raw)
      && Smoothed(s, [b], raw) == GeoPoint(15.5, 0.0) && Smoothed(s, [a, b], raw) == GeoPoint(31.0 / 3.0, 0.0)
  {
    var s, raw, a, b, out := LongSmoothing().s, At("c", 11, 21.0, 1.0), SmoothA(), SmoothB(), SmoothC();
    LongSmoothingMeasured();
    hide ProcessOne, Step, Measured, Smoothed, CreditOf, SumUp, Average, WeightedMovingAverage;
    assert [b] + [out] == [b, out];
    assert DropBefore([b, out], Seconds(11) - Seconds(1)) == [b, out];
    assert Settled(s, [b], out) == out;
    Judged(s, [b], raw, None, 1.0);
    Pushes(s, Progress([b], processed, accepted), raw, None, out, [b, out]);
  }

  lemma LongSmoothingMeasured()
    ensures
      var s, raw, a, b, out := LongSmoothing().s, At("c", 11, 21.0, 1.0), SmoothA(), SmoothB(), SmoothC();
      && Measured(s, [b], raw, out.(noiseReason := NoNoise)) == out
      && CreditOf(s, [b], raw) == CreditOf(s, [a, b], raw)
      && Smoothed(s, [b], raw) == GeoPoint(15.5, 0.0) && Smoothed(s, [a, b], raw) == GeoPoint(31.0 / 3.0, 0.0)
  {
    var s, raw, a, b, out := LongSmoothing().s, At("c", 11, 21.0, 1.0), SmoothA(), SmoothB(), SmoothC();
    Averages();
    hide SumUp, Average, WeightedMovingAverage;
    assert DropBefore([b], Seconds(11) - Seconds(120)) == [b];
    assert DropBefore([a, b], Seconds(11) - Seconds(120)) == [a, b];
  }

  // The sliding window is shorter than what the smoother may use: after a cut it averages over
  // a point that one batch had dropped.
  lemma {:induction false} SmootherSeesMore()
    ensures
      var c := LongSmoothing();
      && Fits(c) && Whole(c).accepted != Joined(c)
      && !SpikeAtCut(c) && CreditedAlike(c, 2) && NothingDatedBack(c) && !SmoothedAlike(c, 2)
  {
    var c := LongSmoothing();
    LongSmoothingRuns();
    LongSmoothingEnds(c);
    LongSmoothingViews(c);
    hide First, Whole, Rest, OneAt, TwoAt, NothingDatedBack, Fits, SpikeAtCut, Joined, CreditedAlike, SmoothedAlike;
    HarmAt(c, 2);
  }

  lemma LongSmoothingViews(c: Cut)
    requires c == LongSmoothing()
    requires OneAt(c, 2).window == [SmoothB()] && TwoAt(c, 2).window == [SmoothA(), SmoothB()]
    ensures !SmoothedAlike(c, 2) && CreditedAlike(c, 2)
  {
    hide OneAt, TwoAt, Whole, ProcessOne, CreditOf, Smoothed, WeightedMovingAverage;
    LongSmoothingThird([], []);
    assert NextOf(c.points, 2) == None;
  }

  lemma LongSmoothingRuns()
    ensures
      var c, both := LongSmoothing(), [SmoothA(), SmoothB()];
      && Fits(c) && !SpikeAtCut(c)
      && OneAt(c, 2) == Progress([SmoothB()], both, both)
      && OneAt(c, 3).accepted == both + [SmoothC()]
  {
    var c, a := LongSmoothing(), SmoothA();
    hide Steps, Step, ProcessOne, Fits, First, WeightedMovingAverage;
    ThreePointsFit(c);
    Averages();
    StartsAlike(c);
    assert OneAt(c, 1) == Progress([a], [a], [a]);
    StepsOn(c.s, [], c.points, None, 1);
    StepsOn(c.s, [], c.points, None, 2);
    LongSmoothingSecond();
    LongSmoothingThird([SmoothA(), SmoothB()], [SmoothA(), SmoothB()]);
  }

  lemma LongSmoothingEnds(c: Cut)
    requires c == LongSmoothing() && Fits(c) && !SpikeAtCut(c)
    requires OneAt(c, 2).accepted == [SmoothA(), SmoothB()]
    requires OneAt(c, 3).accepted == [SmoothA(), SmoothB()] + [SmoothC()]
    ensures TwoAt(c, 2).window == [SmoothA(), SmoothB()] && NothingDatedBack(c)
    ensures Whole(c).accepted == [SmoothA(), SmoothB()] + [SmoothC()]
  {
    hide Steps, Step, ProcessOne, Fits, SpikeAtCut, KeepsDate, SmoothA, SmoothB, SmoothC, LongSmoothing;
    FirstIsPrefix(c);
    PartsAreSorted(c);
    ReloadedFits(c);
    FirstHalf(c);
    LongSmoothingStarts(c);
    assert AcceptedOnly([]) == [];
    assert ([SmoothA(), SmoothB()] + [SmoothC()])[..2] == [SmoothA(), SmoothB()];
    TwoStarts(c);
  }

  lemma LongSmoothingStarts(c: Cut)
    requires c == LongSmoothing()
    ensures c.history == [] && c.n == 2 && |c.points| == 3
  {
  }
}
