// What the pipeline returns: every raw point once, in time order; the accepted ones kept in
// step with the processed ones through the in-place marking; times strictly increasing;
// and a declarative account of which points end up stationary.
module NoiseOutput {
  import opened Domain
  import opened Sorting
  import opened Noise

  // ---- order of the raw points ----

  lemma {:induction false} IdNotBeforeItself(a: EventId)
    ensures !IdBefore(a, a)
  {
    if a != [] {
      IdNotBeforeItself(a[1..]);
    }
  }

  lemma {:induction false} IdBeforeIsPreorder(a: EventId, b: EventId, c: EventId)
    ensures IdBefore(a, b) && IdBefore(b, c) ==> IdBefore(a, c)
    ensures !IdBefore(a, b) && !IdBefore(b, c) ==> !IdBefore(a, c)
  {
    if a != [] && b != [] && c != [] {
      IdBeforeIsPreorder(a[1..], b[1..], c[1..]);
    }
  }

  lemma RawBeforeIsPreorder()
    ensures IsPreorder(RawBefore)
  {
    forall p, q, r: RawPoint
      ensures !RawBefore(p, p)
      ensures RawBefore(p, q) && RawBefore(q, r) ==> RawBefore(p, r)
      ensures !RawBefore(p, q) && !RawBefore(q, r) ==> !RawBefore(p, r)
    {
      IdBeforeIsPreorder(p.eventId, q.eventId, r.eventId);
      IdNotBeforeItself(p.eventId);
    }
  }

  // The processed point records this raw point.
  predicate Records(p: ProcessedPoint, raw: RawPoint) {
    && p.eventId == raw.eventId && p.recordedAt == raw.recordedAt && p.raw == raw.position
    && p.accuracyM == raw.accuracyM && p.speedMps == raw.speedMps
    && p.activityType == raw.activityType && p.activityConfidence == raw.activityConfidence
  }

  // ---- one point ----

  // How far one gets at a speed in a given time.
  function Reach(speed: real, duration: int): real {
    speed * InSeconds(duration)
  }

  // Two consecutive accepted points are no further apart than the vehicle ceiling allows.
  predicate WithinSpeed(s: Setup, p: ProcessedPoint, q: ProcessedPoint) {
    s.dist(p.raw, q.raw) <= Reach(s.cfg.vehicleMaxSpeedMps, q.recordedAt - p.recordedAt)
  }

  // Every activity ceiling is at most the vehicle ceiling.
  predicate CeilingsFit(cfg: NoiseConfig) {
    && cfg.walkingMaxSpeedMps <= cfg.vehicleMaxSpeedMps
    && cfg.runningMaxSpeedMps <= cfg.vehicleMaxSpeedMps
    && cfg.bikeMaxSpeedMps <= cfg.vehicleMaxSpeedMps
  }

  lemma ProcessOneRecords(s: Setup, history: seq<ProcessedPoint>, raw: RawPoint, next: Option<RawPoint>,
                          through: Option<Time>)
    ensures
      var out := ProcessOne(s, history, raw, next, through);
      && Records(out, raw)
      && (out.isAccepted ==>
            out.filtered.Some? && out.recordedAt != 0 && (through.Some? ==> raw.recordedAt > through.value))
      && (out.isStationary ==> out.isAccepted)
  {
    hide DetectStationary, DetectOutlier, Trim, Clamp;
  }

  lemma AcceptedIsLater(s: Setup, history: seq<ProcessedPoint>, raw: RawPoint, next: Option<RawPoint>,
                        through: Option<Time>)
    requires history != []
    ensures
      var out := ProcessOne(s, history, raw, next, through);
      out.isAccepted ==> out.recordedAt > history[|history| - 1].recordedAt
  {
    var out := ProcessOne(s, history, raw, next, through);
    ProcessOneRecords(s, history, raw, next, through);
    if out.isAccepted {
      assert !DetectOutlier(s, Last(history), raw, next).outlier by {
        hide DetectStationary, Trim, Validate, Clamp, Measured, DetectOutlier;
      }
      hide ProcessOne;
      var elapsed := raw.recordedAt - history[|history| - 1].recordedAt;
      assert elapsed <= 0 ==> InSeconds(elapsed) <= 0.0;
    }
  }

  lemma AcceptedIsWithinSpeed(s: Setup, history: seq<ProcessedPoint>, raw: RawPoint, next: Option<RawPoint>,
                              through: Option<Time>)
    requires history != [] && CeilingsFit(s.cfg)
    ensures
      var out := ProcessOne(s, history, raw, next, through);
      out.isAccepted ==> WithinSpeed(s, history[|history| - 1], out)
  {
    var out := ProcessOne(s, history, raw, next, through);
    ProcessOneRecords(s, history, raw, next, through);
    if out.isAccepted {
      AcceptedIsLater(s, history, raw, next, through);
      var previous := history[|history| - 1];
      var elapsed := InSeconds(raw.recordedAt - previous.recordedAt);
      var covered := s.dist(previous.raw, raw.position);
      assert !DetectOutlier(s, Last(history), raw, next).outlier by {
        hide DetectStationary, Trim, Validate, Clamp, Measured, MaxSpeed, DetectOutlier;
      }
      assert covered / elapsed <= s.cfg.vehicleMaxSpeedMps by {
        hide ProcessOne;
      }
      SpeedTimesTime(covered, elapsed, s.cfg.vehicleMaxSpeedMps);
    }
  }

  lemma SpeedTimesTime(covered: real, elapsed: real, speed: real)
    requires elapsed > 0.0 && covered / elapsed <= speed
    ensures covered <= speed * elapsed
  {
    assert (covered / elapsed) * elapsed == covered;
  }

  // ---- marks ----

  // A point without its distance and stationary marks: what the detector looks at.
  function Unmarked(p: ProcessedPoint): ProcessedPoint {
    p.(isStationary := false, distanceDeltaM := 0.0, noiseReason := NoNoise, stationarySince := None)
  }

  predicate SameFixes(a: seq<ProcessedPoint>, b: seq<ProcessedPoint>) {
    |a| == |b| && forall i :: 0 <= i < |a| ==> Unmarked(a[i]) == Unmarked(b[i])
  }

  lemma SameFixesDecideAlike(s: Setup, a: seq<ProcessedPoint>, b: seq<ProcessedPoint>)
    requires SameFixes(a, b)
    ensures DetectStationary(s, a) == DetectStationary(s, b)
  {
    forall i | 0 <= i < |a| ensures forall c :: Still(s, c, a[i]) == Still(s, c, b[i]) {
      assert Unmarked(a[i]).filtered == Unmarked(b[i]).filtered;
      assert Unmarked(a[i]).speedMps == Unmarked(b[i]).speedMps;
      assert Unmarked(a[i]).impliedSpeedMps == Unmarked(b[i]).impliedSpeedMps;
      assert Unmarked(a[i]).activityType == Unmarked(b[i]).activityType;
    }
    if a != [] {
      assert Unmarked(a[0]).filtered == Unmarked(b[0]).filtered;
      assert Unmarked(a[0]).recordedAt == Unmarked(b[0]).recordedAt;
      assert Unmarked(a[|a| - 1]).recordedAt == Unmarked(b[|a| - 1]).recordedAt;
    }
  }

  lemma {:induction false} DropKeepsFixes(a: seq<ProcessedPoint>, b: seq<ProcessedPoint>, cutoff: Time)
    requires SameFixes(a, b)
    ensures SameFixes(DropBefore(a, cutoff), DropBefore(b, cutoff))
  {
    if a != [] {
      assert Unmarked(a[0]).recordedAt == Unmarked(b[0]).recordedAt;
      DropKeepsFixes(a[1..], b[1..], cutoff);
    }
  }

  lemma {:induction false} DropIsSuffix(points: seq<ProcessedPoint>, cutoff: Time)
    ensures
      var rest := DropBefore(points, cutoff);
      && |rest| <= |points|
      && rest == points[|points| - |rest|..]
      && (rest != [] ==> rest[0].recordedAt >= cutoff)
      && (forall i :: 0 <= i < |points| - |rest| ==> points[i].recordedAt < cutoff)
      && (points != [] && points[|points| - 1].recordedAt >= cutoff ==> rest != [])
  {
    if points != [] && points[0].recordedAt < cutoff {
      DropIsSuffix(points[1..], cutoff);
    }
  }

  // Dropping in two rounds with a growing cutoff is dropping once.
  lemma {:induction false} DropTwice(points: seq<ProcessedPoint>, p: ProcessedPoint, early: Time, late: Time)
    requires early <= late
    ensures DropBefore(DropBefore(points, early) + [p], late) == DropBefore(points + [p], late)
  {
    if points != [] && points[0].recordedAt < early {
      DropTwice(points[1..], p, early, late);
      assert (points + [p])[1..] == points[1..] + [p];
    }
  }

  // ---- the window ----

  // All accepted points known so far: stored history, then this batch.
  function Track(history: seq<ProcessedPoint>, accepted: seq<ProcessedPoint>): seq<ProcessedPoint> {
    AcceptedOnly(history) + accepted
  }

  // The stationary window that ends at the k-th accepted point of the batch.
  function WindowAt(s: Setup, history: seq<ProcessedPoint>, accepted: seq<ProcessedPoint>, k: nat): seq<ProcessedPoint>
    requires k < |accepted|
  {
    Trim(Track(history, accepted[..k + 1]), accepted[k].recordedAt, s.cfg.stationaryWindowSec)
  }

  // The sliding window is the track cut at the last accepted point, up to later marks.
  ghost predicate WindowFits(s: Setup, history: seq<ProcessedPoint>, g: Progress) {
    SameFixes(g.window,
      if g.accepted == [] then AcceptedOnly(history) else WindowAt(s, history, g.accepted, |g.accepted| - 1))
  }

  predicate Increasing(points: seq<ProcessedPoint>) {
    forall i :: 0 < i < |points| ==> points[i - 1].recordedAt < points[i].recordedAt
  }

  predicate NonDecreasing(points: seq<ProcessedPoint>) {
    forall i :: 0 < i < |points| ==> points[i - 1].recordedAt <= points[i].recordedAt
  }

  lemma {:induction false} NonDecreasingPairs(points: seq<ProcessedPoint>, i: nat, j: nat)
    requires NonDecreasing(points) && i <= j < |points|
    ensures points[i].recordedAt <= points[j].recordedAt
  {
    if i < j {
      NonDecreasingPairs(points, i, j - 1);
    }
  }

  // Accepted points of the batch come after the history and after each other.
  ghost predicate TimesFit(history: seq<ProcessedPoint>, g: Progress, through: Option<Time>) {
    var track := Track(history, g.accepted);
    && (forall i :: |AcceptedOnly(history)| <= i < |track| && 0 < i ==>
          track[i - 1].recordedAt < track[i].recordedAt)
    && (through.Some? ==> forall i :: 0 <= i < |g.accepted| ==> g.accepted[i].recordedAt > through.value)
  }

  ghost predicate AcceptedFits(g: Progress) {
    && g.accepted == AcceptedOnly(g.processed)
    && (forall i :: 0 <= i < |g.accepted| ==>
          g.accepted[i].isAccepted && g.accepted[i].filtered.Some? && g.accepted[i].recordedAt != 0)
  }

  lemma AcceptedOneMore(points: seq<ProcessedPoint>, p: ProcessedPoint)
    ensures AcceptedOnly(points + [p]) == AcceptedOnly(points) + if p.isAccepted then [p] else []
  {
    assert (points + [p])[..|points|] == points;
  }

  lemma MarkOneMore(points: seq<ProcessedPoint>, p: ProcessedPoint, since: Time)
    ensures MarkFrom(points + [p], since) == MarkFrom(points, since) + MarkFrom([p], since)
    ensures MarkAcceptedFrom(points + [p], since) == MarkAcceptedFrom(points, since) + MarkAcceptedFrom([p], since)
  {
  }

  lemma {:induction false} MarkingCommutes(processed: seq<ProcessedPoint>, since: Time)
    ensures AcceptedOnly(MarkAcceptedFrom(processed, since)) == MarkFrom(AcceptedOnly(processed), since)
  {
    if processed == [] {
      assert MarkAcceptedFrom([], since) == [] && MarkFrom([], since) == [];
    } else {
      var front, p := processed[..|processed| - 1], processed[|processed| - 1];
      var q := MarkAcceptedFrom([p], since)[0];
      MarkingCommutes(front, since);
      assert processed == front + [p];
      MarkOneMore(front, p, since);
      AcceptedOneMore(front, p);
      AcceptedOneMore(MarkAcceptedFrom(front, since), q);
      if p.isAccepted {
        MarkOneMore(AcceptedOnly(front), p, since);
      }
      hide AcceptedOnly;
    }
  }

  // The batch after one more accepted point, before any marking.
  function Pushed(s: Setup, g: Progress, out: ProcessedPoint): Progress {
    Progress(Trim(g.window + [out], out.recordedAt, s.cfg.stationaryWindowSec),
             g.processed + [out], g.accepted + [out])
  }

  function MarkedBack(g: Progress, since: Time): Progress {
    g.(processed := MarkAcceptedFrom(g.processed, since), accepted := MarkFrom(g.accepted, since))
  }

  lemma MarksKeepFixes(points: seq<ProcessedPoint>, since: Time)
    ensures SameFixes(MarkFrom(points, since), points)
  {
  }

  lemma PushKeepsWindow(s: Setup, history: seq<ProcessedPoint>, g: Progress, out: ProcessedPoint)
    requires WindowFits(s, history, g)
    requires g.accepted != [] ==> g.accepted[|g.accepted| - 1].recordedAt <= out.recordedAt
    ensures WindowFits(s, history, Pushed(s, g, out))
    ensures Pushed(s, g, out).accepted[..|g.accepted| + 1] == g.accepted + [out]
  {
    var track := Track(history, g.accepted);
    assert (g.accepted + [out])[..|g.accepted| + 1] == g.accepted + [out];
    assert Track(history, g.accepted + [out]) == track + [out];
    if g.accepted == [] {
      assert track == AcceptedOnly(history);
      DropKeepsFixes(g.window + [out], track + [out], out.recordedAt - Seconds(s.cfg.stationaryWindowSec));
    } else {
      assert g.accepted[..|g.accepted|] == g.accepted;
      hide AcceptedOnly, Track;
      SlideWindow(s, g.window, track, g.accepted[|g.accepted| - 1].recordedAt, out);
    }
  }

  lemma SlideWindow(s: Setup, window: seq<ProcessedPoint>, track: seq<ProcessedPoint>, at: Time, out: ProcessedPoint)
    requires SameFixes(window, Trim(track, at, s.cfg.stationaryWindowSec)) && at <= out.recordedAt
    ensures SameFixes(Trim(window + [out], out.recordedAt, s.cfg.stationaryWindowSec),
                      Trim(track + [out], out.recordedAt, s.cfg.stationaryWindowSec))
  {
    hide DropBefore;
    var width := Seconds(s.cfg.stationaryWindowSec);
    var cut := DropBefore(track, at - width);
    DropKeepsFixes(window + [out], cut + [out], out.recordedAt - width);
    DropTwice(track, out, at - width, out.recordedAt - width);
  }

  lemma MarkKeepsWindow(s: Setup, history: seq<ProcessedPoint>, g: Progress, since: Time)
    requires WindowFits(s, history, g)
    ensures WindowFits(s, history, MarkedBack(g, since))
  {
    var m, marked := |g.accepted|, MarkFrom(g.accepted, since);
    MarksKeepFixes(g.accepted, since);
    hide MarkFrom, WindowAt;
    if m > 0 {
      WindowsIgnoreMarks(s, history, g.accepted, marked, m - 1);
    }
  }

  lemma WindowsIgnoreMarks(s: Setup, history: seq<ProcessedPoint>, a: seq<ProcessedPoint>, b: seq<ProcessedPoint>,
                           k: nat)
    requires SameFixes(a, b) && k < |a|
    ensures SameFixes(WindowAt(s, history, a, k), WindowAt(s, history, b, k))
    ensures a[k].recordedAt == b[k].recordedAt
  {
    assert Unmarked(a[k]).recordedAt == Unmarked(b[k]).recordedAt;
    var ta, tb := Track(history, a[..k + 1]), Track(history, b[..k + 1]);
    assert SameFixes(ta, tb);
    DropKeepsFixes(ta, tb, a[k].recordedAt - Seconds(s.cfg.stationaryWindowSec));
  }

  // With a window of non-negative width, the last point of the track is in the window.
  lemma WindowHoldsLast(s: Setup, history: seq<ProcessedPoint>, g: Progress)
    requires WindowFits(s, history, g) && s.cfg.stationaryWindowSec >= 0
    ensures
      var track := Track(history, g.accepted);
      && (g.window == [] <==> track == [])
      && (track != [] ==> Unmarked(g.window[|g.window| - 1]) == Unmarked(track[|track| - 1]))
  {
    var track := Track(history, g.accepted);
    hide DropBefore, AcceptedOnly;
    if g.accepted == [] {
      assert track == AcceptedOnly(history);
    } else {
      assert g.accepted[..|g.accepted|] == g.accepted;
      DropIsSuffix(track, g.accepted[|g.accepted| - 1].recordedAt - Seconds(s.cfg.stationaryWindowSec));
    }
  }

  // ---- which points end up stationary ----

  // The window that ends at the j-th accepted point passes the stationary test.
  predicate Triggers(s: Setup, history: seq<ProcessedPoint>, accepted: seq<ProcessedPoint>, j: nat)
    requires j < |accepted|
  {
    DetectStationary(s, WindowAt(s, history, accepted, j))
  }

  function SinceOf(s: Setup, history: seq<ProcessedPoint>, accepted: seq<ProcessedPoint>, j: nat): Time
    requires j < |accepted| && Triggers(s, history, accepted, j)
  {
    WindowAt(s, history, accepted, j)[0].recordedAt
  }

  // The k-th accepted point lies in the stationary window that ends at the j-th.
  predicate Covers(s: Setup, history: seq<ProcessedPoint>, accepted: seq<ProcessedPoint>, j: int, k: int) {
    && 0 <= k <= j < |accepted|
    && Triggers(s, history, accepted, j)
    && SinceOf(s, history, accepted, j) <= accepted[k].recordedAt
  }

  // The k-th accepted point is stationary exactly when the stationary window of itself or of
  // a later accepted point covers it; the latest such window dates it.
  ghost predicate MarkFits(s: Setup, history: seq<ProcessedPoint>, accepted: seq<ProcessedPoint>, k: int)
    requires 0 <= k < |accepted|
  {
    var p := accepted[k];
    && (p.isStationary <==> exists j :: Covers(s, history, accepted, j, k))
    && (if p.isStationary then
          && p.distanceDeltaM == 0.0 && p.noiseReason == Stationary
          && exists j :: DatedBy(s, history, accepted, j, k)
        else p.noiseReason != Stationary && p.stationarySince.None?)
  }

  ghost predicate DatedBy(s: Setup, history: seq<ProcessedPoint>, accepted: seq<ProcessedPoint>, j: int, k: int) {
    && Covers(s, history, accepted, j, k)
    && accepted[k].stationarySince == Some(SinceOf(s, history, accepted, j))
    && (forall i :: j < i ==> !Covers(s, history, accepted, i, k))
  }

  ghost predicate MarksFit(s: Setup, history: seq<ProcessedPoint>, accepted: seq<ProcessedPoint>) {
    forall k :: 0 <= k < |accepted| ==> MarkFits(s, history, accepted, k)
  }

  lemma CoversIgnoresMarks(s: Setup, history: seq<ProcessedPoint>, a: seq<ProcessedPoint>, b: seq<ProcessedPoint>,
                           j: int, k: int)
    requires SameFixes(a, b)
    ensures Covers(s, history, a, j, k) == Covers(s, history, b, j, k)
    ensures Covers(s, history, a, j, k) ==> SinceOf(s, history, a, j) == SinceOf(s, history, b, j)
  {
    if 0 <= k <= j < |a| {
      WindowsIgnoreMarks(s, history, a, b, j);
      WindowsIgnoreMarks(s, history, a, b, k);
      var wa, wb := WindowAt(s, history, a, j), WindowAt(s, history, b, j);
      SameFixesDecideAlike(s, wa, wb);
      if wa != [] {
        assert Unmarked(wa[0]).recordedAt == Unmarked(wb[0]).recordedAt;
      }
    }
  }

  lemma CoversLooksBack(s: Setup, history: seq<ProcessedPoint>, accepted: seq<ProcessedPoint>, out: ProcessedPoint,
                        j: int, k: int)
    requires j < |accepted|
    ensures Covers(s, history, accepted + [out], j, k) == Covers(s, history, accepted, j, k)
    ensures Covers(s, history, accepted, j, k) ==>
              SinceOf(s, history, accepted + [out], j) == SinceOf(s, history, accepted, j)
  {
    if 0 <= j {
      assert (accepted + [out])[..j + 1] == accepted[..j + 1];
    }
  }

  lemma OldMarksStay(s: Setup, history: seq<ProcessedPoint>, accepted: seq<ProcessedPoint>, out: ProcessedPoint, k: int)
    requires 0 <= k < |accepted| && MarkFits(s, history, accepted, k)
    requires !Covers(s, history, accepted + [out], |accepted|, k)
    ensures MarkFits(s, history, accepted + [out], k)
  {
    forall j ensures Covers(s, history, accepted + [out], j, k) == Covers(s, history, accepted, j, k) {
      if j < |accepted| {
        CoversLooksBack(s, history, accepted, out, j, k);
      }
    }
    if accepted[k].isStationary {
      var j :| DatedBy(s, history, accepted, j, k);
      CoversLooksBack(s, history, accepted, out, j, k);
      assert DatedBy(s, history, accepted + [out], j, k);
    }
  }

  // What processOne says about a new accepted point and its own window.
  lemma NewPointDecides(s: Setup, history: seq<ProcessedPoint>, g: Progress, raw: RawPoint, next: Option<RawPoint>,
                        through: Option<Time>)
    requires WindowFits(s, history, g)
    requires
      var out := ProcessOne(s, g.window, raw, next, through);
      out.isAccepted && WindowFits(s, history, Pushed(s, g, out))
    ensures
      var out := ProcessOne(s, g.window, raw, next, through);
      var accepted, m := g.accepted + [out], |g.accepted|;
      && out.isStationary == Triggers(s, history, accepted, m)
      && (if out.isStationary then
            && out.distanceDeltaM == 0.0 && out.noiseReason == Stationary
            && Pushed(s, g, out).window != []
            && Pushed(s, g, out).window[0].recordedAt == SinceOf(s, history, accepted, m)
            && out.stationarySince == Some(SinceOf(s, history, accepted, m))
          else out.noiseReason != Stationary && out.stationarySince.None?)
  {
    var out := ProcessOne(s, g.window, raw, next, through);
    ProcessOneSettles(s, g.window, raw, next, through);
    var unsettled := AcceptedAsIs(s, g.window, raw, next, through);
    hide ProcessOne, AcceptedAsIs, WindowAt, DetectStationary, Trim;
    WindowsAgree(s, history, g, unsettled, out);
  }

  lemma WindowsAgree(s: Setup, history: seq<ProcessedPoint>, g: Progress, unsettled: ProcessedPoint,
                     out: ProcessedPoint)
    requires Unmarked(unsettled) == Unmarked(out) && WindowFits(s, history, Pushed(s, g, out))
    ensures
      var own := Trim(g.window + [unsettled], unsettled.recordedAt, s.cfg.stationaryWindowSec);
      var pushed, accepted, m := Pushed(s, g, out).window, g.accepted + [out], |g.accepted|;
      && DetectStationary(s, own) == Triggers(s, history, accepted, m)
      && (DetectStationary(s, own) ==>
            && own != [] && pushed != []
            && own[0].recordedAt == pushed[0].recordedAt == SinceOf(s, history, accepted, m))
  {
    var own := Trim(g.window + [unsettled], unsettled.recordedAt, s.cfg.stationaryWindowSec);
    var pushed, target := Pushed(s, g, out).window, WindowAt(s, history, g.accepted + [out], |g.accepted|);
    assert unsettled.recordedAt == Unmarked(unsettled).recordedAt == out.recordedAt;
    DropKeepsFixes(g.window + [unsettled], g.window + [out],
                   out.recordedAt - Seconds(s.cfg.stationaryWindowSec));
    hide DropBefore, WindowAt;
    SameFixesDecideAlike(s, own, pushed);
    SameFixesDecideAlike(s, pushed, target);
    if own != [] {
      assert Unmarked(own[0]).recordedAt == Unmarked(pushed[0]).recordedAt;
      assert Unmarked(pushed[0]).recordedAt == Unmarked(target[0]).recordedAt;
    }
  }

  // The accepted point before the stationary test.
  function AcceptedAsIs(s: Setup, history: seq<ProcessedPoint>, raw: RawPoint, next: Option<RawPoint>,
                        through: Option<Time>): ProcessedPoint {
    Measured(s, history, raw,
      Fresh(raw).(impliedSpeedMps := DetectOutlier(s, Last(history), raw, next).impliedSpeed,
                  filtered := Some(s.smooth(Trim(history, raw.recordedAt, s.cfg.segmentMaxGapSec), raw)),
                  isAccepted := true))
  }

  lemma ProcessOneSettles(s: Setup, history: seq<ProcessedPoint>, raw: RawPoint, next: Option<RawPoint>,
                          through: Option<Time>)
    requires ProcessOne(s, history, raw, next, through).isAccepted
    ensures ProcessOne(s, history, raw, next, through)
            == Settled(s, history, AcceptedAsIs(s, history, raw, next, through))
    ensures AcceptedAsIs(s, history, raw, next, through).isAccepted
    ensures !AcceptedAsIs(s, history, raw, next, through).isStationary
    ensures AcceptedAsIs(s, history, raw, next, through).noiseReason != Stationary
    ensures AcceptedAsIs(s, history, raw, next, through).stationarySince.None?
    ensures AcceptedAsIs(s, history, raw, next, through).recordedAt == raw.recordedAt
  {
    hide DetectStationary, DetectOutlier, Trim, Validate, Clamp;
  }

  lemma MarksFitWhenMoving(s: Setup, history: seq<ProcessedPoint>, accepted: seq<ProcessedPoint>, out: ProcessedPoint)
    requires MarksFit(s, history, accepted)
    requires !out.isStationary && out.noiseReason != Stationary && out.stationarySince.None?
    requires !Triggers(s, history, accepted + [out], |accepted|)
    ensures MarksFit(s, history, accepted + [out])
  {
    forall k | 0 <= k < |accepted + [out]| ensures MarkFits(s, history, accepted + [out], k) {
      if k < |accepted| {
        OldMarksStay(s, history, accepted, out, k);
      }
    }
  }

  lemma MarksFitWhenStationary(s: Setup, history: seq<ProcessedPoint>, accepted: seq<ProcessedPoint>,
                               out: ProcessedPoint)
    requires MarksFit(s, history, accepted)
    requires Triggers(s, history, accepted + [out], |accepted|)
    requires SinceOf(s, history, accepted + [out], |accepted|) <= out.recordedAt
    ensures MarksFit(s, history, MarkFrom(accepted + [out], SinceOf(s, history, accepted + [out], |accepted|)))
  {
    var m, all := |accepted|, accepted + [out];
    var since := SinceOf(s, history, all, m);
    var marked := MarkFrom(all, since);
    MarksKeepFixes(all, since);
    forall k | 0 <= k < |marked| ensures MarkFits(s, history, marked, k) {
      forall j ensures Covers(s, history, marked, j, k) == Covers(s, history, all, j, k)
               ensures Covers(s, history, all, j, k) ==> SinceOf(s, history, marked, j) == SinceOf(s, history, all, j)
      {
        CoversIgnoresMarks(s, history, marked, all, j, k);
      }
      if since <= all[k].recordedAt {
        assert Covers(s, history, marked, m, k);
        assert DatedBy(s, history, marked, m, k);
      } else {
        OldMarksStay(s, history, accepted, out, k);
        if marked[k].isStationary {
          var j :| DatedBy(s, history, all, j, k);
          assert DatedBy(s, history, marked, j, k);
        }
      }
    }
  }

  // ---- the whole batch ----

  // What the caller provides: history in time order and a window that is not negative.
  predicate InputFits(s: Setup, history: seq<ProcessedPoint>) {
    s.cfg.stationaryWindowSec >= 0 && NonDecreasing(AcceptedOnly(history))
  }

  ghost predicate Shape(s: Setup, history: seq<ProcessedPoint>, points: seq<RawPoint>, through: Option<Time>, n: nat,
                        g: Progress) {
    && |g.processed| == n <= |points|
    && (forall i :: 0 <= i < n ==> Records(g.processed[i], points[i]))
    && AcceptedFits(g)
    && WindowFits(s, history, g)
    && TimesFit(history, g, through)
  }

  lemma TimesFitOneMore(history: seq<ProcessedPoint>, g: Progress, through: Option<Time>, h: Progress,
                        out: ProcessedPoint)
    requires TimesFit(history, g, through) && h.accepted == g.accepted + [out]
    requires Track(history, g.accepted) != [] ==>
               Track(history, g.accepted)[|Track(history, g.accepted)| - 1].recordedAt < out.recordedAt
    requires through.Some? ==> out.recordedAt > through.value
    ensures TimesFit(history, h, through)
  {
    assert Track(history, h.accepted) == Track(history, g.accepted) + [out];
  }

  lemma NewComesLast(s: Setup, history: seq<ProcessedPoint>, g: Progress, raw: RawPoint, next: Option<RawPoint>,
                     through: Option<Time>)
    requires WindowFits(s, history, g) && s.cfg.stationaryWindowSec >= 0
    requires ProcessOne(s, g.window, raw, next, through).isAccepted
    ensures
      var track := Track(history, g.accepted);
      && (track != [] ==> track[|track| - 1].recordedAt < raw.recordedAt)
      && (g.accepted != [] ==> g.accepted[|g.accepted| - 1].recordedAt < raw.recordedAt)
  {
    ProcessOneRecords(s, g.window, raw, next, through);
    WindowHoldsLast(s, history, g);
    var track := Track(history, g.accepted);
    if track != [] {
      AcceptedIsLater(s, g.window, raw, next, through);
      hide ProcessOne, WindowFits;
      assert Unmarked(g.window[|g.window| - 1]).recordedAt == Unmarked(track[|track| - 1]).recordedAt;
      assert g.accepted != [] ==> track[|track| - 1] == g.accepted[|g.accepted| - 1];
    }
  }

  lemma PushFits(s: Setup, history: seq<ProcessedPoint>, points: seq<RawPoint>, through: Option<Time>, n: nat,
                 g: Progress, out: ProcessedPoint)
    requires n < |points| && Shape(s, history, points, through, n, g)
    requires out.isAccepted && out.filtered.Some? && out.recordedAt != 0 && Records(out, points[n])
    requires through.Some? ==> out.recordedAt > through.value
    requires
      var track := Track(history, g.accepted);
      && (track != [] ==> track[|track| - 1].recordedAt < out.recordedAt)
      && (g.accepted != [] ==> g.accepted[|g.accepted| - 1].recordedAt < out.recordedAt)
    ensures Shape(s, history, points, through, n + 1, Pushed(s, g, out))
  {
    hide WindowFits, TimesFit, AcceptedOnly, Trim, Records;
    AcceptedOneMore(g.processed, out);
    assert AcceptedFits(Pushed(s, g, out));
    PushKeepsWindow(s, history, g, out);
    TimesFitOneMore(history, g, through, Pushed(s, g, out), out);
  }

  lemma MarksKeepAcceptance(accepted: seq<ProcessedPoint>, since: Time)
    ensures |MarkFrom(accepted, since)| == |accepted|
    ensures forall i :: 0 <= i < |accepted| ==>
              && MarkFrom(accepted, since)[i].isAccepted == accepted[i].isAccepted
              && MarkFrom(accepted, since)[i].filtered == accepted[i].filtered
              && MarkFrom(accepted, since)[i].recordedAt == accepted[i].recordedAt
  {
  }

  lemma MarksKeepTimes(history: seq<ProcessedPoint>, g: Progress, through: Option<Time>, since: Time)
    requires TimesFit(history, g, through)
    ensures TimesFit(history, MarkedBack(g, since), through)
  {
    MarksKeepAcceptance(g.accepted, since);
    hide MarkFrom, AcceptedOnly;
    var a, b := Track(history, MarkFrom(g.accepted, since)), Track(history, g.accepted);
    assert forall i :: 0 <= i < |a| ==> a[i].recordedAt == b[i].recordedAt;
  }

  lemma MarksKeepRecords(processed: seq<ProcessedPoint>, points: seq<RawPoint>, since: Time)
    requires |processed| <= |points| && forall i :: 0 <= i < |processed| ==> Records(processed[i], points[i])
    ensures |MarkAcceptedFrom(processed, since)| == |processed|
    ensures forall i :: 0 <= i < |processed| ==> Records(MarkAcceptedFrom(processed, since)[i], points[i])
  {
  }

  lemma MarkBackFits(s: Setup, history: seq<ProcessedPoint>, points: seq<RawPoint>, through: Option<Time>, n: nat,
                     g: Progress, since: Time)
    requires Shape(s, history, points, through, n, g)
    ensures Shape(s, history, points, through, n, MarkedBack(g, since))
  {
    hide WindowFits, AcceptedOnly, TimesFit, MarkFrom, MarkAcceptedFrom, Records;
    MarkingCommutes(g.processed, since);
    MarkKeepsWindow(s, history, g, since);
    MarksKeepTimes(history, g, through, since);
    MarksKeepRecords(g.processed, points, since);
    MarksKeepAcceptance(g.accepted, since);
  }

  lemma TrackIsSorted(s: Setup, history: seq<ProcessedPoint>, g: Progress, through: Option<Time>)
    requires NonDecreasing(AcceptedOnly(history)) && TimesFit(history, g, through)
    ensures NonDecreasing(Track(history, g.accepted))
  {
    var track, h := Track(history, g.accepted), AcceptedOnly(history);
    hide AcceptedOnly;
    forall i | 0 < i < |track| ensures track[i - 1].recordedAt <= track[i].recordedAt {
      if i < |h| {
        assert track[i - 1] == h[i - 1] && track[i] == h[i];
      }
    }
  }

  lemma SinceIsPast(s: Setup, history: seq<ProcessedPoint>, accepted: seq<ProcessedPoint>)
    requires NonDecreasing(Track(history, accepted)) && accepted != []
    requires Triggers(s, history, accepted, |accepted| - 1)
    ensures SinceOf(s, history, accepted, |accepted| - 1) <= accepted[|accepted| - 1].recordedAt
  {
    var m, track := |accepted| - 1, Track(history, accepted);
    assert accepted[..m + 1] == accepted;
    DropIsSuffix(track, accepted[m].recordedAt - Seconds(s.cfg.stationaryWindowSec));
    var window := WindowAt(s, history, accepted, m);
    assert window != [];
    hide DropBefore, AcceptedOnly, DetectStationary, NonDecreasing;
    assert window == track[|track| - |window|..];
    NonDecreasingPairs(track, |track| - |window|, |track| - 1);
  }

  lemma StepFits(s: Setup, history: seq<ProcessedPoint>, points: seq<RawPoint>, through: Option<Time>, n: nat,
                 g: Progress, next: Option<RawPoint>)
    requires InputFits(s, history) && n < |points| && Shape(s, history, points, through, n, g)
    requires MarksFit(s, history, g.accepted)
    ensures
      var after := Step(s, g, points[n], next, through);
      Shape(s, history, points, through, n + 1, after) && MarksFit(s, history, after.accepted)
  {
    hide ProcessOne, AcceptedOnly, Trim, Triggers, SinceOf, DetectStationary;
    var out := ProcessOne(s, g.window, points[n], next, through);
    ProcessOneRecords(s, g.window, points[n], next, through);
    if !out.isAccepted {
      RejectedFits(s, history, points, through, n, g, out);
    } else {
      NewComesLast(s, history, g, points[n], next, through);
      PushFits(s, history, points, through, n, g, out);
      NewPointDecides(s, history, g, points[n], next, through);
      hide Shape, MarksFit;
      if out.isStationary {
        StationaryStepFits(s, history, points, through, n, g, out);
      } else {
        MarksFitWhenMoving(s, history, g.accepted, out);
      }
    }
  }

  lemma RejectedFits(s: Setup, history: seq<ProcessedPoint>, points: seq<RawPoint>, through: Option<Time>, n: nat,
                     g: Progress, out: ProcessedPoint)
    requires n < |points| && Shape(s, history, points, through, n, g)
    requires !out.isAccepted && Records(out, points[n])
    ensures Shape(s, history, points, through, n + 1, g.(processed := g.processed + [out]))
  {
    hide AcceptedOnly, WindowFits, TimesFit, Records;
    AcceptedOneMore(g.processed, out);
    assert WindowFits(s, history, g) == WindowFits(s, history, g.(processed := g.processed + [out])) by {
      WindowFitsIgnoresProcessed(s, history, g, g.processed + [out]);
    }
    TimesFitIgnoresProcessed(history, g, g.processed + [out], through);
  }

  lemma WindowFitsIgnoresProcessed(s: Setup, history: seq<ProcessedPoint>, g: Progress, processed: seq<ProcessedPoint>)
    ensures WindowFits(s, history, g) == WindowFits(s, history, g.(processed := processed))
  {
  }

  lemma TimesFitIgnoresProcessed(history: seq<ProcessedPoint>, g: Progress, processed: seq<ProcessedPoint>,
                                 through: Option<Time>)
    ensures TimesFit(history, g, through) == TimesFit(history, g.(processed := processed), through)
  {
  }

  lemma StationaryStepFits(s: Setup, history: seq<ProcessedPoint>, points: seq<RawPoint>, through: Option<Time>,
                           n: nat, g: Progress, out: ProcessedPoint)
    requires InputFits(s, history) && MarksFit(s, history, g.accepted)
    requires Shape(s, history, points, through, n + 1, Pushed(s, g, out))
    requires Triggers(s, history, g.accepted + [out], |g.accepted|)
    requires Pushed(s, g, out).window != []
    requires Pushed(s, g, out).window[0].recordedAt == SinceOf(s, history, g.accepted + [out], |g.accepted|)
    ensures
      var after := MarkedBack(Pushed(s, g, out), Pushed(s, g, out).window[0].recordedAt);
      Shape(s, history, points, through, n + 1, after) && MarksFit(s, history, after.accepted)
  {
    var pushed := Pushed(s, g, out);
    TrackIsSorted(s, history, pushed, through);
    MarkBackFits(s, history, points, through, n + 1, pushed, pushed.window[0].recordedAt);
    hide Trim, MarksFit, Triggers, SinceOf, AcceptedOnly, MarkFrom, MarkAcceptedFrom, Shape;
    SinceIsPast(s, history, pushed.accepted);
    MarksFitWhenStationary(s, history, g.accepted, out);
  }

  lemma {:induction false} StepsFit(s: Setup, history: seq<ProcessedPoint>, points: seq<RawPoint>,
                                    through: Option<Time>, n: nat)
    requires InputFits(s, history) && n <= |points|
    ensures
      var g := Steps(s, history, points, through, n);
      Shape(s, history, points, through, n, g) && MarksFit(s, history, g.accepted)
  {
    if n == 0 {
      var h := AcceptedOnly(history);
      assert Track(history, []) == h;
    } else {
      hide Step, Shape, MarksFit;
      StepsFit(s, history, points, through, n - 1);
      StepFits(s, history, points, through, n - 1, Steps(s, history, points, through, n - 1), NextOf(points, n - 1));
    }
  }

  lemma StepsWindowFits(s: Setup, history: seq<ProcessedPoint>, points: seq<RawPoint>, through: Option<Time>, n: nat)
    requires InputFits(s, history) && n <= |points|
    ensures WindowFits(s, history, Steps(s, history, points, through, n))
  {
    StepsFit(s, history, points, through, n);
    hide Steps, WindowFits, AcceptedFits, TimesFit, MarksFit, Records;
  }

  // Processed holds each raw point once, sorted by time and event id, and records it as it
  // came; accepted is exactly what processed accepted, in spite of the marking in place; and
  // accepted times grow strictly, past the history and past what was already processed.
  lemma {:induction false} OutputInOrder(s: Setup, history: seq<ProcessedPoint>, raw: seq<RawPoint>,
                                         through: Option<Time>)
    requires InputFits(s, history)
    ensures
      var g, points := Pipeline(s, history, raw, through), Sort(RawBefore, raw);
      && multiset(points) == multiset(raw) && Sorted(RawBefore, points)
      && |g.processed| == |points|
      && (forall i :: 0 <= i < |points| ==> Records(g.processed[i], points[i]))
      && g.accepted == AcceptedOnly(g.processed)
      && Increasing(g.accepted)
      && (forall i :: 0 <= i < |g.accepted| ==> g.accepted[i].IsUsable() && g.accepted[i].recordedAt != 0)
      && (g.accepted != [] && AcceptedOnly(history) != [] ==>
            AcceptedOnly(history)[|AcceptedOnly(history)| - 1].recordedAt < g.accepted[0].recordedAt)
      && (through.Some? ==> forall i :: 0 <= i < |g.accepted| ==> g.accepted[i].recordedAt > through.value)
  {
    RawBeforeIsPreorder();
    SortSorts(RawBefore, raw);
    var points := Sort(RawBefore, raw);
    StepsFit(s, history, points, through, |points|);
    hide Steps, Sort, Sorted, MarksFit, RawBefore, Records;
    ShapeIsIncreasing(s, history, points, through, |points|, Pipeline(s, history, raw, through));
  }

  lemma ShapeIsIncreasing(s: Setup, history: seq<ProcessedPoint>, points: seq<RawPoint>, through: Option<Time>,
                          n: nat, g: Progress)
    requires Shape(s, history, points, through, n, g)
    ensures Increasing(g.accepted)
    ensures g.accepted != [] && AcceptedOnly(history) != [] ==>
              AcceptedOnly(history)[|AcceptedOnly(history)| - 1].recordedAt < g.accepted[0].recordedAt
  {
    var h, track := AcceptedOnly(history), Track(history, g.accepted);
    hide AcceptedOnly, WindowFits, Records;
    assert forall i :: 0 <= i < |g.accepted| ==> track[|h| + i] == g.accepted[i];
    assert h != [] ==> track[|h| - 1] == h[|h| - 1];
    forall i | 0 < i < |g.accepted| ensures g.accepted[i - 1].recordedAt < g.accepted[i].recordedAt {
      assert track[|h| + i - 1].recordedAt < track[|h| + i].recordedAt;
    }
  }

  // The marks are exactly those of the stationary windows of the output itself, and a
  // stationary point is dated no earlier than one window before it and no later than itself.
  lemma {:induction false} MarksAreDeclarative(s: Setup, history: seq<ProcessedPoint>, raw: seq<RawPoint>,
                                               through: Option<Time>)
    requires InputFits(s, history)
    ensures
      var accepted := Pipeline(s, history, raw, through).accepted;
      && MarksFit(s, history, accepted)
      && forall k :: 0 <= k < |accepted| && accepted[k].isStationary ==>
           && accepted[k].stationarySince.Some?
           && accepted[k].recordedAt - Seconds(s.cfg.stationaryWindowSec)
              <= accepted[k].stationarySince.value <= accepted[k].recordedAt
  {
    var points := Sort(RawBefore, raw);
    StepsFit(s, history, points, through, |points|);
    OutputInOrder(s, history, raw, through);
    hide Steps, Shape, AcceptedOnly;
    var accepted := Pipeline(s, history, raw, through).accepted;
    forall k | 0 <= k < |accepted| && accepted[k].isStationary
      ensures accepted[k].stationarySince.Some?
      ensures accepted[k].recordedAt - Seconds(s.cfg.stationaryWindowSec)
              <= accepted[k].stationarySince.value <= accepted[k].recordedAt
    {
      assert MarkFits(s, history, accepted, k);
      StationaryIsDated(s, history, accepted, k);
    }
  }

  lemma StationaryIsDated(s: Setup, history: seq<ProcessedPoint>, accepted: seq<ProcessedPoint>, k: nat)
    requires Increasing(accepted) && k < |accepted| && MarkFits(s, history, accepted, k)
    requires accepted[k].isStationary
    ensures accepted[k].stationarySince.Some?
    ensures accepted[k].recordedAt - Seconds(s.cfg.stationaryWindowSec)
            <= accepted[k].stationarySince.value <= accepted[k].recordedAt
  {
    var j :| DatedBy(s, history, accepted, j, k);
    NonDecreasingPairs(accepted, k, j);
    DropIsSuffix(Track(history, accepted[..j + 1]), accepted[j].recordedAt - Seconds(s.cfg.stationaryWindowSec));
    hide DropBefore, Track;
  }
}
