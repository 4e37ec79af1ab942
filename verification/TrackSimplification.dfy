// The simplified track (the GetTrack query in storage/postgres/tracking_query_repo.go): points
// are grouped into stretches of one state, short moving stretches are reclassified as
// stationary, and the stretches that then last long enough become stays.
module TrackSimplification {
  import opened Domain
  import opened Sorting
  import opened TripRows
  import opened Noise
  import opened NoiseOutput

  // An accepted, positioned row of processed_location_points.
  datatype TrackPoint = TrackPoint(
    deviceId: string, eventId: EventId, recordedAt: Time, position: GeoPoint, speedMps: Option<real>,
    markedStationary: bool, segmentBreak: bool)

  datatype Options = Options(speedThresholdMps: real, minStaySec: int, minMoveSec: int)

  // is_stationary OR COALESCE(speed_mps, 0) < threshold
  predicate Standing(o: Options, p: TrackPoint) {
    p.markedStationary || (if p.speedMps.Some? then p.speedMps.value else 0.0) < o.speedThresholdMps
  }

  function Flags(o: Options, points: seq<TrackPoint>): seq<bool> {
    seq(|points|, i requires 0 <= i < |points| => Standing(o, points[i]))
  }

  // The points come device by device, in time order; a new device or a segment break cuts.
  predicate Cut(points: seq<TrackPoint>, i: nat)
    requires i < |points|
  {
    i == 0 || points[i].deviceId != points[i - 1].deviceId || points[i].segmentBreak
  }

  // The state differs from that of the point before it in the same segment, if there is one.
  predicate Border(points: seq<TrackPoint>, flags: seq<bool>, i: nat)
    requires i < |points| == |flags|
  {
    Cut(points, i) || flags[i] != flags[i - 1]
  }

  // DENSE_RANK over device and segment
  function SegmentId(points: seq<TrackPoint>, i: nat): nat
    requires i < |points|
  {
    (if i == 0 then 0 else SegmentId(points, i - 1)) + if Cut(points, i) then 1 else 0
  }

  // The running number of borders; it names a group across devices and segments alike.
  function GroupId(points: seq<TrackPoint>, flags: seq<bool>, i: nat): nat
    requires i < |points| == |flags|
  {
    (if i == 0 then 0 else GroupId(points, flags, i - 1)) + if Border(points, flags, i) then 1 else 0
  }

  // MIN(recorded_at) and MAX(recorded_at) over the members of a group among the first n points.
  function GroupStart(points: seq<TrackPoint>, flags: seq<bool>, g: nat, n: nat): Option<Time>
    requires n <= |points| == |flags|
  {
    if n == 0 then None
    else
      var t, best := points[n - 1].recordedAt, GroupStart(points, flags, g, n - 1);
      if GroupId(points, flags, n - 1) == g && (best.None? || t < best.value) then Some(t) else best
  }

  function GroupEnd(points: seq<TrackPoint>, flags: seq<bool>, g: nat, n: nat): Option<Time>
    requires n <= |points| == |flags|
  {
    if n == 0 then None
    else
      var t, best := points[n - 1].recordedAt, GroupEnd(points, flags, g, n - 1);
      if GroupId(points, flags, n - 1) == g && (best.None? || t > best.value) then Some(t) else best
  }

  lemma {:induction false} GroupHasTimes(points: seq<TrackPoint>, flags: seq<bool>, i: nat, n: nat)
    requires i < n <= |points| == |flags|
    ensures GroupStart(points, flags, GroupId(points, flags, i), n).Some?
    ensures GroupEnd(points, flags, GroupId(points, flags, i), n).Some?
  {
    hide GroupId;
    if i < n - 1 {
      GroupHasTimes(points, flags, i, n - 1);
    }
  }

  // EXTRACT(EPOCH FROM MAX - MIN)::int of the group of the i-th point
  function Duration(points: seq<TrackPoint>, flags: seq<bool>, i: nat): int
    requires i < |points| == |flags|
  {
    var g := GroupId(points, flags, i);
    GroupHasTimes(points, flags, i, |points|);
    RoundedSeconds(GroupEnd(points, flags, g, |points|).value - GroupStart(points, flags, g, |points|).value)
  }

  // Moving groups that are too short count as standing.
  function Reclassified(o: Options, points: seq<TrackPoint>, flags: seq<bool>): seq<bool>
    requires |points| == |flags|
  {
    seq(|points|, i requires 0 <= i < |points| =>
      if !flags[i] && Duration(points, flags, i) < o.minMoveSec then true else flags[i])
  }

  function FinalFlags(o: Options, points: seq<TrackPoint>): seq<bool> {
    Reclassified(o, points, Flags(o, points))
  }

  // ---- output ----

  datatype Row =
    | Stay(segmentId: nat, recordedAt: Time, periodEnd: Time, center: GeoPoint, durationSec: int, merged: nat)
    | Move(segmentId: nat, point: TrackPoint)
  {
    function MergedCount(): nat {
      if Stay? then merged else 1
    }

    function At(): Time {
      if Stay? then recordedAt else point.recordedAt
    }

    // Stays have an empty event id.
    function Id(): EventId {
      if Stay? then "" else point.eventId
    }
  }

  // The first and the last member of the group of the i-th point.
  function First(points: seq<TrackPoint>, flags: seq<bool>, i: nat): (k: nat)
    requires i < |points| == |flags|
    ensures k <= i && Border(points, flags, k)
  {
    if Border(points, flags, i) then i else First(points, flags, i - 1)
  }

  function Last(points: seq<TrackPoint>, flags: seq<bool>, i: nat): (k: nat)
    requires i < |points| == |flags|
    ensures i <= k < |points|
    decreases |points| - i
  {
    if i + 1 == |points| || Border(points, flags, i + 1) then i else Last(points, flags, i + 1)
  }

  function SumLat(points: seq<TrackPoint>): real {
    if points == [] then 0.0 else SumLat(points[..|points| - 1]) + points[|points| - 1].position.lat
  }

  function SumLon(points: seq<TrackPoint>): real {
    if points == [] then 0.0 else SumLon(points[..|points| - 1]) + points[|points| - 1].position.lon
  }

  // AVG(lat), AVG(lon)
  function Center(points: seq<TrackPoint>): GeoPoint
    requires points != []
  {
    GeoPoint(SumLat(points) / |points| as real, SumLon(points) / |points| as real)
  }

  predicate Stays(o: Options, points: seq<TrackPoint>, i: nat)
    requires i < |points|
  {
    var flags := FinalFlags(o, points);
    flags[i] && Duration(points, flags, i) >= o.minStaySec
  }

  // One row for each staying group, at its first member; one row for every other point.
  function RowsAt(o: Options, points: seq<TrackPoint>, i: nat): seq<Row>
    requires i < |points|
  {
    var flags := FinalFlags(o, points);
    if !Stays(o, points, i) then [Move(SegmentId(points, i), points[i])]
    else if !Border(points, flags, i) then []
    else
      var last := Last(points, flags, i);
      [Stay(SegmentId(points, i), points[i].recordedAt, points[last].recordedAt,
            Center(points[i..last + 1]), Duration(points, flags, i), last + 1 - i)]
  }

  function RowsOf(o: Options, points: seq<TrackPoint>, n: nat): seq<Row>
    requires n <= |points|
  {
    if n == 0 then [] else RowsOf(o, points, n - 1) + RowsAt(o, points, n - 1)
  }

  predicate RowBefore(a: Row, b: Row) {
    if a.At() == b.At() then IdBefore(a.Id(), b.Id()) else a.At() < b.At()
  }

  function GetTrack(o: Options, points: seq<TrackPoint>): seq<Row> {
    Sort(RowBefore, RowsOf(o, points, |points|))
  }

  // ---- groups are intervals ----

  lemma {:induction false} GroupIdGrows(points: seq<TrackPoint>, flags: seq<bool>, i: nat, j: nat)
    requires i <= j < |points| == |flags|
    ensures GroupId(points, flags, i) <= GroupId(points, flags, j)
  {
    if i < j {
      GroupIdGrows(points, flags, i, j - 1);
    }
  }

  lemma {:induction false} FirstIsInGroup(points: seq<TrackPoint>, flags: seq<bool>, i: nat)
    requires i < |points| == |flags|
    ensures
      var k := First(points, flags, i);
      && GroupId(points, flags, k) == GroupId(points, flags, i)
      && forall j :: k < j <= i ==> !Border(points, flags, j)
  {
    if !Border(points, flags, i) {
      FirstIsInGroup(points, flags, i - 1);
    }
  }

  lemma {:induction false} LastIsInGroup(points: seq<TrackPoint>, flags: seq<bool>, i: nat)
    requires i < |points| == |flags|
    ensures
      var k := Last(points, flags, i);
      && GroupId(points, flags, k) == GroupId(points, flags, i)
      && (k + 1 < |points| ==> Border(points, flags, k + 1))
      && forall j :: i < j <= k ==> !Border(points, flags, j)
    decreases |points| - i
  {
    hide Border;
    if i + 1 < |points| && !Border(points, flags, i + 1) {
      LastIsInGroup(points, flags, i + 1);
    }
  }

  // The members of a group are exactly the points from its first to its last.
  lemma {:induction false} GroupIsInterval(points: seq<TrackPoint>, flags: seq<bool>, i: nat, k: nat)
    requires i < |points| == |flags| && k < |points|
    ensures GroupId(points, flags, k) == GroupId(points, flags, i)
            <==> First(points, flags, i) <= k <= Last(points, flags, i)
  {
    hide Border;
    var first, last := First(points, flags, i), Last(points, flags, i);
    FirstIsInGroup(points, flags, i);
    LastIsInGroup(points, flags, i);
    if k < first {
      GroupIdGrows(points, flags, k, first - 1);
    } else if k > last {
      GroupIdGrows(points, flags, last + 1, k);
    } else if k <= i {
      GroupIdGrows(points, flags, first, k);
      GroupIdGrows(points, flags, k, i);
    } else {
      GroupIdGrows(points, flags, i, k);
      GroupIdGrows(points, flags, k, last);
    }
  }

  // Rows of one device come in time order.
  predicate InTimeOrder(points: seq<TrackPoint>) {
    forall i :: 0 < i < |points| && points[i].deviceId == points[i - 1].deviceId ==>
      points[i - 1].recordedAt <= points[i].recordedAt
  }

  lemma {:induction false} TimesGrowInGroup(points: seq<TrackPoint>, flags: seq<bool>, i: nat, j: nat)
    requires InTimeOrder(points) && i <= j < |points| == |flags|
    requires forall k :: i < k <= j ==> !Border(points, flags, k)
    ensures points[i].recordedAt <= points[j].recordedAt
  {
    if i < j {
      assert !Border(points, flags, j);
      TimesGrowInGroup(points, flags, i, j - 1);
    }
  }

  lemma {:induction false} GroupTimes(points: seq<TrackPoint>, flags: seq<bool>, i: nat, n: nat)
    requires InTimeOrder(points) && i < |points| == |flags| && n <= |points|
    ensures
      var g, first, last := GroupId(points, flags, i), First(points, flags, i), Last(points, flags, i);
      var until := if n - 1 <= last then n - 1 else last;
      && GroupStart(points, flags, g, n) == (if n <= first then None else Some(points[first].recordedAt))
      && GroupEnd(points, flags, g, n) == (if n <= first then None else Some(points[until].recordedAt))
  {
    if n > 0 {
      GroupTimes(points, flags, i, n - 1);
      GroupIsInterval(points, flags, i, n - 1);
      MemberTimes(points, flags, i, n - 1);
      hide Border, InTimeOrder, GroupId, First, Last;
    }
  }

  // A member is no earlier than the group's first point, nor than the member before it.
  lemma MemberTimes(points: seq<TrackPoint>, flags: seq<bool>, i: nat, k: nat)
    requires InTimeOrder(points) && i < |points| == |flags| && k < |points|
    ensures
      var first, last := First(points, flags, i), Last(points, flags, i);
      && (first <= k <= last ==> points[first].recordedAt <= points[k].recordedAt)
      && (first < k <= last ==> points[k - 1].recordedAt <= points[k].recordedAt)
  {
    FirstIsInGroup(points, flags, i);
    LastIsInGroup(points, flags, i);
    hide Border, InTimeOrder, GroupId, First, Last;
    var first, last := First(points, flags, i), Last(points, flags, i);
    if first <= k <= last {
      TimesGrowInGroup(points, flags, first, k);
      if first < k {
        TimesGrowInGroup(points, flags, k - 1, k);
      }
    }
  }

  // A group lasts from its first to its last point.
  lemma {:induction false} DurationIsSpan(points: seq<TrackPoint>, flags: seq<bool>, i: nat)
    requires InTimeOrder(points) && i < |points| == |flags|
    ensures Duration(points, flags, i)
            == RoundedSeconds(points[Last(points, flags, i)].recordedAt - points[First(points, flags, i)].recordedAt)
  {
    GroupTimes(points, flags, i, |points|);
    hide GroupStart, GroupEnd, GroupId, First, Last, InTimeOrder, RoundedSeconds;
  }

  // All members of a group last the same.
  lemma SameGroupSameDuration(points: seq<TrackPoint>, flags: seq<bool>, i: nat, j: nat)
    requires i < |points| == |flags| && j < |points| && GroupId(points, flags, i) == GroupId(points, flags, j)
    ensures Duration(points, flags, i) == Duration(points, flags, j)
  {
  }

  // ---- reclassifying twice changes nothing ----

  lemma NoBorderSameGroup(points: seq<TrackPoint>, flags: seq<bool>, i: nat)
    requires 0 < i < |points| == |flags| && !Border(points, flags, i)
    ensures GroupId(points, flags, i) == GroupId(points, flags, i - 1) && flags[i] == flags[i - 1]
  {
    hide Cut;
  }

  // A point that still moves had moving neighbours exactly where it still has them.
  lemma MovingBorders(o: Options, points: seq<TrackPoint>, flags: seq<bool>, i: nat)
    requires |points| == |flags| && 0 < i < |points|
    requires !Reclassified(o, points, flags)[i] || !Reclassified(o, points, flags)[i - 1]
    ensures Border(points, Reclassified(o, points, flags), i) == Border(points, flags, i)
  {
    hide Cut, Duration;
    if !Border(points, flags, i) {
      NoBorderSameGroup(points, flags, i);
      SameGroupSameDuration(points, flags, i - 1, i);
    }
  }

  lemma {:induction false} MovingFirst(o: Options, points: seq<TrackPoint>, flags: seq<bool>, i: nat)
    requires i < |points| == |flags| && !Reclassified(o, points, flags)[i]
    ensures First(points, Reclassified(o, points, flags), i) == First(points, flags, i)
  {
    hide Duration, Cut;
    var again := Reclassified(o, points, flags);
    if i > 0 {
      MovingBorders(o, points, flags, i);
      if !Border(points, flags, i) {
        NoBorderSameGroup(points, flags, i);
        SameGroupSameDuration(points, flags, i - 1, i);
        MovingFirst(o, points, flags, i - 1);
      }
    } else {
      assert Cut(points, 0) by { FirstPointCuts(points); }
    }
  }

  lemma FirstPointCuts(points: seq<TrackPoint>)
    requires points != []
    ensures Cut(points, 0)
  {
  }

  lemma {:induction false} MovingLast(o: Options, points: seq<TrackPoint>, flags: seq<bool>, i: nat)
    requires i < |points| == |flags| && !Reclassified(o, points, flags)[i]
    ensures Last(points, Reclassified(o, points, flags), i) == Last(points, flags, i)
    decreases |points| - i
  {
    hide Duration, Cut;
    if i + 1 < |points| {
      MovingBorders(o, points, flags, i + 1);
      if !Border(points, flags, i + 1) {
        NoBorderSameGroup(points, flags, i + 1);
        SameGroupSameDuration(points, flags, i, i + 1);
        MovingLast(o, points, flags, i + 1);
      }
    }
  }

  // What still moves after the pass belongs to a moving group that lasts long enough.
  lemma {:induction false} MovingGroupsAreLong(o: Options, points: seq<TrackPoint>, flags: seq<bool>, i: nat)
    requires InTimeOrder(points) && i < |points| == |flags| && !Reclassified(o, points, flags)[i]
    ensures Duration(points, Reclassified(o, points, flags), i) >= o.minMoveSec
  {
    var again := Reclassified(o, points, flags);
    MovingFirst(o, points, flags, i);
    MovingLast(o, points, flags, i);
    DurationIsSpan(points, flags, i);
    DurationIsSpan(points, again, i);
    assert Duration(points, flags, i) >= o.minMoveSec;
    hide Duration, First, Last, RoundedSeconds;
  }

  lemma {:induction false} ReclassifyingIsIdempotent(o: Options, points: seq<TrackPoint>, flags: seq<bool>)
    requires InTimeOrder(points) && |points| == |flags|
    ensures Reclassified(o, points, Reclassified(o, points, flags)) == Reclassified(o, points, flags)
  {
    var again := Reclassified(o, points, flags);
    forall i | 0 <= i < |points| && !again[i] ensures Duration(points, again, i) >= o.minMoveSec {
      MovingGroupsAreLong(o, points, flags, i);
    }
    hide Duration;
  }

  // ---- every point is in exactly one row ----

  function TotalMerged(rows: seq<Row>): nat {
    if rows == [] then 0 else TotalMerged(rows[..|rows| - 1]) + rows[|rows| - 1].MergedCount()
  }

  lemma {:induction false} TotalMergedAppend(a: seq<Row>, b: seq<Row>)
    ensures TotalMerged(a + b) == TotalMerged(a) + TotalMerged(b)
  {
    if b == [] {
      assert a + b == a;
    } else {
      assert (a + b)[..|a + b| - 1] == a + b[..|b| - 1];
      TotalMergedAppend(a, b[..|b| - 1]);
    }
  }

  lemma TotalOfOne(r: Row)
    ensures TotalMerged([r]) == r.MergedCount()
  {
    assert [r][..0] == [];
  }

  // How many of the points the rows of the first n account for.
  function Accounted(o: Options, points: seq<TrackPoint>, n: nat): nat
    requires n <= |points|
  {
    if n > 0 && Stays(o, points, n - 1) then Last(points, FinalFlags(o, points), n - 1) + 1 else n
  }

  lemma LastOfPrevious(points: seq<TrackPoint>, flags: seq<bool>, i: nat)
    requires 0 < i < |points| == |flags|
    ensures Last(points, flags, i - 1) == if Border(points, flags, i) then i - 1 else Last(points, flags, i)
  {
    hide Border;
  }

  lemma SameGroupStays(o: Options, points: seq<TrackPoint>, i: nat)
    requires 0 < i < |points| && !Border(points, FinalFlags(o, points), i)
    ensures Stays(o, points, i) == Stays(o, points, i - 1)
  {
    var flags := FinalFlags(o, points);
    NoBorderSameGroup(points, flags, i);
    SameGroupSameDuration(points, flags, i - 1, i);
    hide Duration, FinalFlags, Border;
  }

  lemma RowsAtCounts(o: Options, points: seq<TrackPoint>, i: nat)
    requires i < |points|
    ensures Accounted(o, points, i + 1) == Accounted(o, points, i) + TotalMerged(RowsAt(o, points, i))
  {
    var flags := FinalFlags(o, points);
    var rows := RowsAt(o, points, i);
    if i > 0 {
      LastOfPrevious(points, flags, i);
      if !Border(points, flags, i) {
        SameGroupStays(o, points, i);
      }
    } else {
      FirstPointCuts(points);
    }
    if rows != [] {
      TotalOfOne(rows[0]);
      assert rows == [rows[0]];
    }
    hide Duration, FinalFlags, Cut, Last, Center, SegmentId, TotalMerged;
    if i > 0 && !Border(points, flags, i) {
      assert rows == [] ==> TotalMerged(rows) == 0 by { NoRows(rows); }
    }
  }

  lemma NoRows(rows: seq<Row>)
    ensures rows == [] ==> TotalMerged(rows) == 0
  {
  }

  lemma {:induction false} RowsAccount(o: Options, points: seq<TrackPoint>, n: nat)
    requires n <= |points|
    ensures TotalMerged(RowsOf(o, points, n)) == Accounted(o, points, n)
  {
    hide RowsAt, Accounted;
    if n > 0 {
      RowsAccount(o, points, n - 1);
      RowsAtCounts(o, points, n - 1);
      TotalMergedAppend(RowsOf(o, points, n - 1), RowsAt(o, points, n - 1));
    } else {
      NothingAccounted(o, points);
    }
  }

  lemma NothingAccounted(o: Options, points: seq<TrackPoint>)
    ensures Accounted(o, points, 0) == 0
  {
  }

  lemma AllAccounted(o: Options, points: seq<TrackPoint>)
    ensures Accounted(o, points, |points|) == |points|
  {
  }

  lemma {:induction false} InsertKeepsTotal(x: Row, rows: seq<Row>)
    ensures TotalMerged(Insert(RowBefore, x, rows)) == TotalMerged(rows) + x.MergedCount()
  {
    TotalOfOne(x);
    if rows != [] {
      TotalOfOne(rows[0]);
      assert rows == [rows[0]] + rows[1..];
      TotalMergedAppend([rows[0]], rows[1..]);
      if RowBefore(rows[0], x) {
        InsertKeepsTotal(x, rows[1..]);
        TotalMergedAppend([rows[0]], Insert(RowBefore, x, rows[1..]));
      } else {
        TotalMergedAppend([x], rows);
      }
    }
  }

  lemma {:induction false} SortKeepsTotal(rows: seq<Row>)
    ensures TotalMerged(Sort(RowBefore, rows)) == TotalMerged(rows)
  {
    if rows != [] {
      SortKeepsTotal(rows[1..]);
      InsertKeepsTotal(rows[0], Sort(RowBefore, rows[1..]));
      assert rows == [rows[0]] + rows[1..];
      TotalMergedAppend([rows[0]], rows[1..]);
      TotalOfOne(rows[0]);
    }
  }

  // The merged counts of all rows add up to the number of accepted points, for any points.
  lemma {:induction false} PointsAreConserved(o: Options, points: seq<TrackPoint>)
    ensures TotalMerged(GetTrack(o, points)) == |points|
  {
    SortKeepsTotal(RowsOf(o, points, |points|));
    RowsAccount(o, points, |points|);
    AllAccounted(o, points);
  }

  // A point listed on its own moves in a group that lasts long enough, or stands in one that
  // does not; a stay lasts long enough, inside one segment of one device.
  lemma {:induction false} RowsAreReal(o: Options, points: seq<TrackPoint>, i: nat)
    requires InTimeOrder(points) && i < |points|
    ensures
      var flags := FinalFlags(o, points);
      if !Stays(o, points, i) then
        if flags[i] then Duration(points, flags, i) < o.minStaySec else Duration(points, flags, i) >= o.minMoveSec
      else
        var first, last := First(points, flags, i), Last(points, flags, i);
        && RoundedSeconds(points[last].recordedAt - points[first].recordedAt) >= o.minStaySec
        && forall k :: first < k <= last ==>
             flags[k] == flags[first] && SegmentId(points, k) == SegmentId(points, k - 1)
  {
    var flags := FinalFlags(o, points);
    if !Stays(o, points, i) {
      if !flags[i] {
        MovingGroupsAreLong(o, points, Flags(o, points), i);
      }
    } else {
      DurationIsSpan(points, flags, i);
      MembersAreAlike(points, flags, i);
    }
    hide FinalFlags, First, Last, Duration, RoundedSeconds, InTimeOrder;
  }

  // A group keeps one flag and one segment of one device.
  lemma MembersAreAlike(points: seq<TrackPoint>, flags: seq<bool>, i: nat)
    requires i < |points| == |flags|
    ensures
      var first, last := First(points, flags, i), Last(points, flags, i);
      forall k :: first < k <= last ==> flags[k] == flags[first] && SegmentId(points, k) == SegmentId(points, k - 1)
  {
    FirstIsInGroup(points, flags, i);
    LastIsInGroup(points, flags, i);
    var first, last := First(points, flags, i), Last(points, flags, i);
    hide First, Last, GroupId;
    forall k | first < k <= last
      ensures flags[k] == flags[first] && SegmentId(points, k) == SegmentId(points, k - 1)
    {
      SameFlagInGroup(points, flags, first, k);
    }
  }

  lemma {:induction false} SameFlagInGroup(points: seq<TrackPoint>, flags: seq<bool>, first: nat, k: nat)
    requires first <= k < |points| == |flags|
    requires forall j :: first < j <= k ==> !Border(points, flags, j)
    ensures flags[k] == flags[first]
    ensures first < k ==> SegmentId(points, k) == SegmentId(points, k - 1)
  {
    if first < k {
      assert !Border(points, flags, k);
      SameFlagInGroup(points, flags, first, k - 1);
    }
  }

  // ---- uniform segments ----

  // One device, no break after the first point.
  predicate OneSegment(points: seq<TrackPoint>) {
    forall i :: 0 < i < |points| ==> points[i].deviceId == points[i - 1].deviceId && !points[i].segmentBreak
  }

  predicate Slow(o: Options, p: TrackPoint) {
    || p.markedStationary
    || (p.speedMps.Some? && p.speedMps.value < o.speedThresholdMps)
    || (p.speedMps.None? && 0.0 < o.speedThresholdMps)
  }

  function SpanOf(points: seq<TrackPoint>): int
    requires points != []
  {
    RoundedSeconds(points[|points| - 1].recordedAt - points[0].recordedAt)
  }

  ghost predicate AllAre(flags: seq<bool>, standing: bool) {
    forall i :: 0 <= i < |flags| ==> flags[i] == standing
  }

  lemma {:induction false} UniformFirst(points: seq<TrackPoint>, flags: seq<bool>, standing: bool, i: nat)
    requires OneSegment(points) && |points| == |flags| && AllAre(flags, standing) && i < |points|
    ensures Border(points, flags, i) <==> i == 0
    ensures First(points, flags, i) == 0 && SegmentId(points, i) == 1
  {
    if i > 0 {
      UniformFirst(points, flags, standing, i - 1);
    }
  }

  lemma {:induction false} UniformLast(points: seq<TrackPoint>, flags: seq<bool>, standing: bool, i: nat)
    requires OneSegment(points) && |points| == |flags| && AllAre(flags, standing) && i < |points|
    ensures Last(points, flags, i) == |points| - 1
    decreases |points| - i
  {
    hide Border, OneSegment, AllAre;
    if i + 1 < |points| {
      UniformFirst(points, flags, standing, i + 1);
      UniformLast(points, flags, standing, i + 1);
    }
  }

  lemma UniformDuration(points: seq<TrackPoint>, flags: seq<bool>, standing: bool, i: nat)
    requires OneSegment(points) && |points| == |flags| && AllAre(flags, standing) && i < |points|
    requires InTimeOrder(points)
    ensures Duration(points, flags, i) == SpanOf(points)
  {
    UniformFirst(points, flags, standing, i);
    UniformLast(points, flags, standing, i);
    DurationIsSpan(points, flags, i);
    hide Duration, First, Last, RoundedSeconds;
  }

  lemma SlowFlags(o: Options, points: seq<TrackPoint>)
    requires forall i :: 0 <= i < |points| ==> Slow(o, points[i])
    ensures AllAre(FinalFlags(o, points), true)
  {
    hide Duration;
  }

  lemma FastFlags(o: Options, points: seq<TrackPoint>)
    requires points != [] && OneSegment(points) && InTimeOrder(points) && SpanOf(points) >= o.minMoveSec
    requires forall i :: 0 <= i < |points| ==> !Slow(o, points[i])
    ensures AllAre(FinalFlags(o, points), false)
  {
    var flags := Flags(o, points);
    assert AllAre(flags, false);
    forall i | 0 <= i < |points| ensures Duration(points, flags, i) == SpanOf(points) {
      UniformDuration(points, flags, false, i);
    }
    hide Duration, SpanOf;
  }

  lemma UniformRowsAt(o: Options, points: seq<TrackPoint>, standing: bool, i: nat)
    requires points != [] && OneSegment(points) && InTimeOrder(points) && i < |points|
    requires AllAre(FinalFlags(o, points), standing) && (standing ==> SpanOf(points) >= o.minStaySec)
    ensures RowsAt(o, points, i)
            == if !standing then [Move(1, points[i])]
               else if i > 0 then []
               else
                 [Stay(1, points[0].recordedAt, points[|points| - 1].recordedAt, Center(points), SpanOf(points),
                       |points|)]
  {
    var flags := FinalFlags(o, points);
    UniformFirst(points, flags, standing, i);
    UniformLast(points, flags, standing, i);
    UniformDuration(points, flags, standing, i);
    hide Duration, FinalFlags, Border, First, Last, Center, SpanOf, OneSegment, InTimeOrder, SegmentId;
    assert points[0..|points|] == points;
  }

  // A segment that is slow throughout and lasts long enough comes out as one stay with all its
  // points.
  lemma {:induction false} SlowSegmentIsOneStay(o: Options, points: seq<TrackPoint>)
    requires points != [] && OneSegment(points) && InTimeOrder(points) && SpanOf(points) >= o.minStaySec
    requires forall i :: 0 <= i < |points| ==> Slow(o, points[i])
    ensures GetTrack(o, points)
            == [Stay(1, points[0].recordedAt, points[|points| - 1].recordedAt, Center(points), SpanOf(points),
                     |points|)]
  {
    SlowFlags(o, points);
    SlowRows(o, points, |points|);
    hide RowsOf, SpanOf, Center;
  }

  lemma {:induction false} SlowRows(o: Options, points: seq<TrackPoint>, n: nat)
    requires points != [] && OneSegment(points) && InTimeOrder(points) && SpanOf(points) >= o.minStaySec
    requires AllAre(FinalFlags(o, points), true) && n <= |points|
    ensures RowsOf(o, points, n)
            == if n == 0 then []
               else
                 [Stay(1, points[0].recordedAt, points[|points| - 1].recordedAt, Center(points), SpanOf(points),
                       |points|)]
  {
    hide RowsAt, SpanOf, Center, FinalFlags, OneSegment, InTimeOrder, AllAre;
    if n > 0 {
      SlowRows(o, points, n - 1);
      UniformRowsAt(o, points, true, n - 1);
    }
  }

  function Moves(points: seq<TrackPoint>): seq<Row> {
    seq(|points|, i requires 0 <= i < |points| => Move(1, points[i]))
  }

  // A segment that is fast throughout and lasts long enough comes out as its points.
  lemma {:induction false} FastSegmentIsItsPoints(o: Options, points: seq<TrackPoint>)
    requires points != [] && OneSegment(points) && InTimeOrder(points) && SpanOf(points) >= o.minMoveSec
    requires forall i :: 0 <= i < |points| ==> !Slow(o, points[i])
    ensures GetTrack(o, points) == Sort(RowBefore, Moves(points))
  {
    FastFlags(o, points);
    FastRows(o, points, |points|);
    hide RowsOf, SpanOf;
    assert Moves(points)[..|points|] == Moves(points);
  }

  lemma {:induction false} FastRows(o: Options, points: seq<TrackPoint>, n: nat)
    requires points != [] && OneSegment(points) && InTimeOrder(points)
    requires AllAre(FinalFlags(o, points), false) && n <= |points|
    ensures RowsOf(o, points, n) == Moves(points)[..n]
  {
    hide RowsAt, SpanOf, FinalFlags, OneSegment, InTimeOrder, AllAre;
    if n > 0 {
      FastRows(o, points, n - 1);
      UniformRowsAt(o, points, false, n - 1);
    }
  }

  // ---- one device, no break ----

  // From the first to the last point of a stay there is one device and no break.
  lemma {:induction false} StaysKeepTogether(o: Options, points: seq<TrackPoint>, i: nat, k: nat)
    requires i < |points| && Stays(o, points, i)
    requires First(points, FinalFlags(o, points), i) < k <= Last(points, FinalFlags(o, points), i)
    ensures points[k].deviceId == points[k - 1].deviceId && !points[k].segmentBreak
  {
    var flags := FinalFlags(o, points);
    FirstIsInGroup(points, flags, i);
    LastIsInGroup(points, flags, i);
    hide FinalFlags, First, Last, GroupId, Stays;
    assert !Border(points, flags, k);
  }

  // ---- the answer as a whole ----

  lemma RowBeforeIsPreorder()
    ensures IsPreorder(RowBefore)
  {
    forall a, b, c
      ensures !RowBefore(a, a)
      ensures RowBefore(a, b) && RowBefore(b, c) ==> RowBefore(a, c)
      ensures !RowBefore(a, b) && !RowBefore(b, c) ==> !RowBefore(a, c)
    {
      IdNotBeforeItself(a.Id());
      IdBeforeIsPreorder(a.Id(), b.Id(), c.Id());
    }
  }

  // The rows come in time order, and rows of one instant in the order of their event ids, stays
  // first.
  lemma {:induction false} TrackRunsForward(o: Options, points: seq<TrackPoint>, i: nat, j: nat)
    requires i < j < |GetTrack(o, points)|
    ensures
      var a, b := GetTrack(o, points)[i], GetTrack(o, points)[j];
      && a.At() <= b.At()
      && (a.At() == b.At() ==> !IdBefore(b.Id(), a.Id()) && (b.Stay? ==> a.Id() == ""))
  {
    RowBeforeIsPreorder();
    SortSorts(RowBefore, RowsOf(o, points, |points|));
    hide Sort, RowsOf;
    assert !RowBefore(GetTrack(o, points)[j], GetTrack(o, points)[i]);
  }

  // The centre of a stay lies between its points, in latitude and in longitude.
  lemma {:induction false} CenterIsInside(points: seq<TrackPoint>, lo: GeoPoint, hi: GeoPoint)
    requires points != []
    requires forall i :: 0 <= i < |points| ==> lo.lat <= points[i].position.lat <= hi.lat
    requires forall i :: 0 <= i < |points| ==> lo.lon <= points[i].position.lon <= hi.lon
    ensures lo.lat <= Center(points).lat <= hi.lat && lo.lon <= Center(points).lon <= hi.lon
  {
    LatitudesAdd(points, lo.lat, hi.lat);
    LongitudesAdd(points, lo.lon, hi.lon);
    hide SumLat, SumLon;
    MeanIsBetween(lo.lat, SumLat(points), hi.lat, |points| as real);
    MeanIsBetween(lo.lon, SumLon(points), hi.lon, |points| as real);
  }

  predicate SumIsBetween(lo: real, sum: real, hi: real, n: real) {
    n * lo <= sum <= n * hi
  }

  lemma {:induction false} LatitudesAdd(points: seq<TrackPoint>, lo: real, hi: real)
    requires forall i :: 0 <= i < |points| ==> lo <= points[i].position.lat <= hi
    ensures SumIsBetween(lo, SumLat(points), hi, |points| as real)
  {
    hide SumIsBetween;
    if points == [] {
      NothingToAdd(lo, hi);
    } else {
      LatitudesAdd(points[..|points| - 1], lo, hi);
      OneMoreToAdd(lo, SumLat(points[..|points| - 1]), hi, |points| - 1, points[|points| - 1].position.lat);
    }
  }

  lemma {:induction false} LongitudesAdd(points: seq<TrackPoint>, lo: real, hi: real)
    requires forall i :: 0 <= i < |points| ==> lo <= points[i].position.lon <= hi
    ensures SumIsBetween(lo, SumLon(points), hi, |points| as real)
  {
    hide SumIsBetween;
    if points == [] {
      NothingToAdd(lo, hi);
    } else {
      LongitudesAdd(points[..|points| - 1], lo, hi);
      OneMoreToAdd(lo, SumLon(points[..|points| - 1]), hi, |points| - 1, points[|points| - 1].position.lon);
    }
  }

  lemma NothingToAdd(lo: real, hi: real)
    ensures SumIsBetween(lo, 0.0, hi, 0 as real)
  {
  }

  lemma OneMoreToAdd(lo: real, sum: real, hi: real, n: nat, x: real)
    requires SumIsBetween(lo, sum, hi, n as real) && lo <= x <= hi
    ensures SumIsBetween(lo, sum + x, hi, (n + 1) as real)
  {
    var m := n as real;
    assert (n + 1) as real == m + 1.0;
    assert (m + 1.0) * lo == m * lo + lo && (m + 1.0) * hi == m * hi + hi;
  }

  lemma MeanIsBetween(lo: real, sum: real, hi: real, n: real)
    requires n > 0.0 && SumIsBetween(lo, sum, hi, n)
    ensures lo <= sum / n <= hi
  {
    var mean := sum / n;
    assert mean * n == sum;
    FactorKeepsOrder(lo, mean, n);
    FactorKeepsOrder(mean, hi, n);
  }

  lemma FactorKeepsOrder(a: real, b: real, n: real)
    requires n > 0.0 && n * a <= n * b
    ensures a <= b
  {
  }
}
