// Points may arrive in any order between two ticks: the worker sorts what it reads, by time
// and then by event id, and that order is total.
module ArrivalOrder {
  import opened Domain
  import opened Sorting
  import opened Noise
  import opened NoiseOutput
  import opened TripDetection
  import opened Storage
  import opened TrackingJob
  import opened JobRuns

  // ---- the order of event ids ----

  // One id is a proper beginning of the other, or they first differ where its character is the
  // smaller one.
  ghost predicate FirstDifferenceIs(a: EventId, b: EventId, k: nat) {
    && k <= |a| && k < |b| && a[..k] == b[..k]
    && (k == |a| || a[k] < b[k])
  }

  lemma {:induction false} IdsAreOrdered(a: EventId, b: EventId)
    ensures IdBefore(a, b) <==> exists k: nat :: FirstDifferenceIs(a, b, k)
    ensures a != b ==> IdBefore(a, b) || IdBefore(b, a)
  {
    if a != [] && b != [] && a[0] == b[0] {
      IdsAreOrdered(a[1..], b[1..]);
      if k: nat :| FirstDifferenceIs(a[1..], b[1..], k) {
        assert a[..k + 1] == [a[0]] + a[1..][..k] && b[..k + 1] == [b[0]] + b[1..][..k];
        assert FirstDifferenceIs(a, b, k + 1);
      }
      if k: nat :| FirstDifferenceIs(a, b, k) {
        assert k > 0;
        assert a[1..][..k - 1] == a[..k][1..] && b[1..][..k - 1] == b[..k][1..];
        assert FirstDifferenceIs(a[1..], b[1..], k - 1);
      }
      assert a != b ==> a[1..] != b[1..] by {
        assert a == [a[0]] + a[1..] && b == [b[0]] + b[1..];
      }
    } else {
      assert b != [] && (a == [] || a[0] < b[0]) ==> FirstDifferenceIs(a, b, 0);
    }
  }

  // ---- sorting is unique ----

  ghost predicate Totally<T(!new)>(before: (T, T) -> bool, s: seq<T>) {
    forall x, y :: x in s && y in s && x != y ==> before(x, y) || before(y, x)
  }

  lemma {:induction false} SortedIsUnique<T(!new)>(before: (T, T) -> bool, a: seq<T>, b: seq<T>)
    requires Sorted(before, a) && Sorted(before, b) && multiset(a) == multiset(b) && Totally(before, a)
    ensures a == b
  {
    SameElements(a, b);
    if a != [] {
      SameFirst(before, a, b);
      SameRest(a, b);
      TailFits(before, a);
      TailFits(before, b);
      hide Sorted, Totally;
      SortedIsUnique(before, a[1..], b[1..]);
      assert a == [a[0]] + a[1..] && b == [b[0]] + b[1..];
    }
  }

  lemma SameRest<T>(a: seq<T>, b: seq<T>)
    requires a != [] && b != [] && a[0] == b[0] && multiset(a) == multiset(b)
    ensures multiset(a[1..]) == multiset(b[1..])
  {
    assert a == [a[0]] + a[1..] && b == [b[0]] + b[1..];
    assert multiset(a[1..]) == multiset(a) - multiset{a[0]} && multiset(b[1..]) == multiset(b) - multiset{b[0]};
  }

  lemma TailFits<T(!new)>(before: (T, T) -> bool, s: seq<T>)
    requires s != [] && Sorted(before, s)
    ensures Sorted(before, s[1..])
    ensures Totally(before, s) ==> Totally(before, s[1..])
  {
  }

  lemma SameFirst<T(!new)>(before: (T, T) -> bool, a: seq<T>, b: seq<T>)
    requires a != [] && b != [] && (forall x :: x in a <==> x in b)
    requires Sorted(before, a) && Sorted(before, b) && Totally(before, a)
    ensures a[0] == b[0]
  {
    assert a[0] in a && b[0] in b;
    var i :| 0 <= i < |a| && a[i] == b[0];
    var j :| 0 <= j < |b| && b[j] == a[0];
    assert i > 0 ==> !before(b[0], a[0]);
    assert j > 0 ==> !before(a[0], b[0]);
  }

  lemma {:induction false} FilterOfMore<T(!new)>(keep: T -> bool, s: seq<T>)
    ensures forall x :: multiset(Filter(keep, s))[x] == if keep(x) then multiset(s)[x] else 0
  {
    if s != [] {
      FilterOfMore(keep, s[..|s| - 1]);
      assert s == s[..|s| - 1] + [s[|s| - 1]];
    }
  }

  lemma FilterIgnoresOrder<T(!new)>(keep: T -> bool, a: seq<T>, b: seq<T>)
    requires multiset(a) == multiset(b)
    ensures multiset(Filter(keep, a)) == multiset(Filter(keep, b))
  {
    FilterOfMore(keep, a);
    FilterOfMore(keep, b);
    hide Filter;
  }

  lemma DistinctIsTotal(points: seq<RawPoint>)
    requires DistinctEvents(points)
    ensures Totally(RawBefore, points)
  {
    hide IdBefore;
    forall p, q | p in points && q in points && p != q ensures RawBefore(p, q) || RawBefore(q, p) {
      IdsAreOrdered(p.eventId, q.eventId);
    }
  }

  // Sorting brings points with ids of their own into one order, however they come.
  lemma {:induction false} SortIgnoresOrder(a: seq<RawPoint>, b: seq<RawPoint>)
    requires multiset(a) == multiset(b) && DistinctEvents(a)
    ensures Sort(RawBefore, a) == Sort(RawBefore, b)
  {
    RawBeforeIsPreorder();
    SortSorts(RawBefore, a);
    SortSorts(RawBefore, b);
    DistinctIsTotal(a);
    SameElements(a, Sort(RawBefore, a));
    hide Sort, RawBefore, DistinctEvents;
    SortedIsUnique(RawBefore, Sort(RawBefore, a), Sort(RawBefore, b));
  }

  // ---- runs ----

  ghost predicate Alike(v: World, w: World) {
    && v.tables == w.tables && v.nextId == w.nextId
    && multiset(v.raw) == multiset(w.raw) && DistinctEvents(v.raw)
  }

  lemma {:induction false} FilterKeepsDistinct(keep: RawPoint -> bool, s: seq<RawPoint>)
    requires DistinctEvents(s)
    ensures DistinctEvents(Filter(keep, s)) && forall p :: p in Filter(keep, s) ==> p in s
  {
    if s != [] {
      var front, last := s[..|s| - 1], s[|s| - 1];
      FilterKeepsDistinct(keep, front);
      var kept := Filter(keep, front);
      forall i | 0 <= i < |kept| ensures kept[i].eventId != last.eventId {
        assert kept[i] in kept && kept[i] in front;
      }
      AppendKeepsDistinct(kept, last);
      assert s == front + [last];
    }
  }

  lemma AppendKeepsDistinct(s: seq<RawPoint>, p: RawPoint)
    requires DistinctEvents(s) && forall i :: 0 <= i < |s| ==> s[i].eventId != p.eventId
    ensures DistinctEvents(s + [p])
  {
  }

  lemma FetchIgnoresOrder(v: World, w: World, since: Time, to: Time)
    requires Alike(v, w)
    ensures FetchUnprocessed(v.raw, v.tables.processed, since, to)
            == FetchUnprocessed(w.raw, w.tables.processed, since, to)
  {
    var keep := (p: RawPoint) => Unprocessed(v.tables.processed, since, to, p);
    FilterIgnoresOrder(keep, v.raw, w.raw);
    FilterKeepsDistinct(keep, v.raw);
    hide Unprocessed, DistinctEvents, Filter, Sort;
    SortIgnoresOrder(Filter(keep, v.raw), Filter(keep, w.raw));
  }

  lemma CycleIgnoresOrder(job: Job, v: World, w: World, now: Time)
    requires Alike(v, w) && v.tables.state.WellFormed()
    ensures Cycle(job, v, now).tables == Cycle(job, w, now).tables
    ensures Cycle(job, v, now).nextId == Cycle(job, w, now).nextId
    ensures Cycle(job, v, now).raw == v.raw && Cycle(job, w, now).raw == w.raw
  {
    var st := v.tables.state;
    FetchIgnoresOrder(v, w, From(st, now), UpTo(st, now));
    hide FetchUnprocessed, Pipeline, FetchHistory, Outcome, BatchOf, Applied, UpTo, From, DistinctEvents;
  }

  lemma {:induction false} SameRawSameDue(job: Job, v: World, w: World, now: Time)
    requires Alike(v, w)
    ensures Selected(job, v, now) == Selected(job, w, now)
  {
    SameElements(v.raw, w.raw);
    hide DistinctEvents, HasEvent;
    DueSomewhere(job, v, w, now);
    DueSomewhere(job, w, v, now);
  }

  lemma DueSomewhere(job: Job, v: World, w: World, now: Time)
    requires v.tables == w.tables && (forall p :: p in v.raw ==> p in w.raw)
    ensures Selected(job, v, now) ==> Selected(job, w, now)
  {
    hide HasEvent;
    if Selected(job, v, now) {
      var i :| 0 <= i < |v.raw| && v.raw[i].recordedAt < now - Seconds(job.cfg.lateArrivalWindowSec)
               && !HasEvent(v.tables.processed, v.raw[i].eventId)
               && (v.tables.state.lastProcessedAt.Some? ==>
                     v.raw[i].recordedAt
                     >= v.tables.state.lastProcessedAt.value - Seconds(v.tables.state.lateArrivalWindowSec));
      assert v.raw[i] in w.raw;
      var k :| 0 <= k < |w.raw| && w.raw[k] == v.raw[i];
    }
  }

  lemma ArrivalKeepsAlike(v: World, w: World, p: RawPoint)
    requires Alike(v, w)
    ensures Alike(v.(raw := StoreRaw(v.raw, p)), w.(raw := StoreRaw(w.raw, p)))
  {
    SameElements(v.raw, w.raw);
    SameIds(v.raw, w.raw, p.eventId);
    SameIds(w.raw, v.raw, p.eventId);
    StoreKeepsDistinct(v.raw, p);
    hide DistinctEvents, HasRaw;
  }

  lemma SameIds(a: seq<RawPoint>, b: seq<RawPoint>, id: EventId)
    requires forall p :: p in a ==> p in b
    ensures HasRaw(a, id) ==> HasRaw(b, id)
  {
    if HasRaw(a, id) {
      var i :| 0 <= i < |a| && a[i].eventId == id;
      assert a[i] in b;
      var k :| 0 <= k < |b| && b[k] == a[i];
    }
  }

  lemma NextKeepsAlike(job: Job, v: World, w: World, e: Event)
    requires Alike(v, w) && v.tables.state.WellFormed()
    ensures Alike(JobRuns.Next(job, v, e), JobRuns.Next(job, w, e))
  {
    hide Cycle, Selected, DistinctEvents;
    match e {
      case Arrival(p) => ArrivalKeepsAlike(v, w, p);
      case Tick(now) =>
        SameRawSameDue(job, v, w, now);
        CycleIgnoresOrder(job, v, w, now);
    }
  }

  ghost predicate OnlyArrivals(x: seq<Event>) {
    && (forall e :: e in x ==> e.Arrival?)
    && (forall e, f :: e in x && f in x && e.Arrival? && f.Arrival? && e.point.eventId == f.point.eventId ==> e == f)
  }

  // What arrivals leave in the table: what was there, and of the others what had no row.
  lemma {:induction false} ArrivalsAre(job: Job, a: seq<Event>, x: seq<Event>)
    requires OnlyArrivals(x)
    ensures
      var before, after := After(job, a), After(job, a + x);
      && after.tables == before.tables && after.nextId == before.nextId
      && (forall p :: p in after.raw <==> p in before.raw || (Arrival(p) in x && !HasRaw(before.raw, p.eventId)))
  {
    if x == [] {
      assert a + x == a;
    } else {
      var front, e := x[..|x| - 1], x[|x| - 1];
      assert e in x && x == front + [e] && (forall f :: f in front ==> f in x);
      assert (a + x)[..|a + x| - 1] == a + front && (a + x)[|a + x| - 1] == e;
      ArrivalsAre(job, a, front);
      hide After;
      StoringOne(After(job, a).raw, After(job, a + front).raw, front, e.point);
    }
  }

  lemma StoringOne(before: seq<RawPoint>, raw: seq<RawPoint>, x: seq<Event>, p: RawPoint)
    requires forall q :: q in raw <==> q in before || (Arrival(q) in x && !HasRaw(before, q.eventId))
    requires OnlyArrivals(x + [Arrival(p)])
    ensures forall q :: q in StoreRaw(raw, p)
                    <==> q in before || (Arrival(q) in x + [Arrival(p)] && !HasRaw(before, q.eventId))
  {
    if HasRaw(raw, p.eventId) {
      var i :| 0 <= i < |raw| && raw[i].eventId == p.eventId;
      assert raw[i] in raw;
      if raw[i] in before {
        var k :| 0 <= k < |before| && before[k] == raw[i];
        assert HasRaw(before, p.eventId);
      } else {
        assert Arrival(raw[i]) in x + [Arrival(p)] && Arrival(p) in x + [Arrival(p)];
        assert raw[i] == p;
      }
    } else {
      assert !HasRaw(before, p.eventId) by {
        SameIds(before, raw, p.eventId);
      }
    }
  }

  lemma {:induction false} DistinctOnce(s: seq<RawPoint>)
    requires DistinctEvents(s)
    ensures forall p :: multiset(s)[p] == if p in s then 1 else 0
  {
    if s != [] {
      var front, last := s[..|s| - 1], s[|s| - 1];
      DistinctOnce(front);
      assert s == front + [last] && last !in front;
    }
  }

  lemma SameMembersSameMultiset(a: seq<RawPoint>, b: seq<RawPoint>)
    requires DistinctEvents(a) && DistinctEvents(b) && forall p :: p in a <==> p in b
    ensures multiset(a) == multiset(b)
  {
    DistinctOnce(a);
    DistinctOnce(b);
    hide DistinctEvents;
    forall p ensures multiset(a)[p] == multiset(b)[p] {
    }
  }

  lemma RawIsDistinct(job: Job, events: seq<Event>)
    requires Sane(job)
    ensures DistinctEvents(After(job, events).raw)
  {
    RunsKeep(job, events);
    hide After, BookAfter, DistinctEvents;
  }

  lemma SwappedIsAlike(job: Job, a: seq<Event>, x: seq<Event>, y: seq<Event>)
    requires Sane(job) && OnlyArrivals(x) && multiset(x) == multiset(y)
    ensures Alike(After(job, a + x), After(job, a + y))
  {
    SameElements(x, y);
    hide After, DistinctEvents, HasRaw;
    ArrivalsAre(job, a, x);
    ArrivalsAre(job, a, y);
    RawIsDistinct(job, a + x);
    RawIsDistinct(job, a + y);
    SameMembersSameMultiset(After(job, a + x).raw, After(job, a + y).raw);
  }

  // Over every run: the order in which points arrive between two ticks changes nothing that is
  // ever stored.
  lemma {:induction false} ArrivalOrderDoesNotMatter(job: Job, a: seq<Event>, x: seq<Event>, y: seq<Event>,
                                                     b: seq<Event>)
    requires Sane(job) && OnlyArrivals(x) && multiset(x) == multiset(y)
    ensures Alike(After(job, a + x + b), After(job, a + y + b))
    ensures After(job, a + x + b).tables == After(job, a + y + b).tables
  {
    if b == [] {
      assert a + x + b == a + x && a + y + b == a + y;
      SwappedIsAlike(job, a, x, y);
    } else {
      var front, e := b[..|b| - 1], b[|b| - 1];
      assert b == front + [e];
      ArrivalOrderDoesNotMatter(job, a, x, y, front);
      OneMore(job, a + x, front, e);
      OneMore(job, a + y, front, e);
      hide After, Alike, JobRuns.Next;
      NextKeepsAlike(job, After(job, a + x + front), After(job, a + y + front), e);
      AlikeIsSame(After(job, a + x + b), After(job, a + y + b));
    }
  }

  lemma OneMore(job: Job, a: seq<Event>, front: seq<Event>, e: Event)
    ensures After(job, a + front).tables.state.WellFormed()
    ensures After(job, a + (front + [e])) == JobRuns.Next(job, After(job, a + front), e)
  {
    hide JobRuns.Next;
    var all := a + (front + [e]);
    assert all[..|all| - 1] == a + front && all[|all| - 1] == e;
  }

  lemma AlikeIsSame(v: World, w: World)
    requires Alike(v, w)
    ensures v.tables == w.tables
  {
  }
}
