// When a row of the trips table appears, and that it stays: over any run the tick at which a
// trip first appears is the one its row names, and no later event removes or redates it.
module TripCreation {
  import opened Domain
  import opened Sorting
  import opened TripDetection
  import opened TripRefinement
  import opened TripRows
  import opened Ledger
  import opened TrackingJob
  import opened JobRuns
  import opened TripLife

  // Rows only get more, keep when they were created, and are created now.
  ghost predicate RowsGrow(before: TripTable, after: TripTable, now: Time) {
    && (forall id :: id in before ==> id in after && after[id].createdAt == before[id].createdAt)
    && (forall id :: id in after && id !in before ==> after[id].createdAt == now)
  }

  lemma ObservingGrows(env: Env, t: Tracker, p: ProcessedPoint)
    requires t.st.WellFormed()
    ensures RowsGrow(t.rows, Observe(env, t, p).rows, env.now)
  {
  }

  lemma GrowthAdds(a: TripTable, b: TripTable, c: TripTable, now: Time)
    requires RowsGrow(a, b, now) && RowsGrow(b, c, now)
    ensures RowsGrow(a, c, now)
  {
  }

  lemma {:induction false} ObservingAllGrows(env: Env, t: Tracker, points: seq<ProcessedPoint>)
    requires t.st.WellFormed()
    ensures RowsGrow(t.rows, ObserveAll(env, t, points).rows, env.now)
  {
    hide Observe, RowsGrow;
    if points == [] {
      NothingGrows(t.rows, env.now);
    } else {
      var front := points[..|points| - 1];
      ObservingAllGrows(env, t, front);
      ObservingGrows(env, ObserveAll(env, t, front), points[|points| - 1]);
      GrowthAdds(t.rows, ObserveAll(env, t, front).rows, ObserveAll(env, t, points).rows, env.now);
    }
  }

  lemma NothingGrows(rows: TripTable, now: Time)
    ensures RowsGrow(rows, rows, now)
  {
  }

  lemma BookGrows(job: Job, w: World, b: Book, e: Event)
    requires b.tracker.st.WellFormed()
    ensures RowsGrow(b.tracker.rows, BookNext(job, w, b, e).tracker.rows, if e.Tick? then e.now else 0)
    ensures e.Arrival? ==> BookNext(job, w, b, e) == b
  {
    hide RowsGrow, ObserveAll, EnterAll, Cleaned, Selected, UpTo, From;
    NothingGrows(b.tracker.rows, if e.Tick? then e.now else 0);
    if e.Tick? {
      ObservingAllGrows(job.EnvAt(e.now), b.tracker, Cleaned(job, w, e.now).accepted);
    }
  }

  lemma TripsAreBooked(job: Job, events: seq<Event>)
    requires Sane(job)
    ensures After(job, events).tables.trips == BookAfter(job, events).tracker.rows
  {
    RunsKeep(job, events);
    KeptParts(job, After(job, events), BookAfter(job, events));
  }

  // Over every run: one more event removes no trip and redates none; only a tick adds any, and
  // they are created at that tick.
  lemma {:induction false} OneMoreEventGrows(job: Job, events: seq<Event>, e: Event)
    requires Sane(job)
    ensures
      var before, after := After(job, events).tables.trips, After(job, events + [e]).tables.trips;
      && RowsGrow(before, after, if e.Tick? then e.now else 0)
      && (e.Arrival? ==> after == before)
  {
    TripsAreBooked(job, events);
    TripsAreBooked(job, events + [e]);
    assert (events + [e])[..|events|] == events;
    BookGrows(job, After(job, events), BookAfter(job, events), e);
    hide After, BookNext, RowsGrow;
  }

  // Over every run: a trip that first appears with an event names that tick for ever after.
  lemma {:induction false} TripsAreStampedOnce(job: Job, events: seq<Event>, n: nat, id: TripId)
    requires Sane(job) && n < |events|
    requires id !in After(job, events[..n]).tables.trips && id in After(job, events[..n + 1]).tables.trips
    ensures id in After(job, events).tables.trips
    ensures events[n] == Tick(After(job, events).tables.trips[id].createdAt)
  {
    hide After;
    var front, e := events[..|events| - 1], events[|events| - 1];
    assert events == front + [e];
    OneMoreEventGrows(job, front, e);
    if n < |front| {
      assert front[..n] == events[..n] && front[..n + 1] == events[..n + 1];
      TripsAreStampedOnce(job, front, n, id);
    } else {
      assert events[..n] == front && events[..n + 1] == events;
    }
  }
}
