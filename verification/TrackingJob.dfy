// The tracking worker's cycle for one (user, device) pair: load the state, fetch what is not
// processed yet, run the noise pipeline and the trip detector, save (usecase/trip_detection_job.go).
module TrackingJob {
  import opened Domain
  import opened Sorting
  import Noise
  import opened TripDetection
  import opened TripRows
  import opened Storage
  import opened SavedCycle

  // What the job is configured with.
  datatype Job = Job(setup: Noise.Setup, cfg: DetectionConfig)
  {
    function EnvAt(now: Time): Env {
      Env(cfg, setup.dist, now)
    }
  }

  // raw_location_points, the worker's own tables, and the supply of trip identifiers.
  datatype World = World(raw: seq<RawPoint>, tables: Tables, nextId: TripId)

  const EMPTY_WORLD := World([], Tables([], map[], map[], INITIAL_STATE), 1)

  const MAX_LOOKBACK: int := 24 * 3600 * SECOND

  const HISTORY_LIMIT: nat := 100

  function UpTo(st: DetectionState, now: Time): Time {
    now - Seconds(st.lateArrivalWindowSec)
  }

  function From(st: DetectionState, now: Time): Time {
    if st.lastProcessedAt.Some? then st.lastProcessedAt.value - Seconds(st.lateArrivalWindowSec)
    else UpTo(st, now) - MAX_LOOKBACK
  }

  predicate HasRaw(raw: seq<RawPoint>, id: EventId) {
    exists i :: 0 <= i < |raw| && raw[i].eventId == id
  }

  // ON CONFLICT (user_id, device_id, event_id) DO NOTHING
  function StoreRaw(raw: seq<RawPoint>, p: RawPoint): seq<RawPoint> {
    if HasRaw(raw, p.eventId) then raw else raw + [p]
  }

  predicate Unprocessed(processed: seq<ProcessedPoint>, since: Time, to: Time, p: RawPoint) {
    since <= p.recordedAt < to && !HasEvent(processed, p.eventId)
  }

  function Pending(raw: seq<RawPoint>, processed: seq<ProcessedPoint>, since: Time, to: Time): seq<RawPoint> {
    Filter((p: RawPoint) => Unprocessed(processed, since, to, p), raw)
  }

  function FetchUnprocessed(raw: seq<RawPoint>, processed: seq<ProcessedPoint>, since: Time, to: Time): seq<RawPoint> {
    Sort(Noise.RawBefore, Pending(raw, processed, since, to))
  }

  predicate ProcessedBefore(p: ProcessedPoint, q: ProcessedPoint) {
    if p.recordedAt == q.recordedAt then Noise.IdBefore(p.eventId, q.eventId) else p.recordedAt < q.recordedAt
  }

  function LastOf<T>(s: seq<T>, limit: nat): seq<T> {
    if |s| <= limit then s else s[|s| - limit..]
  }

  function FetchHistory(processed: seq<ProcessedPoint>, to: Time): seq<ProcessedPoint> {
    LastOf(Sort(ProcessedBefore, Filter((p: ProcessedPoint) => p.isAccepted && p.recordedAt < to, processed)),
        HISTORY_LIMIT)
  }

  // What the noise pipeline makes of a cycle's points.
  function Cleaned(job: Job, w: World, now: Time): Noise.Progress {
    var st := w.tables.state;
    Noise.Pipeline(job.setup, FetchHistory(w.tables.processed, UpTo(st, now)),
              FetchUnprocessed(w.raw, w.tables.processed, From(st, now), UpTo(st, now)), st.lastProcessedAt)
  }

  function Cycle(job: Job, w: World, now: Time): World
    requires w.tables.state.WellFormed()
  {
    var st := w.tables.state;
    if UpTo(st, now) <= From(st, now) then w
    else
      var g := Cleaned(job, w, now);
      var outcome := Outcome(job.EnvAt(now), st, w.nextId, g.accepted);
      var batch := BatchOf(outcome.newState, outcome.commands).(processedPoints := g.processed);
      w.(tables := Applied(w.tables, batch), nextId := outcome.nextId)
  }

  // LoadDistinctUserDevicePairs selects the pair when some unprocessed point is old enough.
  predicate Selected(job: Job, w: World, now: Time) {
    var st := w.tables.state;
    exists i :: 0 <= i < |w.raw|
      && w.raw[i].recordedAt < now - Seconds(job.cfg.lateArrivalWindowSec)
      && !HasEvent(w.tables.processed, w.raw[i].eventId)
      && (st.lastProcessedAt.Some? ==>
            w.raw[i].recordedAt >= st.lastProcessedAt.value - Seconds(st.lateArrivalWindowSec))
  }

  function RunOnce(job: Job, w: World, now: Time): World
    requires w.tables.state.WellFormed()
  {
    if Selected(job, w, now) then Cycle(job, w, now) else w
  }

  // The repository and the job around it.
  class Worker {
    const job: Job
    const store: TripStore
    var raw: seq<RawPoint>
    var nextId: TripId

    ghost function State(): World
      reads this, store
    {
      World(raw, store.Contents(), nextId)
    }

    constructor (job: Job)
      ensures this.job == job && fresh(store) && State() == EMPTY_WORLD
    {
      this.job := job;
      store := new TripStore();
      raw, nextId := [], 1;
    }

    method Insert(p: RawPoint)
      modifies `raw
      ensures State() == old(State()).(raw := StoreRaw(old(raw), p))
    {
      if !HasRaw(raw, p.eventId) {
        raw := raw + [p];
      }
    }

    method FetchUnprocessedPoints(since: Time, to: Time) returns (points: seq<RawPoint>)
      ensures points == FetchUnprocessed(raw, store.processed, since, to)
    {
      var found: seq<RawPoint> := [];
      for i := 0 to |raw|
        invariant found == Pending(raw[..i], store.processed, since, to)
      {
        assert raw[..i + 1][..i] == raw[..i];
        if since <= raw[i].recordedAt < to && !HasEvent(store.processed, raw[i].eventId) {
          found := found + [raw[i]];
        }
      }
      assert raw[..|raw|] == raw;
      points := Sort(Noise.RawBefore, found);
    }

    method ProcessPair(now: Time)
      requires store.state.WellFormed()
      modifies this, store
      ensures State() == Cycle(job, old(State()), now)
    {
      hide Outcome, Applied, BatchOf, Noise.Pipeline, FetchHistory, FetchUnprocessed;
      var st := store.state;
      var to := now - Seconds(st.lateArrivalWindowSec);
      var since := to - MAX_LOOKBACK;
      if st.lastProcessedAt.Some? {
        since := st.lastProcessedAt.value - Seconds(st.lateArrivalWindowSec);
      }
      if to <= since {
        return;
      }
      var points := FetchUnprocessedPoints(since, to);
      var history := FetchHistory(store.processed, to);
      var processed, accepted := Noise.ProcessBatch(job.setup, history, points, st.lastProcessedAt);
      var result := TripDetection.ProcessBatch(job.EnvAt(now), st, accepted, nextId);
      var batch := BuildBatch(result);
      batch := batch.(processedPoints := processed);
      store.ApplyBatch(batch);
      nextId := result.nextId;
    }
  }
}
