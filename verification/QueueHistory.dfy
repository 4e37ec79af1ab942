// What becomes of one row of the phone's queue over any list of queued updates, and what a
// retry and a cleanup do to it afterwards.
module QueueHistory {
  import opened Domain
  import opened Ingestion
  import opened PhoneQueue

  predicate Names(t: Task, id: EventId) {
    match t
    case AckTask(ids, _) => id in ids
    case FailTask(failed, _, _) => id == failed
    case ReturnTask(ids, _) => id in ids
    case SettleTask => false
  }

  function ReturnsOf(tasks: seq<Task>, id: EventId): seq<Task> {
    Filter((t: Task) => t.ReturnTask? && Names(t, id), tasks)
  }

  // What a row says after the last update that named it.
  predicate SaysWhat(row: QueuedPoint, t: Task) {
    match t
    case AckTask(_, at) => row.status == Acked && row.updatedAt == at
    case FailTask(_, reason, at) => row.status == Failed && row.updatedAt == at && row.lastError == Some(reason)
    case ReturnTask(_, at) => row.status == Pending && row.updatedAt == at
    case SettleTask => true
  }

  lemma OneTask(p: Phone, t: Task, k: nat)
    requires k < |p.rows|
    ensures
      var was, rows := p.rows[k], RunTask(p, t).rows;
      && |rows| == |p.rows| && rows[k].event == was.event && rows[k].createdAt == was.createdAt
      && (if Names(t, was.Id()) then SaysWhat(rows[k], t) else rows[k] == was)
      && rows[k].attempts == was.attempts + if t.ReturnTask? && Names(t, was.Id()) then 1 else 0
  {
  }

  // No update changes what a row is about.
  lemma {:induction false} UpdatesKeepPoints(p: Phone, tasks: seq<Task>, k: nat)
    requires k < |p.rows|
    ensures |RunTasks(p, tasks).rows| == |p.rows|
    ensures RunTasks(p, tasks).rows[k].event == p.rows[k].event
    ensures RunTasks(p, tasks).rows[k].createdAt == p.rows[k].createdAt
  {
    hide RunTask, SaysWhat, Names;
    if tasks != [] {
      UpdatesKeepPoints(p, tasks[..|tasks| - 1], k);
      OneTask(RunTasks(p, tasks[..|tasks| - 1]), tasks[|tasks| - 1], k);
    }
  }

  // Over any list of updates, the last one that names a row decides its status, time and reason.
  lemma {:induction false} LastUpdateDecides(p: Phone, tasks: seq<Task>, k: nat, n: nat)
    requires k < |p.rows| && n < |tasks| && Names(tasks[n], p.rows[k].Id())
    requires forall m :: n < m < |tasks| ==> !Names(tasks[m], p.rows[k].Id())
    ensures |RunTasks(p, tasks).rows| == |p.rows| && SaysWhat(RunTasks(p, tasks).rows[k], tasks[n])
  {
    hide RunTask, SaysWhat, Names;
    var front := tasks[..|tasks| - 1];
    UpdatesKeepPoints(p, front, k);
    OneTask(RunTasks(p, front), tasks[|tasks| - 1], k);
    if n < |front| {
      LastUpdateDecides(p, front, k, n);
    }
  }

  // A row that no update names stays as it was.
  lemma {:induction false} UnnamedStays(p: Phone, tasks: seq<Task>, k: nat)
    requires k < |p.rows| && forall m :: 0 <= m < |tasks| ==> !Names(tasks[m], p.rows[k].Id())
    ensures |RunTasks(p, tasks).rows| == |p.rows| && RunTasks(p, tasks).rows[k] == p.rows[k]
  {
    hide RunTask, SaysWhat, Names;
    if tasks != [] {
      UnnamedStays(p, tasks[..|tasks| - 1], k);
      OneTask(RunTasks(p, tasks[..|tasks| - 1]), tasks[|tasks| - 1], k);
    }
  }

  // A row counts how often it was sent in vain: the updates that returned it to the queue.
  lemma {:induction false} AttemptsAreCounted(p: Phone, tasks: seq<Task>, k: nat)
    requires k < |p.rows|
    ensures |RunTasks(p, tasks).rows| == |p.rows| && RunTasks(p, tasks).rows[k].event == p.rows[k].event
    ensures RunTasks(p, tasks).rows[k].attempts == p.rows[k].attempts + |ReturnsOf(tasks, p.rows[k].Id())|
  {
    hide RunTask, SaysWhat, Names;
    if tasks != [] {
      AttemptsAreCounted(p, tasks[..|tasks| - 1], k);
      OneTask(RunTasks(p, tasks[..|tasks| - 1]), tasks[|tasks| - 1], k);
    }
  }

  // An answer that settles a point at a time lets a cleanup remove it as soon as the cutoff is
  // past that time, and never one that is still pending or has failed.
  lemma {:induction false} SettledPointsExpire(p: Phone, settled: seq<EventId>, rejected: seq<Rejection>, now: Time,
                                               cutoff: Time, k: nat)
    requires k < |p.rows| && p.rows[k].Id() in settled && !Rejects(rejected, p.rows[k].Id())
    ensures
      var rows := RunTasks(p, AckTasks(settled, rejected, now)).rows;
      && |rows| == |p.rows| && (rows[k] in CleanupOld(rows, cutoff) <==> cutoff <= now)
      && (forall row :: row in rows && row.status != Acked ==> row in CleanupOld(rows, cutoff))
  {
    var tasks, id := AckTasks(settled, rejected, now), p.rows[k].Id();
    assert tasks[0] == AckTask(settled, now);
    forall m | 0 < m < |tasks| ensures !Names(tasks[m], id) {
      if m <= |rejected| {
        assert tasks[m] == FailTask(rejected[m - 1].eventId, rejected[m - 1].reason, now);
      }
    }
    LastUpdateDecides(p, tasks, k, 0);
    hide RunTasks, AckTasks;
  }

  // What older builds called a standstill, a bicycle and a vehicle.
  const LEGACY_NAMES: map<string, string> :=
    map["still" := "stationary", "on_bicycle" := "bicycle", "in_vehicle" := "vehicle"]

  // A failed point is tried again from the start, and the gateway takes it then if it would
  // have taken it before, or if nothing but a legacy activity name spoke against it.
  lemma {:induction false} RetryRepairsLegacyNames(rows: seq<QueuedPoint>, now: Time, k: nat)
    requires k < |rows| && rows[k].status == Failed && rows[k].event.recordedAt.Some?
    ensures
      var was, row := rows[k].event, RetryFailed(rows, now)[k];
      && row.status == Pending && row.attempts == 0 && row.lastError.None? && row.updatedAt == now
      && row.Id() == was.eventId && row.event.recordedAt == was.recordedAt && row.event.position == was.position
      && (ValidateLocationEvent(EventOf(row.event)) == ""
          <==> ValidateLocationEvent(EventOf(was).(activityType := None)) == ""
               && (was.activityType.Some? ==>
                     was.activityType.value in VALID_ACTIVITY_TYPES || was.activityType.value in LEGACY_NAMES))
      && (was.activityType.Some? && was.activityType.value in LEGACY_NAMES ==>
            row.event.activityType == Some(LEGACY_NAMES[was.activityType.value]))
  {
    assert RetryFailed(rows, now)[k] == RetriedOne(rows[k], now);
  }
}
