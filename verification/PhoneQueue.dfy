// The phone's location queue (LocationQueue.kt) and the sender that drains it
// (BatchSender.kt). Database calls are launched as coroutines, so what an acknowledgement or a
// lost connection does to the queue is a list of tasks that run later.
module PhoneQueue {
  import opened Domain
  import opened Sorting
  import opened Ingestion

  datatype Status = Pending | Acked | Failed

  datatype QueuedPoint = QueuedPoint(
    event: WireEvent,
    status: Status,
    attempts: nat,
    lastError: Option<string>,
    createdAt: Time,
    updatedAt: Time)
  {
    function Id(): EventId {
      event.eventId
    }
  }

  const BATCH_SIZE: nat := 20

  // ---- the queries of the data access object ----

  predicate HasPoint(rows: seq<QueuedPoint>, id: EventId) {
    exists i :: 0 <= i < |rows| && rows[i].Id() == id
  }

  // OnConflictStrategy.IGNORE
  function InsertPoint(rows: seq<QueuedPoint>, p: QueuedPoint): seq<QueuedPoint> {
    if HasPoint(rows, p.Id()) then rows else rows + [p]
  }

  predicate CreatedBefore(p: QueuedPoint, q: QueuedPoint) {
    p.createdAt < q.createdAt
  }

  function Take<T>(s: seq<T>, limit: nat): seq<T> {
    if |s| <= limit then s else s[..limit]
  }

  function PendingByAge(rows: seq<QueuedPoint>): seq<QueuedPoint> {
    Sort(CreatedBefore, Filter((p: QueuedPoint) => p.status == Pending, rows))
  }

  function GetPending(rows: seq<QueuedPoint>, limit: nat): seq<QueuedPoint> {
    Take(PendingByAge(rows), limit)
  }

  function Update(rows: seq<QueuedPoint>, change: QueuedPoint -> QueuedPoint): seq<QueuedPoint> {
    seq(|rows|, i requires 0 <= i < |rows| => change(rows[i]))
  }

  function AckedOne(p: QueuedPoint, ids: seq<EventId>, now: Time): QueuedPoint {
    if p.Id() in ids then p.(status := Acked, updatedAt := now) else p
  }

  function MarkAcked(rows: seq<QueuedPoint>, ids: seq<EventId>, now: Time): seq<QueuedPoint> {
    Update(rows, (p: QueuedPoint) => AckedOne(p, ids, now))
  }

  function ReturnedOne(p: QueuedPoint, ids: seq<EventId>, now: Time): QueuedPoint {
    if p.Id() in ids then p.(status := Pending, attempts := p.attempts + 1, updatedAt := now) else p
  }

  function ReturnToPending(rows: seq<QueuedPoint>, ids: seq<EventId>, now: Time): seq<QueuedPoint> {
    Update(rows, (p: QueuedPoint) => ReturnedOne(p, ids, now))
  }

  function FailedOne(p: QueuedPoint, id: EventId, reason: string, now: Time): QueuedPoint {
    if p.Id() == id then p.(status := Failed, lastError := Some(reason), updatedAt := now) else p
  }

  function MarkFailed(rows: seq<QueuedPoint>, id: EventId, reason: string, now: Time): seq<QueuedPoint> {
    Update(rows, (p: QueuedPoint) => FailedOne(p, id, reason, now))
  }

  // Legacy wire names that older builds wrote.
  function Normalised(activity: Option<string>): Option<string> {
    if activity == Some("still") then Some("stationary")
    else if activity == Some("on_bicycle") then Some("bicycle")
    else if activity == Some("in_vehicle") then Some("vehicle")
    else activity
  }

  function RetriedOne(p: QueuedPoint, now: Time): QueuedPoint {
    if p.status == Failed then
      p.(status := Pending, attempts := 0, lastError := None, updatedAt := now,
         event := p.event.(activityType := Normalised(p.event.activityType)))
    else p
  }

  function RetryFailed(rows: seq<QueuedPoint>, now: Time): seq<QueuedPoint> {
    Update(rows, (p: QueuedPoint) => RetriedOne(p, now))
  }

  predicate Expired(p: QueuedPoint, cutoff: Time) {
    p.status == Acked && p.updatedAt < cutoff
  }

  function CleanupOld(rows: seq<QueuedPoint>, cutoff: Time): seq<QueuedPoint> {
    Filter((p: QueuedPoint) => !Expired(p, cutoff), rows)
  }

  function ClearFailed(rows: seq<QueuedPoint>): seq<QueuedPoint> {
    Filter((p: QueuedPoint) => p.status != Failed, rows)
  }

  // ---- the sender ----

  // session is the owner under which the gateway accepted the current connection, if it did.
  datatype Phone = Phone(rows: seq<QueuedPoint>, inflight: seq<EventId>, session: Option<Owner>)

  datatype Task =
    | AckTask(ids: seq<EventId>, at: Time)
    | FailTask(id: EventId, reason: string, at: Time)
    | ReturnTask(ids: seq<EventId>, at: Time)
    | SettleTask

  function RunTask(p: Phone, t: Task): Phone {
    match t
    case AckTask(ids, at) => p.(rows := MarkAcked(p.rows, ids, at))
    case FailTask(id, reason, at) => p.(rows := MarkFailed(p.rows, id, reason, at))
    case ReturnTask(ids, at) => p.(rows := ReturnToPending(p.rows, ids, at))
    case SettleTask => p.(inflight := [])
  }

  function RunTasks(p: Phone, tasks: seq<Task>): Phone {
    if tasks == [] then p else RunTask(RunTasks(p, tasks[..|tasks| - 1]), tasks[|tasks| - 1])
  }

  lemma RunOneMore(p: Phone, tasks: seq<Task>, t: Task)
    ensures RunTasks(p, tasks + [t]) == RunTask(RunTasks(p, tasks), t)
  {
    assert (tasks + [t])[..|tasks|] == tasks;
  }

  predicate Rejects(rejected: seq<Rejection>, id: EventId) {
    exists i :: 0 <= i < |rejected| && rejected[i].eventId == id
  }

  function FailTasks(rejected: seq<Rejection>, now: Time): seq<Task> {
    seq(|rejected|, i requires 0 <= i < |rejected| => FailTask(rejected[i].eventId, rejected[i].reason, now))
  }

  // What one acknowledgement sets in motion, in this order.
  function AckTasks(settled: seq<EventId>, rejected: seq<Rejection>, now: Time): seq<Task> {
    (if settled == [] then [] else [AckTask(settled, now)]) + FailTasks(rejected, now) + [SettleTask]
  }

  // What an acknowledgement does to one row: rejection wins over acceptance.
  predicate SettledBy(was: QueuedPoint, now: QueuedPoint, settled: seq<EventId>, rejected: seq<Rejection>) {
    && now.event == was.event
    && if Rejects(rejected, was.Id()) then now.status == Failed
       else if was.Id() in settled then now.status == Acked
       else now == was
  }

  lemma {:induction false} RejectionsFail(p: Phone, tasks: seq<Task>, settled: seq<EventId>, rejected: seq<Rejection>,
                                          now: Time)
    requires tasks == if settled == [] then [] else [AckTask(settled, now)]
    ensures
      var after := RunTasks(p, tasks + FailTasks(rejected, now));
      && |after.rows| == |p.rows| && after.session == p.session
      && forall k :: 0 <= k < |p.rows| ==> SettledBy(p.rows[k], after.rows[k], settled, rejected)
  {
    hide RunTasks, FailTasks, MarkAcked, MarkFailed, SettledBy;
    if rejected == [] {
      NothingFails(p, tasks, settled, now);
    } else {
      var front, r := rejected[..|rejected| - 1], rejected[|rejected| - 1];
      RejectionsFail(p, tasks, settled, front, now);
      RunOneMore(p, tasks + FailTasks(front, now), FailTask(r.eventId, r.reason, now));
      FailTasksGrow(tasks, rejected, now);
      var before := RunTasks(p, tasks + FailTasks(front, now));
      OneMoreFails(p.rows, before.rows, settled, rejected, now);
    }
  }

  lemma FailTasksGrow(tasks: seq<Task>, rejected: seq<Rejection>, now: Time)
    requires rejected != []
    ensures
      var front, r := rejected[..|rejected| - 1], rejected[|rejected| - 1];
      tasks + FailTasks(rejected, now) == tasks + FailTasks(front, now) + [FailTask(r.eventId, r.reason, now)]
  {
  }

  lemma NothingFails(p: Phone, tasks: seq<Task>, settled: seq<EventId>, now: Time)
    requires tasks == if settled == [] then [] else [AckTask(settled, now)]
    ensures
      var after := RunTasks(p, tasks + FailTasks([], now));
      && |after.rows| == |p.rows| && after.session == p.session
      && forall k :: 0 <= k < |p.rows| ==> SettledBy(p.rows[k], after.rows[k], settled, [])
  {
    hide RunTasks;
    assert tasks + FailTasks([], now) == tasks;
    RunNone(p);
    if settled != [] {
      RunOneMore(p, [], AckTask(settled, now));
      assert [] + tasks == tasks;
    }
  }

  lemma RunNone(p: Phone)
    ensures RunTasks(p, []) == p
  {
  }

  lemma OneMoreFails(rows: seq<QueuedPoint>, before: seq<QueuedPoint>, settled: seq<EventId>, rejected: seq<Rejection>,
                     now: Time)
    requires rejected != [] && |before| == |rows|
    requires forall k :: 0 <= k < |rows| ==> SettledBy(rows[k], before[k], settled, rejected[..|rejected| - 1])
    ensures
      var r := rejected[|rejected| - 1];
      var after := MarkFailed(before, r.eventId, r.reason, now);
      |after| == |rows| && forall k :: 0 <= k < |rows| ==> SettledBy(rows[k], after[k], settled, rejected)
  {
    var front, r := rejected[..|rejected| - 1], rejected[|rejected| - 1];
    forall id ensures Rejects(rejected, id) <==> Rejects(front, id) || id == r.eventId {
      if Rejects(front, id) {
        var i :| 0 <= i < |front| && front[i].eventId == id;
        assert rejected[i].eventId == id;
      }
      if id == r.eventId {
        assert rejected[|rejected| - 1].eventId == id;
      }
    }
    hide Rejects;
  }

  // The tasks of one acknowledgement fail exactly the rejected points, acknowledge exactly the
  // settled ones among the others, leave every other row alone, and end the flight.
  lemma {:induction false} AckSettles(p: Phone, settled: seq<EventId>, rejected: seq<Rejection>, now: Time)
    ensures
      var after := RunTasks(p, AckTasks(settled, rejected, now));
      && after.inflight == [] && after.session == p.session && |after.rows| == |p.rows|
      && forall k :: 0 <= k < |p.rows| ==> SettledBy(p.rows[k], after.rows[k], settled, rejected)
  {
    hide RunTasks, FailTasks, AckTasks, SettledBy;
    var tasks := if settled == [] then [] else [AckTask(settled, now)];
    RejectionsFail(p, tasks, settled, rejected, now);
    RunOneMore(p, tasks + FailTasks(rejected, now), SettleTask);
    AckTasksAre(settled, rejected, now);
  }

  lemma AckTasksAre(settled: seq<EventId>, rejected: seq<Rejection>, now: Time)
    ensures AckTasks(settled, rejected, now)
            == (if settled == [] then [] else [AckTask(settled, now)]) + FailTasks(rejected, now) + [SettleTask]
  {
    hide FailTasks;
  }

  // The acceptances and the first rejections.
  function AckTasksUpTo(settled: seq<EventId>, rejected: seq<Rejection>, now: Time, i: nat): seq<Task>
    requires i <= |rejected|
  {
    (if settled == [] then [] else [AckTask(settled, now)]) + FailTasks(rejected[..i], now)
  }

  lemma AckIsFirst(p: Phone, settled: seq<EventId>, rejected: seq<Rejection>, now: Time)
    ensures RunTasks(p, AckTasksUpTo(settled, rejected, now, 0))
            == if settled == [] then p else RunTask(p, AckTask(settled, now))
  {
    hide RunTasks, RunTask;
    RunNone(p);
    if settled == [] {
      assert AckTasksUpTo(settled, rejected, now, 0) == [];
    } else {
      RunOneMore(p, [], AckTask(settled, now));
      assert AckTasksUpTo(settled, rejected, now, 0) == [] + [AckTask(settled, now)];
    }
  }

  lemma FailureIsNext(p: Phone, settled: seq<EventId>, rejected: seq<Rejection>, now: Time, i: nat)
    requires i < |rejected|
    ensures RunTasks(p, AckTasksUpTo(settled, rejected, now, i + 1))
            == RunTask(RunTasks(p, AckTasksUpTo(settled, rejected, now, i)),
                       FailTask(rejected[i].eventId, rejected[i].reason, now))
  {
    hide RunTasks, RunTask;
    var failing := FailTask(rejected[i].eventId, rejected[i].reason, now);
    RunOneMore(p, AckTasksUpTo(settled, rejected, now, i), failing);
    assert AckTasksUpTo(settled, rejected, now, i + 1) == AckTasksUpTo(settled, rejected, now, i) + [failing];
  }

  lemma SettlingIsLast(p: Phone, settled: seq<EventId>, rejected: seq<Rejection>, now: Time)
    ensures RunTasks(p, AckTasks(settled, rejected, now))
            == RunTask(RunTasks(p, AckTasksUpTo(settled, rejected, now, |rejected|)), SettleTask)
  {
    hide RunTasks, RunTask;
    RunOneMore(p, AckTasksUpTo(settled, rejected, now, |rejected|), SettleTask);
    assert rejected[..|rejected|] == rejected;
  }

  function ReturnTasks(p: Phone, now: Time): seq<Task> {
    if p.inflight == [] then [] else [ReturnTask(p.inflight, now)]
  }

  function EventsOf(points: seq<QueuedPoint>): seq<WireEvent> {
    seq(|points|, i requires 0 <= i < |points| => points[i].event)
  }

  function IdsOf(points: seq<QueuedPoint>): seq<EventId> {
    seq(|points|, i requires 0 <= i < |points| => points[i].Id())
  }

  // The two checks a send begins with.
  predicate MaySend(p: Phone) {
    p.session.Some? && p.inflight == []
  }

  // A send on its way: past the checks, with the points it read, or with these noted as in
  // flight. It may be suspended between any two of these, and other sends may overtake it.
  datatype Sender = Checked | Loaded(points: seq<QueuedPoint>) | Claimed(points: seq<QueuedPoint>)

  // What is read are the oldest pending points, as many as the limit allows.
  lemma {:induction false} OldestArePicked(rows: seq<QueuedPoint>, limit: nat)
    ensures
      var picked := GetPending(rows, limit);
      && |picked| <= limit
      && (forall p :: p in picked ==> p in rows && p.status == Pending)
      && ByAge(picked)
      && (forall p :: p in rows && p.status == Pending && p !in picked ==>
            |picked| == limit && forall q :: q in picked ==> q.createdAt <= p.createdAt)
  {
    hide Take, PendingByAge, ByAge;
    PendingByAgeIs(rows);
    FrontIsOldest(PendingByAge(rows), limit);
  }

  lemma PendingByAgeIs(rows: seq<QueuedPoint>)
    ensures forall p :: p in PendingByAge(rows) <==> p in rows && p.status == Pending
    ensures ByAge(PendingByAge(rows))
  {
    var pending := Filter((p: QueuedPoint) => p.status == Pending, rows);
    var sorted := Sort(CreatedBefore, pending);
    SameElements(sorted, pending);
    SortSorts(CreatedBefore, pending);
    hide Sort;
    assert forall i, j :: 0 <= i < j < |sorted| ==> !CreatedBefore(sorted[j], sorted[i]);
  }

  predicate ByAge(points: seq<QueuedPoint>) {
    forall i, j :: 0 <= i < j < |points| ==> points[i].createdAt <= points[j].createdAt
  }

  lemma FrontIsOldest(sorted: seq<QueuedPoint>, limit: nat)
    requires ByAge(sorted)
    ensures
      var picked := Take(sorted, limit);
      && |picked| <= limit && (forall p :: p in picked ==> p in sorted) && ByAge(picked)
      && (forall p :: p in sorted && p !in picked ==>
            |picked| == limit && forall q :: q in picked ==> q.createdAt <= p.createdAt)
  {
  }

  class LocationQueue {
    var rows: seq<QueuedPoint>

    constructor ()
      ensures rows == []
    {
      rows := [];
    }

    method Insert(p: QueuedPoint)
      modifies this
      ensures rows == InsertPoint(old(rows), p)
      ensures old(rows) <= rows && HasPoint(rows, p.Id())
      ensures |rows| == old(|rows|) + if HasPoint(old(rows), p.Id()) then 0 else 1
    {
      if !HasPoint(rows, p.Id()) {
        rows := rows + [p];
        assert rows[|rows| - 1].Id() == p.Id();
      }
    }

    // UPDATE ... WHERE id IN (:ids), row by row.
    method SetAcked(ids: seq<EventId>, now: Time)
      modifies this
      ensures rows == MarkAcked(old(rows), ids, now)
      ensures IdsOf(rows) == IdsOf(old(rows)) && EventsOf(rows) == EventsOf(old(rows))
      ensures forall k :: 0 <= k < |rows| ==>
                if rows[k].Id() in ids then rows[k].status == Acked && rows[k].updatedAt == now
                else rows[k] == old(rows)[k]
    {
      for i := 0 to |rows|
        invariant |rows| == old(|rows|)
        invariant forall k :: 0 <= k < i ==> rows[k] == AckedOne(old(rows)[k], ids, now)
        invariant forall k :: i <= k < |rows| ==> rows[k] == old(rows)[k]
      {
        if rows[i].Id() in ids {
          rows := rows[i := rows[i].(status := Acked, updatedAt := now)];
        }
      }
    }

    method SetPending(ids: seq<EventId>, now: Time)
      modifies this
      ensures rows == ReturnToPending(old(rows), ids, now)
      ensures IdsOf(rows) == IdsOf(old(rows)) && EventsOf(rows) == EventsOf(old(rows))
      ensures forall k :: 0 <= k < |rows| ==>
                if rows[k].Id() in ids then rows[k].status == Pending && rows[k].attempts == old(rows)[k].attempts + 1
                else rows[k] == old(rows)[k]
    {
      for i := 0 to |rows|
        invariant |rows| == old(|rows|)
        invariant forall k :: 0 <= k < i ==> rows[k] == ReturnedOne(old(rows)[k], ids, now)
        invariant forall k :: i <= k < |rows| ==> rows[k] == old(rows)[k]
      {
        if rows[i].Id() in ids {
          rows := rows[i := rows[i].(status := Pending, attempts := rows[i].attempts + 1, updatedAt := now)];
        }
      }
    }

    method SetFailed(id: EventId, reason: string, now: Time)
      modifies this
      ensures rows == MarkFailed(old(rows), id, reason, now)
      ensures IdsOf(rows) == IdsOf(old(rows)) && EventsOf(rows) == EventsOf(old(rows))
      ensures forall k :: 0 <= k < |rows| ==>
                if rows[k].Id() == id then rows[k].status == Failed && rows[k].lastError == Some(reason)
                else rows[k] == old(rows)[k]
    {
      for i := 0 to |rows|
        invariant |rows| == old(|rows|)
        invariant forall k :: 0 <= k < i ==> rows[k] == FailedOne(old(rows)[k], id, reason, now)
        invariant forall k :: i <= k < |rows| ==> rows[k] == old(rows)[k]
      {
        if rows[i].Id() == id {
          rows := rows[i := rows[i].(status := Failed, lastError := Some(reason), updatedAt := now)];
        }
      }
    }

    method Retry(now: Time)
      modifies this
      ensures rows == RetryFailed(old(rows), now)
      ensures IdsOf(rows) == IdsOf(old(rows))
      ensures forall k :: 0 <= k < |rows| ==>
                if old(rows)[k].status == Failed then rows[k].status == Pending && rows[k].attempts == 0
                else rows[k] == old(rows)[k]
      ensures forall k :: 0 <= k < |rows| ==> rows[k].status != Failed
    {
      for i := 0 to |rows|
        invariant |rows| == old(|rows|)
        invariant forall k :: 0 <= k < i ==> rows[k] == RetriedOne(old(rows)[k], now)
        invariant forall k :: i <= k < |rows| ==> rows[k] == old(rows)[k]
      {
        rows := rows[i := RetriedOne(rows[i], now)];
      }
    }

    method Cleanup(cutoff: Time)
      modifies this
      ensures rows == CleanupOld(old(rows), cutoff)
      ensures forall p :: p in rows <==> p in old(rows) && !(p.status == Acked && p.updatedAt < cutoff)
    {
      var kept: seq<QueuedPoint> := [];
      for i := 0 to |rows|
        invariant rows == old(rows) && kept == CleanupOld(rows[..i], cutoff)
      {
        assert rows[..i + 1][..i] == rows[..i];
        if !Expired(rows[i], cutoff) {
          kept := kept + [rows[i]];
        }
      }
      assert rows[..|rows|] == rows;
      rows := kept;
    }

    method DropFailed()
      modifies this
      ensures rows == ClearFailed(old(rows))
      ensures forall p :: p in rows <==> p in old(rows) && p.status != Failed
    {
      var kept: seq<QueuedPoint> := [];
      for i := 0 to |rows|
        invariant rows == old(rows) && kept == ClearFailed(rows[..i])
      {
        assert rows[..i + 1][..i] == rows[..i];
        if rows[i].status != Failed {
          kept := kept + [rows[i]];
        }
      }
      assert rows[..|rows|] == rows;
      rows := kept;
    }
  }

  // The sender's callbacks, each with its database calls run to the end.
  class BatchSender {
    const queue: LocationQueue
    var inflight: seq<EventId>
    var session: Option<Owner>

    ghost function State(): Phone
      reads this, queue
    {
      Phone(queue.rows, inflight, session)
    }

    constructor ()
      ensures fresh(queue) && State() == Phone([], [], None)
    {
      queue := new LocationQueue();
      inflight, session := [], None;
    }

    method ReturnInflightToPending(now: Time)
      modifies `inflight, queue
      ensures State() == RunTasks(old(State()).(inflight := []), ReturnTasks(old(State()), now))
      ensures inflight == [] && session == old(session) && IdsOf(queue.rows) == old(IdsOf(queue.rows))
      ensures forall k :: 0 <= k < |queue.rows| && queue.rows[k].Id() in old(inflight) ==>
                queue.rows[k].status == Pending
      ensures forall k :: 0 <= k < |queue.rows| && queue.rows[k].Id() !in old(inflight) ==>
                queue.rows[k] == old(queue.rows)[k]
    {
      if inflight == [] {
        return;
      }
      var ids := inflight;
      inflight := [];
      queue.SetPending(ids, now);
      RunOneMore(old(State()).(inflight := []), [], ReturnTask(ids, now));
      assert [] + [ReturnTask(ids, now)] == [ReturnTask(ids, now)];
    }

    method CheckSend() returns (may: bool)
      ensures may <==> session.Some? && inflight == []
    {
      may := session.Some?;
      if inflight != [] {
        may := false;
      }
    }

    method LoadPoints() returns (points: seq<QueuedPoint>)
      ensures points == GetPending(queue.rows, BATCH_SIZE)
      ensures |points| <= BATCH_SIZE && forall p :: p in points ==> p in queue.rows && p.status == Pending
      ensures forall p :: p in queue.rows && p.status == Pending && p !in points ==>
                |points| == BATCH_SIZE && forall q :: q in points ==> q.createdAt <= p.createdAt
    {
      points := GetPending(queue.rows, BATCH_SIZE);
      OldestArePicked(queue.rows, BATCH_SIZE);
    }

    method ClaimPoints(points: seq<QueuedPoint>)
      modifies `inflight
      ensures inflight == IdsOf(points)
    {
      inflight := IdsOf(points);
    }

    // sent says whether the socket takes the message. What is returned when it does not is
    // whatever is in flight by then, another send's points perhaps.
    method SendBatch(points: seq<QueuedPoint>, sent: bool, now: Time) returns (batch: seq<WireEvent>)
      modifies `inflight, queue
      ensures batch == if sent then EventsOf(points) else []
      ensures State() == if sent then old(State())
                         else RunTasks(old(State()).(inflight := []), ReturnTasks(old(State()), now))
    {
      if sent {
        return EventsOf(points);
      }
      ReturnInflightToPending(now);
      batch := [];
    }

    // A send that nothing overtakes.
    method TrySendBatch(sent: bool, now: Time) returns (batch: seq<WireEvent>)
      modifies `inflight, queue
      ensures
        var before := old(State());
        var points := if MaySend(before) then GetPending(before.rows, BATCH_SIZE) else [];
        && batch == (if sent then EventsOf(points) else [])
        && State() == (if points == [] then before
                       else if sent then before.(inflight := IdsOf(points))
                       else RunTasks(before, [ReturnTask(IdsOf(points), now)]))
    {
      batch := [];
      var may := CheckSend();
      if !may {
        return;
      }
      var points := LoadPoints();
      if points == [] {
        return;
      }
      ClaimPoints(points);
      batch := SendBatch(points, sent, now);
    }

    method HandleAck(accepted: seq<EventId>, duplicated: seq<EventId>, rejected: seq<Rejection>, now: Time)
      modifies `inflight, queue
      ensures State() == RunTasks(old(State()), AckTasks(accepted + duplicated, rejected, now))
      ensures inflight == [] && session == old(session) && |queue.rows| == |old(queue.rows)|
      ensures forall k :: 0 <= k < |queue.rows| ==>
                SettledBy(old(queue.rows)[k], queue.rows[k], accepted + duplicated, rejected)
    {
      hide RunTasks, FailTasks, AckTasks, MarkAcked, MarkFailed, SettledBy;
      var toAck := accepted + duplicated;
      if toAck != [] {
        queue.SetAcked(toAck, now);
      }
      AckIsFirst(old(State()), toAck, rejected, now);
      for i := 0 to |rejected|
        invariant inflight == old(inflight) && session == old(session)
        invariant State() == RunTasks(old(State()), AckTasksUpTo(toAck, rejected, now, i))
      {
        queue.SetFailed(rejected[i].eventId, rejected[i].reason, now);
        FailureIsNext(old(State()), toAck, rejected, now, i);
      }
      inflight := [];
      SettlingIsLast(old(State()), toAck, rejected, now);
      AckSettles(old(State()), toAck, rejected, now);
    }

    // onFailure and onClosing, as far as the queue is concerned.
    method LoseConnection(now: Time)
      modifies this, queue
      ensures State() == RunTasks(old(State()).(inflight := [], session := None), ReturnTasks(old(State()), now))
    {
      session := None;
      ReturnInflightToPending(now);
    }
  }
}
