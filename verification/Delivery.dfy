// The whole path from the phone's queue to raw_location_points as one state machine.
module Delivery {
  // Phone, gateway, broker and worker take steps in any order; batches and acknowledgements may
  // be lost, repeated or late; the phone and every gateway call may stop at any point; messages
  // may be redelivered. At-least-once sending has an exactly-once effect.

  import opened Domain
  import opened Sorting
  import opened Ingestion
  import opened Gateway
  import opened PhoneQueue

  datatype Config = Config(producer: string, maxBatch: int)

  datatype Batch = Batch(owner: Owner, events: seq<WireEvent>)

  datatype AckMessage = AckMessage(settled: seq<EventId>, rejected: seq<Rejection>)

  // A call of IngestBatch in progress, with what parsing already rejected.
  datatype Call = Call(job: Job, parseRejects: seq<Rejection>)

  // queued, droppedAcked and droppedFailed record history; nothing reads them.
  datatype State = State(
    queued: map<EventId, WireEvent>,
    droppedAcked: set<EventId>,
    droppedFailed: set<EventId>,
    phone: Phone,
    tasks: seq<Task>,
    senders: seq<Sender>,
    batches: seq<Batch>,
    acks: seq<AckMessage>,
    calls: seq<Call>,
    broker: Broker,
    raw: RawTable,
    deadLetters: nat,
    confirmed: set<nat>)

  const START := State(map[], {}, {}, Phone([], [], None), [], [], [], [], [], Broker({}, [], {}), map[], 0, {})

  datatype Step =
    | Enqueue(event: WireEvent, at: Time)
    | OpenSession(owner: Owner)
    | CloseSession
    | LoseConnection(at: Time)
    | KillApp
    | CheckSend
    | LoadPoints(sender: nat)
    | ClaimPoints(sender: nat)
    | SendPoints(sender: nat, sent: bool, at: Time)
    | ReceiveAck(ack: nat, at: Time)
    | RunPhoneTask(task: nat)
    | CleanupPoints(cutoff: Time)
    | ClearFailedPoints
    | RetryFailedPoints(at: Time)
    | StartCall(batch: nat, sessionId: string, at: Time)
    | AdvanceCall(call: nat, outcome: Outcome)
    | AnswerCall(call: nat)
    | KillCall(call: nat)
    | ForgetRecent(ids: set<EventId>)
    | Deliver(message: nat, dbUp: bool, busUp: bool, ackArrives: bool)

  function Without<T>(s: seq<T>, i: nat): seq<T>
    requires i < |s|
  {
    s[..i] + s[i + 1..]
  }

  function RowIds(rows: seq<QueuedPoint>): set<EventId> {
    set i | 0 <= i < |rows| :: rows[i].Id()
  }

  // Event identifiers are fresh UUIDs: one already used names no new point.
  function DoEnqueue(s: State, e: WireEvent, at: Time): State {
    if e.eventId in s.queued then s
    else s.(queued := s.queued[e.eventId := e],
            phone := s.phone.(rows := InsertPoint(s.phone.rows, QueuedPoint(e, Pending, 0, None, at, at))))
  }

  // One suspension point of a send. The rows may change between reading and sending, and any
  // number of sends may be on their way.
  function DoLoad(s: State, i: nat): State
    requires i < |s.senders|
  {
    if s.senders[i].Checked? then s.(senders := s.senders[i := Loaded(GetPending(s.phone.rows, BATCH_SIZE))]) else s
  }

  function DoClaim(s: State, i: nat): State
    requires i < |s.senders|
  {
    if !s.senders[i].Loaded? then s
    else
      var points := s.senders[i].points;
      if points == [] then s.(senders := Without(s.senders, i))
      else s.(phone := s.phone.(inflight := IdsOf(points)), senders := s.senders[i := Claimed(points)])
  }

  // A message that the gateway receives outside a session is refused unread; one the socket
  // does not take returns whatever is in flight by then.
  function DoSend(s: State, i: nat, sent: bool, at: Time): State
    requires i < |s.senders|
  {
    if !s.senders[i].Claimed? then s
    else
      var rest := Without(s.senders, i);
      if !sent then
        s.(phone := s.phone.(inflight := []), tasks := s.tasks + ReturnTasks(s.phone, at), senders := rest)
      else if s.phone.session.None? then s.(senders := rest)
      else
        s.(batches := s.batches + [Batch(s.phone.session.value, EventsOf(s.senders[i].points))], senders := rest)
  }

  function DoStartCall(cfg: Config, s: State, b: Batch, sessionId: string, at: Time): State {
    var parsed := ParseLocationEvents(b.events);
    if b.events == [] || |parsed.events| > cfg.maxBatch then s
    else
      var job := Job(Session(sessionId, b.owner), at, parsed.events, Checking, NO_RESULT);
      s.(calls := s.calls + [Call(job, parsed.rejects)])
  }

  function DoAdvanceCall(cfg: Config, s: State, i: nat, o: Outcome): State
    requires i < |s.calls|
  {
    var call := s.calls[i];
    if call.job.todo == [] then s
    else
      var after := JobStep(cfg.producer, call.job, s.broker, o);
      s.(calls := if after.job.Some? then s.calls[i := call.(job := after.job.value)] else Without(s.calls, i),
         broker := after.broker)
  }

  function DoAnswerCall(s: State, i: nat): State
    requires i < |s.calls|
  {
    var call := s.calls[i];
    var r := call.job.result;
    if !call.job.IsDone() then s
    else s.(calls := Without(s.calls, i),
            acks := s.acks + [AckMessage(r.accepted + r.duplicated, call.parseRejects + r.rejected)])
  }

  function DoDeliver(s: State, i: nat, dbUp: bool, busUp: bool, ackArrives: bool): State
    requires i < |s.broker.stream|
  {
    var d := Process(s.raw, s.deadLetters, Some(s.broker.stream[i]), dbUp, busUp);
    s.(raw := d.raw, deadLetters := d.deadLetters,
       confirmed := if d.action == Ack && ackArrives then s.confirmed + {i} else s.confirmed)
  }

  // A step that is not possible in a state leaves it as it is.
  function Do(cfg: Config, s: State, step: Step): State {
    match step
    case Enqueue(e, at) => DoEnqueue(s, e, at)
    case OpenSession(owner) => s.(phone := s.phone.(session := Some(owner)))
    case CloseSession => s.(phone := s.phone.(session := None))
    case LoseConnection(at) =>
      s.(phone := s.phone.(inflight := [], session := None), tasks := s.tasks + ReturnTasks(s.phone, at))
    case KillApp => s.(phone := s.phone.(inflight := [], session := None), tasks := [], senders := [])
    case CheckSend => if MaySend(s.phone) then s.(senders := s.senders + [Checked]) else s
    case LoadPoints(i) => if i < |s.senders| then DoLoad(s, i) else s
    case ClaimPoints(i) => if i < |s.senders| then DoClaim(s, i) else s
    case SendPoints(i, sent, at) => if i < |s.senders| then DoSend(s, i, sent, at) else s
    case ReceiveAck(i, at) =>
      if i < |s.acks| then s.(tasks := s.tasks + AckTasks(s.acks[i].settled, s.acks[i].rejected, at)) else s
    case RunPhoneTask(i) =>
      if i < |s.tasks| then s.(phone := RunTask(s.phone, s.tasks[i]), tasks := Without(s.tasks, i)) else s
    case CleanupPoints(cutoff) =>
      var kept := CleanupOld(s.phone.rows, cutoff);
      s.(phone := s.phone.(rows := kept),
         droppedAcked := s.droppedAcked + (RowIds(s.phone.rows) - RowIds(kept)))
    case ClearFailedPoints =>
      var kept := ClearFailed(s.phone.rows);
      s.(phone := s.phone.(rows := kept),
         droppedFailed := s.droppedFailed + (RowIds(s.phone.rows) - RowIds(kept)))
    case RetryFailedPoints(at) => s.(phone := s.phone.(rows := RetryFailed(s.phone.rows, at)))
    case StartCall(i, sessionId, at) =>
      if i < |s.batches| then DoStartCall(cfg, s, s.batches[i], sessionId, at) else s
    case AdvanceCall(i, o) => if i < |s.calls| then DoAdvanceCall(cfg, s, i, o) else s
    case AnswerCall(i) => if i < |s.calls| then DoAnswerCall(s, i) else s
    case KillCall(i) => if i < |s.calls| then s.(calls := Without(s.calls, i)) else s
    case ForgetRecent(ids) => s.(broker := s.broker.(recent := s.broker.recent - ids))
    case Deliver(i, dbUp, busUp, ackArrives) =>
      if i < |s.broker.stream| then DoDeliver(s, i, dbUp, busUp, ackArrives) else s
  }

  function Reach(cfg: Config, steps: seq<Step>): State {
    if steps == [] then START else Do(cfg, Reach(cfg, steps[..|steps| - 1]), steps[|steps| - 1])
  }

  // ---- what every run keeps ----

  type Queued = map<EventId, WireEvent>

  // What the phone queued, up to a corrected activity name.
  ghost predicate Known(q: Queued, e: WireEvent) {
    e.eventId in q && e == q[e.eventId].(activityType := e.activityType)
  }

  ghost predicate KnownEvent(q: Queued, ev: LocationEvent) {
    && ev.eventId in q
    && q[ev.eventId].recordedAt == Some(ev.recordedAt) && q[ev.eventId].position == ev.position
    && q[ev.eventId].accuracyM == ev.accuracyM && Or(q[ev.eventId].speedMps, 0.0) == Or(ev.speedMps, 0.0)
  }

  // A stored message can be processed and holds what the phone queued under its id.
  ghost predicate KnownMessage(q: Queued, e: Envelope) {
    && IsProcessable(Some(e)) && MapPayloadToPoint(e).PassesChecks()
    && e.eventId in q
    && q[e.eventId].recordedAt == Some(e.payload.recordedAt) && q[e.eventId].position == e.payload.position
    && q[e.eventId].accuracyM == e.payload.accuracyM && Or(q[e.eventId].speedMps, 0.0) == e.payload.speedMps
  }

  ghost predicate RowsFit(q: Queued, b: Broker, rows: seq<QueuedPoint>) {
    && (forall i, j :: 0 <= i < j < |rows| ==> rows[i].Id() != rows[j].Id())
    && (forall i :: 0 <= i < |rows| ==> Known(q, rows[i].event))
    && (forall i :: 0 <= i < |rows| && rows[i].status == Status.Acked ==> b.Published(rows[i].Id()))
  }

  // Every queued point is in the queue, or was dropped after it was settled.
  ghost predicate NothingLost(s: State) {
    && s.queued.Keys == RowIds(s.phone.rows) + s.droppedAcked + s.droppedFailed
    && (forall id :: id in s.droppedAcked ==> s.broker.Published(id))
  }

  ghost predicate TaskFits(b: Broker, t: Task) {
    t.AckTask? ==> AllPublished(b, t.ids)
  }

  ghost predicate EventsKnown(q: Queued, events: seq<LocationEvent>) {
    forall i :: 0 <= i < |events| ==> KnownEvent(q, events[i])
  }

  ghost predicate CallFits(q: Queued, b: Broker, c: Call) {
    JobFits(b, c.job) && EventsKnown(q, c.job.todo)
  }

  ghost predicate RawFits(b: Broker, raw: RawTable, confirmed: set<nat>) {
    && (forall k :: k in raw ==>
          exists i :: 0 <= i < |b.stream| && b.stream[i].KeyOf() == k && raw[k] == MapPayloadToPoint(b.stream[i]))
    && (forall i :: i in confirmed ==> i < |b.stream| && b.stream[i].KeyOf() in raw)
  }

  ghost predicate StreamFits(q: Queued, b: Broker) {
    BrokerFits(b) && forall i :: 0 <= i < |b.stream| ==> KnownMessage(q, b.stream[i])
  }

  ghost predicate TasksFit(b: Broker, tasks: seq<Task>) {
    forall i :: 0 <= i < |tasks| ==> TaskFits(b, tasks[i])
  }

  ghost predicate BatchesFit(q: Queued, batches: seq<Batch>) {
    forall i :: 0 <= i < |batches| ==> BatchFits(q, batches[i])
  }

  ghost predicate BatchFits(q: Queued, batch: Batch) {
    forall k :: 0 <= k < |batch.events| ==> Known(q, batch.events[k])
  }

  ghost predicate SenderFits(q: Queued, sender: Sender) {
    !sender.Checked? ==> forall k :: 0 <= k < |sender.points| ==> Known(q, sender.points[k].event)
  }

  ghost predicate SendersFit(q: Queued, senders: seq<Sender>) {
    forall i :: 0 <= i < |senders| ==> SenderFits(q, senders[i])
  }

  ghost predicate AcksFit(b: Broker, acks: seq<AckMessage>) {
    forall i :: 0 <= i < |acks| ==> AllPublished(b, acks[i].settled)
  }

  ghost predicate CallsFit(q: Queued, b: Broker, calls: seq<Call>) {
    forall i :: 0 <= i < |calls| ==> CallFits(q, b, calls[i])
  }

  ghost predicate Inv(s: State) {
    && StreamFits(s.queued, s.broker)
    && RowsFit(s.queued, s.broker, s.phone.rows) && NothingLost(s)
    && TasksFit(s.broker, s.tasks) && SendersFit(s.queued, s.senders)
    && BatchesFit(s.queued, s.batches) && AcksFit(s.broker, s.acks)
    && CallsFit(s.queued, s.broker, s.calls)
    && RawFits(s.broker, s.raw, s.confirmed) && s.deadLetters == 0
  }

  // ---- the phone's steps ----

  lemma RowIdsHold(rows: seq<QueuedPoint>, id: EventId)
    ensures id in RowIds(rows) <==> HasPoint(rows, id)
  {
  }

  lemma EnqueueKeeps(s: State, e: WireEvent, at: Time)
    requires Inv(s)
    ensures Inv(DoEnqueue(s, e, at))
  {
    if e.eventId !in s.queued {
      var after, row := DoEnqueue(s, e, at), QueuedPoint(e, Pending, 0, None, at, at);
      RowIdsHold(s.phone.rows, e.eventId);
      assert after.phone.rows == s.phone.rows + [row];
      MoreQueued(s, e);
      RowIdsGrow(s.phone.rows, row);
      assert RowsFit(after.queued, s.broker, after.phone.rows);
      hide Known, KnownMessage, KnownEvent, JobFits, BrokerFits, StreamFits, RawFits, TasksFit, BatchesFit, AcksFit,
           CallsFit, RowsFit;
    }
  }

  lemma RowIdsGrow(rows: seq<QueuedPoint>, row: QueuedPoint)
    ensures RowIds(rows + [row]) == RowIds(rows) + {row.Id()}
  {
    forall id ensures id in RowIds(rows + [row]) <==> id in RowIds(rows) + {row.Id()} {
      if id in RowIds(rows) {
        var i :| 0 <= i < |rows| && rows[i].Id() == id;
        assert (rows + [row])[i].Id() == id;
      }
      assert (rows + [row])[|rows|] == row;
    }
  }

  // Queueing a new point says nothing new about the old ones.
  lemma MoreQueued(s: State, e: WireEvent)
    requires Inv(s) && e.eventId !in s.queued
    ensures StreamFits(s.queued[e.eventId := e], s.broker) && BatchesFit(s.queued[e.eventId := e], s.batches)
    ensures SendersFit(s.queued[e.eventId := e], s.senders)
    ensures CallsFit(s.queued[e.eventId := e], s.broker, s.calls)
    ensures forall i :: 0 <= i < |s.phone.rows| ==> Known(s.queued[e.eventId := e], s.phone.rows[i].event)
  {
    var q := s.queued[e.eventId := e];
    hide JobFits, BrokerFits, RawFits, TasksFit, AcksFit, NothingLost;
    forall i | 0 <= i < |s.batches| ensures BatchFits(q, s.batches[i]) {
      assert BatchFits(s.queued, s.batches[i]);
    }
    forall i | 0 <= i < |s.senders| ensures SenderFits(q, s.senders[i]) {
      assert SenderFits(s.queued, s.senders[i]);
    }
    forall i | 0 <= i < |s.calls| ensures CallFits(q, s.broker, s.calls[i]) {
      assert CallFits(s.queued, s.broker, s.calls[i]);
    }
  }

  lemma LoadKeeps(s: State, i: nat)
    requires Inv(s) && i < |s.senders|
    ensures Inv(DoLoad(s, i))
  {
    OldestArePicked(s.phone.rows, BATCH_SIZE);
    hide GetPending, Known, StreamFits, NothingLost, RawFits, CallsFit, BatchesFit, AcksFit, TasksFit;
    if s.senders[i].Checked? {
      var points := GetPending(s.phone.rows, BATCH_SIZE);
      forall k | 0 <= k < |points| ensures Known(s.queued, points[k].event) {
        assert points[k] in points;
        assert points[k] in s.phone.rows;
      }
      OneSenderFits(s.queued, s.senders, i, Loaded(points));
      NothingLostIgnores(s, DoLoad(s, i));
    }
  }

  lemma OneSenderFits(q: Queued, senders: seq<Sender>, i: nat, sender: Sender)
    requires SendersFit(q, senders) && i < |senders| && SenderFits(q, sender)
    ensures SendersFit(q, senders[i := sender]) && SendersFit(q, Without(senders, i))
  {
    WithoutHolds(senders, i);
    hide SenderFits, Without;
  }

  lemma ClaimKeeps(s: State, i: nat)
    requires Inv(s) && i < |s.senders|
    ensures Inv(DoClaim(s, i))
  {
    assert SenderFits(s.queued, s.senders[i]);
    if s.senders[i].Loaded? {
      OneSenderFits(s.queued, s.senders, i, Claimed(s.senders[i].points));
    }
    hide SendersFit, SenderFits, StreamFits, RowsFit, RawFits, CallsFit, BatchesFit, AcksFit, TasksFit;
  }

  lemma SendKeeps(s: State, i: nat, sent: bool, at: Time)
    requires Inv(s) && i < |s.senders|
    ensures Inv(DoSend(s, i, sent, at))
  {
    assert SenderFits(s.queued, s.senders[i]);
    if s.senders[i].Claimed? {
      var points := s.senders[i].points;
      OneSenderFits(s.queued, s.senders, i, s.senders[i]);
      ReturnTasksFit(s.broker, s.phone, at);
      MoreTasks(s.broker, s.tasks, ReturnTasks(s.phone, at));
      if s.phone.session.Some? {
        assert BatchFits(s.queued, Batch(s.phone.session.value, EventsOf(points))) by { hide Known; }
      }
      hide SendersFit, SenderFits, BatchFits, StreamFits, RowsFit, RawFits, CallsFit, AcksFit, TasksFit, ReturnTasks;
    }
  }

  lemma AckTasksFit(b: Broker, settled: seq<EventId>, rejected: seq<Rejection>, at: Time)
    requires AllPublished(b, settled)
    ensures TasksFit(b, AckTasks(settled, rejected, at))
  {
    hide AllPublished;
  }

  lemma MoreTasks(b: Broker, tasks: seq<Task>, more: seq<Task>)
    requires TasksFit(b, tasks) && TasksFit(b, more)
    ensures TasksFit(b, tasks + more)
  {
    hide TaskFits;
  }

  // An update that keeps ids and events and acknowledges only published points.
  lemma UpdateKeepsRows(q: Queued, b: Broker, rows: seq<QueuedPoint>, change: QueuedPoint -> QueuedPoint)
    requires RowsFit(q, b, rows)
    requires forall i :: 0 <= i < |rows| ==>
               && change(rows[i]).Id() == rows[i].Id()
               && Known(q, change(rows[i]).event)
               && (change(rows[i]).status == Status.Acked ==> b.Published(rows[i].Id()))
    ensures RowsFit(q, b, Update(rows, change)) && RowIds(Update(rows, change)) == RowIds(rows)
  {
    var after := Update(rows, change);
    assert forall i :: 0 <= i < |rows| ==> after[i].Id() == rows[i].Id();
    forall id ensures id in RowIds(after) <==> id in RowIds(rows) {
      if id in RowIds(rows) {
        var i :| 0 <= i < |rows| && rows[i].Id() == id;
        assert after[i].Id() == id;
      }
    }
  }

  lemma RunTaskKeeps(q: Queued, b: Broker, p: Phone, t: Task)
    requires RowsFit(q, b, p.rows) && TaskFits(b, t)
    ensures RowsFit(q, b, RunTask(p, t).rows) && RowIds(RunTask(p, t).rows) == RowIds(p.rows)
  {
    hide Update, Known, RowIds;
    match t
    case AckTask(ids, at) => UpdateKeepsRows(q, b, p.rows, (r: QueuedPoint) => AckedOne(r, ids, at));
    case FailTask(id, reason, at) => UpdateKeepsRows(q, b, p.rows, (r: QueuedPoint) => FailedOne(r, id, reason, at));
    case ReturnTask(ids, at) => UpdateKeepsRows(q, b, p.rows, (r: QueuedPoint) => ReturnedOne(r, ids, at));
    case SettleTask =>
  }

  lemma RetryKeeps(q: Queued, b: Broker, rows: seq<QueuedPoint>, at: Time)
    requires RowsFit(q, b, rows)
    ensures RowsFit(q, b, RetryFailed(rows, at)) && RowIds(RetryFailed(rows, at)) == RowIds(rows)
  {
    hide Update, RowIds, Normalised;
    UpdateKeepsRows(q, b, rows, (p: QueuedPoint) => RetriedOne(p, at));
  }

  // Dropping rows keeps what is said about the others.
  lemma {:induction false} FilterKeepsRows(q: Queued, b: Broker, rows: seq<QueuedPoint>, keep: QueuedPoint -> bool)
    requires RowsFit(q, b, rows)
    ensures RowsFit(q, b, Filter(keep, rows))
    ensures RowIds(Filter(keep, rows)) <= RowIds(rows)
    ensures forall id :: id in RowIds(rows) - RowIds(Filter(keep, rows)) ==>
              exists p :: p in rows && p.Id() == id && !keep(p)
  {
    FilterKeepsIds(rows, keep);
    var kept := Filter(keep, rows);
    FilterKeepsDistinctRows(rows, keep);
    hide Filter, Known;
    forall i | 0 <= i < |kept|
      ensures Known(q, kept[i].event)
      ensures kept[i].status == Status.Acked ==> b.Published(kept[i].Id())
    {
      assert kept[i] in kept;
      assert kept[i] in rows;
    }
  }

  lemma FilterKeepsIds(rows: seq<QueuedPoint>, keep: QueuedPoint -> bool)
    ensures RowIds(Filter(keep, rows)) <= RowIds(rows)
    ensures forall id :: id in RowIds(rows) - RowIds(Filter(keep, rows)) ==>
              exists p :: p in rows && p.Id() == id && !keep(p)
  {
    var kept := Filter(keep, rows);
    forall id | id in RowIds(kept) ensures id in RowIds(rows) {
      var i :| 0 <= i < |kept| && kept[i].Id() == id;
      assert kept[i] in rows;
    }
    forall id | id in RowIds(rows) - RowIds(kept) ensures exists p :: p in rows && p.Id() == id && !keep(p) {
      var i :| 0 <= i < |rows| && rows[i].Id() == id;
      if keep(rows[i]) {
        KeptHasId(rows, keep, i);
      }
    }
  }

  lemma KeptHasId(rows: seq<QueuedPoint>, keep: QueuedPoint -> bool, i: nat)
    requires i < |rows| && keep(rows[i])
    ensures rows[i].Id() in RowIds(Filter(keep, rows))
  {
    assert rows[i] in Filter(keep, rows);
  }

  lemma {:induction false} FilterKeepsDistinctRows(rows: seq<QueuedPoint>, keep: QueuedPoint -> bool)
    requires forall i, j :: 0 <= i < j < |rows| ==> rows[i].Id() != rows[j].Id()
    ensures
      var kept := Filter(keep, rows);
      forall i, j :: 0 <= i < j < |kept| ==> kept[i].Id() != kept[j].Id()
  {
    if rows != [] {
      var front := rows[..|rows| - 1];
      FilterKeepsDistinctRows(front, keep);
      forall i | 0 <= i < |Filter(keep, front)| ensures Filter(keep, front)[i].Id() != rows[|rows| - 1].Id() {
        assert Filter(keep, front)[i] in front;
      }
    }
  }

  lemma CleanupKeeps(cfg: Config, s: State, cutoff: Time)
    requires Inv(s)
    ensures Inv(Do(cfg, s, CleanupPoints(cutoff)))
  {
    hide RowIds, StreamFits, RawFits, CallsFit, TasksFit, BatchesFit, AcksFit, Filter;
    var rows, kept := s.phone.rows, CleanupOld(s.phone.rows, cutoff);
    FilterKeepsRows(s.queued, s.broker, rows, (p: QueuedPoint) => !Expired(p, cutoff));
    forall id | id in RowIds(rows) - RowIds(kept) ensures s.broker.Published(id) {
      var p :| p in rows && p.Id() == id && Expired(p, cutoff);
    }
  }

  lemma ClearFailedKeeps(cfg: Config, s: State)
    requires Inv(s)
    ensures Inv(Do(cfg, s, ClearFailedPoints))
  {
    hide RowIds, StreamFits, RawFits, CallsFit, TasksFit, BatchesFit, AcksFit, Filter, RowsFit;
    FilterKeepsRows(s.queued, s.broker, s.phone.rows, (p: QueuedPoint) => p.status != Status.Failed);
  }

  lemma WithoutHolds<T>(s: seq<T>, i: nat)
    requires i < |s|
    ensures forall k :: 0 <= k < |Without(s, i)| ==> Without(s, i)[k] in s
  {
  }

  lemma RunPhoneTaskKeeps(cfg: Config, s: State, i: nat)
    requires Inv(s) && i < |s.tasks|
    ensures Inv(Do(cfg, s, RunPhoneTask(i)))
  {
    hide RowIds, StreamFits, RawFits, CallsFit, BatchesFit, AcksFit, RowsFit, TaskFits, RunTask;
    RunTaskKeeps(s.queued, s.broker, s.phone, s.tasks[i]);
    WithoutHolds(s.tasks, i);
  }

  // ---- the gateway's steps ----

  lemma ParsedIsKnown(q: Queued, m: WireEvent)
    requires Known(q, m) && m.recordedAt.Some?
    ensures KnownEvent(q, EventOf(m))
  {
    var was := q[m.eventId];
    assert m.recordedAt == was.recordedAt && m.position == was.position;
    assert m.accuracyM == was.accuracyM && m.speedMps == was.speedMps;
  }

  lemma {:induction false} ParsedAreKnown(q: Queued, msgs: seq<WireEvent>)
    requires forall i :: 0 <= i < |msgs| ==> Known(q, msgs[i])
    ensures EventsKnown(q, ParseLocationEvents(msgs).events)
  {
    hide Known, KnownEvent, EventOf;
    if msgs != [] {
      var before, m := ParseLocationEvents(msgs[..|msgs| - 1]), msgs[|msgs| - 1];
      ParsedAreKnown(q, msgs[..|msgs| - 1]);
      assert Known(q, m);
      if m.eventId != "" && m.recordedAt.Some? {
        ParsedIsKnown(q, m);
        assert ParseLocationEvents(msgs).events == before.events + [EventOf(m)];
      } else {
        assert ParseLocationEvents(msgs).events == before.events;
      }
    }
  }

  lemma StartCallKeeps(cfg: Config, s: State, b: Batch, sessionId: string, at: Time)
    requires Inv(s) && BatchFits(s.queued, b)
    ensures Inv(DoStartCall(cfg, s, b, sessionId, at))
  {
    hide ParseLocationEvents, Known, KnownEvent, StreamFits, RawFits, RowsFit, NothingLost, TasksFit, AcksFit,
         BatchesFit;
    ParsedAreKnown(s.queued, b.events);
    var parsed := ParseLocationEvents(b.events);
    var job := Job(Session(sessionId, b.owner), at, parsed.events, Checking, NO_RESULT);
    assert CallFits(s.queued, s.broker, Call(job, parsed.rejects));
    assert CallsFit(s.queued, s.broker, s.calls + [Call(job, parsed.rejects)]) by { hide CallFits; }
    NothingLostIgnores(s, DoStartCall(cfg, s, b, sessionId, at));
  }

  // Everything that was published still is once the stream has grown.
  lemma StreamGrows(s: State, after: Broker)
    requires Inv(s) && s.broker.stream <= after.stream
    ensures RowsFit(s.queued, after, s.phone.rows) && TasksFit(after, s.tasks) && AcksFit(after, s.acks)
    ensures RawFits(after, s.raw, s.confirmed) && NothingLost(s.(broker := after))
  {
    hide BrokerFits, Known, KnownMessage, KnownEvent, JobFits, CallFits, RowIds, MapPayloadToPoint, StreamFits,
         CallsFit, BatchesFit;
    RawStays(s.broker, after, s.raw, s.confirmed);
    hide RawFits;
    forall id | s.broker.Published(id) ensures after.Published(id) {
      PublishedStays(s.broker, after, id);
    }
    forall i | 0 <= i < |s.tasks| ensures TaskFits(after, s.tasks[i]) {
      assert TaskFits(s.broker, s.tasks[i]);
    }
    forall i | 0 <= i < |s.acks| ensures AllPublished(after, s.acks[i].settled) {
      assert AllPublished(s.broker, s.acks[i].settled);
    }
  }

  lemma RawStays(b: Broker, after: Broker, raw: RawTable, confirmed: set<nat>)
    requires RawFits(b, raw, confirmed) && b.stream <= after.stream
    ensures RawFits(after, raw, confirmed)
  {
    assert forall i :: 0 <= i < |b.stream| ==> after.stream[i] == b.stream[i];
    hide MapPayloadToPoint;
    forall k | k in raw
      ensures
        exists i ::
          0 <= i < |after.stream| && after.stream[i].KeyOf() == k && raw[k] == MapPayloadToPoint(after.stream[i])
    {
      var i :| 0 <= i < |b.stream| && b.stream[i].KeyOf() == k && raw[k] == MapPayloadToPoint(b.stream[i]);
      assert after.stream[i] == b.stream[i];
    }
  }

  lemma CallsStay(q: Queued, b: Broker, after: Broker, calls: seq<Call>)
    requires CallsFit(q, b, calls) && b.stream <= after.stream
    ensures CallsFit(q, after, calls)
  {
    forall i | 0 <= i < |calls| ensures CallFits(q, after, calls[i]) {
      assert CallFits(q, b, calls[i]);
      var job := calls[i].job;
      hide Carries, KnownEvent;
      AllPublishedStays(b, after, job.result.accepted);
      AllPublishedStays(b, after, job.result.duplicated);
      if job.phase.Marking? {
        PublishedStays(b, after, job.phase.envelope.eventId);
      }
    }
  }

  // A message carrying a known event is a known message.
  lemma CarriedIsKnown(q: Queued, e: Envelope, ev: LocationEvent, owner: Owner)
    requires Carries(e, ev, owner) && KnownEvent(q, ev)
    ensures KnownMessage(q, e)
  {
  }

  lemma MessagesStayKnown(q: Queued, b: Broker, after: Broker, job: Job)
    requires job.todo != [] && KnownEvent(q, job.todo[0]) && Adds(b, after, job)
    requires forall i :: 0 <= i < |b.stream| ==> KnownMessage(q, b.stream[i])
    ensures forall i :: 0 <= i < |after.stream| ==> KnownMessage(q, after.stream[i])
  {
    hide Carries, KnownMessage, KnownEvent;
    forall i | 0 <= i < |after.stream| ensures KnownMessage(q, after.stream[i]) {
      if i < |b.stream| {
        assert after.stream[i] == b.stream[i];
      } else {
        CarriedIsKnown(q, after.stream[i], job.todo[0], job.session.owner);
      }
    }
  }

  lemma StepTodo(producer: string, job: Job, b: Broker, o: Outcome)
    requires job.todo != []
    ensures
      var after := JobStep(producer, job, b, o);
      after.job.Some? ==> after.job.value.todo == job.todo || after.job.value.todo == job.todo[1..]
  {
    hide ValidateLocationEvent, EnvelopeOf;
  }

  lemma AdvanceKeepsCall(cfg: Config, q: Queued, b: Broker, call: Call, o: Outcome)
    requires call.job.todo != [] && CallFits(q, b, call) && StreamFits(q, b)
    ensures
      var after := JobStep(cfg.producer, call.job, b, o);
      && StreamFits(q, after.broker) && b.stream <= after.broker.stream
      && (after.job.Some? ==> CallFits(q, after.broker, call.(job := after.job.value)))
  {
    hide JobStep, BrokerFits, JobFits, KnownMessage, KnownEvent, Carries;
    JobStepKeeps(cfg.producer, call.job, b, o);
    StepTodo(cfg.producer, call.job, b, o);
    MessagesStayKnown(q, b, JobStep(cfg.producer, call.job, b, o).broker, call.job);
  }

  lemma AdvanceCallKeeps(cfg: Config, s: State, i: nat, o: Outcome)
    requires Inv(s) && i < |s.calls|
    ensures Inv(DoAdvanceCall(cfg, s, i, o))
  {
    var call := s.calls[i];
    if call.job.todo != [] {
      hide JobStep, StreamFits, RowsFit, NothingLost, TasksFit, BatchesFit, AcksFit, RawFits, CallFits;
      AdvanceKeepsCall(cfg, s.queued, s.broker, call, o);
      var after := JobStep(cfg.producer, call.job, s.broker, o);
      StreamGrows(s, after.broker);
      CallsStay(s.queued, s.broker, after.broker, s.calls);
      WithoutHolds(s.calls, i);
      NothingLostIgnores(s.(broker := after.broker), DoAdvanceCall(cfg, s, i, o));
    }
  }

  lemma NothingLostIgnores(s: State, after: State)
    requires NothingLost(s)
    requires after.queued == s.queued && after.phone == s.phone && after.broker == s.broker
    requires after.droppedAcked == s.droppedAcked && after.droppedFailed == s.droppedFailed
    ensures NothingLost(after)
  {
  }

  lemma AnswerCallKeeps(s: State, i: nat)
    requires Inv(s) && i < |s.calls|
    ensures Inv(DoAnswerCall(s, i))
  {
    var call := s.calls[i];
    WithoutHolds(s.calls, i);
    assert CallFits(s.queued, s.broker, call);
    AnswerIsPublished(s.broker, call.job);
    hide StreamFits, RowsFit, TasksFit, BatchesFit, RawFits, CallFits, AllPublished;
    NothingLostIgnores(s, DoAnswerCall(s, i));
  }

  lemma AnswerIsPublished(b: Broker, job: Job)
    requires JobFits(b, job)
    ensures AllPublished(b, job.result.accepted + job.result.duplicated)
  {
    hide Carries;
  }

  lemma KillCallKeeps(cfg: Config, s: State, i: nat)
    requires Inv(s) && i < |s.calls|
    ensures Inv(Do(cfg, s, KillCall(i)))
  {
    WithoutHolds(s.calls, i);
    hide StreamFits, RowsFit, TasksFit, BatchesFit, RawFits, CallFits, AcksFit;
    NothingLostIgnores(s, Do(cfg, s, KillCall(i)));
  }

  lemma ForgetRecentKeeps(cfg: Config, s: State, ids: set<EventId>)
    requires Inv(s)
    ensures Inv(Do(cfg, s, ForgetRecent(ids)))
  {
    var after := Do(cfg, s, ForgetRecent(ids)).broker;
    StreamGrows(s, after);
    CallsStay(s.queued, s.broker, after, s.calls);
    forall id | s.broker.Published(id) ensures after.Published(id) {
      PublishedStays(s.broker, after, id);
    }
    hide KnownMessage, RowsFit, TasksFit, BatchesFit, RawFits, CallsFit, AcksFit;
  }

  // ---- the worker's step ----

  lemma KnownIsStored(q: Queued, raw: RawTable, e: Envelope, dbUp: bool, busUp: bool)
    requires KnownMessage(q, e)
    ensures
      var d := Process(raw, 0, Some(e), dbUp, busUp);
      && d.deadLetters == 0 && (d.action == Action.Ack ==> e.KeyOf() in d.raw)
      && (forall k :: k in raw ==> k in d.raw && d.raw[k] == raw[k])
      && (forall k :: k in d.raw && k !in raw ==> k == e.KeyOf() && d.raw[k] == MapPayloadToPoint(e))
  {
  }

  lemma StoredFits(b: Broker, raw: RawTable, confirmed: set<nat>, i: nat, after: RawTable, confirms: bool)
    requires RawFits(b, raw, confirmed) && i < |b.stream|
    requires forall k :: k in raw ==> k in after && after[k] == raw[k]
    requires forall k :: k in after && k !in raw ==>
               k == b.stream[i].KeyOf() && after[k] == MapPayloadToPoint(b.stream[i])
    requires confirms ==> b.stream[i].KeyOf() in after
    ensures RawFits(b, after, if confirms then confirmed + {i} else confirmed)
  {
    hide MapPayloadToPoint;
    forall k | k in after
      ensures exists j :: 0 <= j < |b.stream| && b.stream[j].KeyOf() == k && after[k] == MapPayloadToPoint(b.stream[j])
    {
      if k !in raw {
        assert b.stream[i].KeyOf() == k;
      }
    }
  }

  lemma DeliverKeeps(s: State, i: nat, dbUp: bool, busUp: bool, ackArrives: bool)
    requires Inv(s) && i < |s.broker.stream|
    ensures Inv(DoDeliver(s, i, dbUp, busUp, ackArrives))
  {
    hide Process, BrokerFits, KnownMessage, RowsFit, TasksFit, BatchesFit, CallsFit, AcksFit, MapPayloadToPoint,
         NothingLost, RawFits;
    var d := Process(s.raw, s.deadLetters, Some(s.broker.stream[i]), dbUp, busUp);
    KnownIsStored(s.queued, s.raw, s.broker.stream[i], dbUp, busUp);
    StoredFits(s.broker, s.raw, s.confirmed, i, d.raw, d.action == Action.Ack && ackArrives);
    NothingLostIgnores(s, DoDeliver(s, i, dbUp, busUp, ackArrives));
  }

  // ---- every run ----

  lemma StartBatchKeeps(cfg: Config, s: State, i: nat, sessionId: string, at: Time)
    requires Inv(s) && i < |s.batches|
    ensures Inv(DoStartCall(cfg, s, s.batches[i], sessionId, at))
  {
    assert BatchFits(s.queued, s.batches[i]);
    hide Inv, DoStartCall, BatchFits;
    StartCallKeeps(cfg, s, s.batches[i], sessionId, at);
  }

  // Connections open and close, and acknowledgements become tasks.
  lemma ConnectionKeeps(cfg: Config, s: State, step: Step)
    requires Inv(s)
    requires step.OpenSession? || step.CloseSession? || step.LoseConnection? || step.KillApp? || step.ReceiveAck?
    ensures Inv(Do(cfg, s, step))
  {
    hide StreamFits, RowsFit, RawFits, CallsFit, BatchesFit, NothingLost, ReturnTasks, AckTasks;
    match step
    case LoseConnection(at) =>
      ReturnTasksFit(s.broker, s.phone, at);
      MoreTasks(s.broker, s.tasks, ReturnTasks(s.phone, at));
      PhoneMemoryKeeps(s, Do(cfg, s, step));
    case ReceiveAck(i, at) =>
      if i < |s.acks| {
        AckTasksFit(s.broker, s.acks[i].settled, s.acks[i].rejected, at);
        MoreTasks(s.broker, s.tasks, AckTasks(s.acks[i].settled, s.acks[i].rejected, at));
        PhoneMemoryKeeps(s, Do(cfg, s, step));
      }
    case _ => PhoneMemoryKeeps(s, Do(cfg, s, step));
  }

  lemma DoKeeps(cfg: Config, s: State, step: Step)
    requires Inv(s)
    ensures Inv(Do(cfg, s, step))
  {
    hide Inv, RunTask, DoLoad, DoClaim, DoSend, DoStartCall, DoAdvanceCall, DoAnswerCall, DoDeliver, DoEnqueue, RowIds,
         CleanupOld, ClearFailed, RetryFailed, ReturnTasks, AckTasks;
    match step
    case Enqueue(e, at) => EnqueueKeeps(s, e, at);
    case CheckSend => CheckKeeps(cfg, s);
    case LoadPoints(i) => if i < |s.senders| { LoadKeeps(s, i); }
    case ClaimPoints(i) => if i < |s.senders| { ClaimKeeps(s, i); }
    case SendPoints(i, sent, at) => if i < |s.senders| { SendKeeps(s, i, sent, at); }
    case RunPhoneTask(i) => if i < |s.tasks| { RunPhoneTaskKeeps(cfg, s, i); }
    case CleanupPoints(cutoff) => CleanupKeeps(cfg, s, cutoff);
    case ClearFailedPoints => ClearFailedKeeps(cfg, s);
    case RetryFailedPoints(at) => RetryPointsKeeps(cfg, s, at);
    case StartCall(i, sessionId, at) => if i < |s.batches| { StartBatchKeeps(cfg, s, i, sessionId, at); }
    case AdvanceCall(i, o) => if i < |s.calls| { AdvanceCallKeeps(cfg, s, i, o); }
    case AnswerCall(i) => if i < |s.calls| { AnswerCallKeeps(s, i); }
    case KillCall(i) => if i < |s.calls| { KillCallKeeps(cfg, s, i); }
    case ForgetRecent(ids) => ForgetRecentKeeps(cfg, s, ids);
    case Deliver(i, dbUp, busUp, ackArrives) =>
      if i < |s.broker.stream| { DeliverKeeps(s, i, dbUp, busUp, ackArrives); }
    case _ => ConnectionKeeps(cfg, s, step);
  }

  lemma CheckKeeps(cfg: Config, s: State)
    requires Inv(s)
    ensures Inv(Do(cfg, s, CheckSend))
  {
    if MaySend(s.phone) {
      assert SendersFit(s.queued, s.senders + [Checked]);
      PhoneMemoryKeeps(s, Do(cfg, s, CheckSend));
    }
  }

  lemma ReturnTasksFit(b: Broker, p: Phone, at: Time)
    ensures TasksFit(b, ReturnTasks(p, at))
  {
  }

  // Only the phone's memory and its pending tasks change.
  lemma PhoneMemoryKeeps(s: State, after: State)
    requires Inv(s) && TasksFit(s.broker, after.tasks) && after.phone.rows == s.phone.rows
    requires after == s.(phone := after.phone, tasks := after.tasks, senders := after.senders)
    requires SendersFit(s.queued, after.senders)
    ensures Inv(after)
  {
    hide StreamFits, RowsFit, RawFits, CallsFit, BatchesFit, AcksFit;
  }

  lemma RetryPointsKeeps(cfg: Config, s: State, at: Time)
    requires Inv(s)
    ensures Inv(Do(cfg, s, RetryFailedPoints(at)))
  {
    hide StreamFits, RowsFit, RawFits, CallsFit, BatchesFit, AcksFit, TasksFit, RowIds, RetryFailed;
    RetryKeeps(s.queued, s.broker, s.phone.rows, at);
  }

  lemma {:induction false} ReachKeeps(cfg: Config, steps: seq<Step>)
    ensures Inv(Reach(cfg, steps))
  {
    if steps == [] {
    } else {
      hide Inv, Do;
      ReachKeeps(cfg, steps[..|steps| - 1]);
      DoKeeps(cfg, Reach(cfg, steps[..|steps| - 1]), steps[|steps| - 1]);
    }
  }

  // At every point of every run: what the phone holds or dropped as acknowledged was
  // published, and so was every ledger entry; a queued point leaves the queue only once it is
  // acknowledged or failed.
  lemma {:induction false} AcknowledgedWasPublished(cfg: Config, steps: seq<Step>)
    ensures
      var s := Reach(cfg, steps);
      && (forall i :: 0 <= i < |s.phone.rows| && s.phone.rows[i].status == Status.Acked ==>
          s.broker.Published(s.phone.rows[i].Id()))
      && (forall id :: id in s.droppedAcked ==> s.broker.Published(id))
      && (forall k :: k in s.broker.ledger ==> s.broker.Published(k.event))
      && s.queued.Keys == RowIds(s.phone.rows) + s.droppedAcked + s.droppedFailed
  {
    ReachKeeps(cfg, steps);
    hide Reach, StreamFits, RawFits, CallsFit, TasksFit, BatchesFit, AcksFit, RowIds;
    assert StreamFits(Reach(cfg, steps).queued, Reach(cfg, steps).broker);
    StreamFitsBroker(Reach(cfg, steps).queued, Reach(cfg, steps).broker);
  }

  lemma StreamFitsBroker(q: Queued, b: Broker)
    requires StreamFits(q, b)
    ensures BrokerFits(b)
  {
  }

  lemma LeftOnlyAs(rows: seq<QueuedPoint>, keep: QueuedPoint -> bool, id: EventId)
    requires id in RowIds(rows) && id !in RowIds(Filter(keep, rows))
    ensures exists i :: 0 <= i < |rows| && rows[i].Id() == id && !keep(rows[i])
  {
    FilterKeepsIds(rows, keep);
    hide Filter;
    var p :| p in rows && p.Id() == id && !keep(p);
  }

  // The row with this id in this status.
  ghost predicate HasRow(rows: seq<QueuedPoint>, id: EventId, status: Status) {
    exists i :: 0 <= i < |rows| && rows[i].Id() == id && rows[i].status == status
  }

  // A step that only adds or rewrites rows keeps their ids.
  lemma UpdateKeepsIds(rows: seq<QueuedPoint>, change: QueuedPoint -> QueuedPoint)
    requires forall i :: 0 <= i < |rows| ==> change(rows[i]).Id() == rows[i].Id()
    ensures RowIds(Update(rows, change)) == RowIds(rows)
  {
    var after := Update(rows, change);
    assert forall i :: 0 <= i < |rows| ==> after[i].Id() == rows[i].Id();
    forall id ensures id in RowIds(after) <==> id in RowIds(rows) {
      if id in RowIds(rows) {
        var i :| 0 <= i < |rows| && rows[i].Id() == id;
        assert after[i].Id() == id;
      }
    }
  }

  lemma TaskKeepsIds(p: Phone, t: Task)
    ensures RowIds(RunTask(p, t).rows) == RowIds(p.rows)
  {
    hide Update, RowIds;
    match t
    case AckTask(ids, at) => UpdateKeepsIds(p.rows, (r: QueuedPoint) => AckedOne(r, ids, at));
    case FailTask(id, reason, at) => UpdateKeepsIds(p.rows, (r: QueuedPoint) => FailedOne(r, id, reason, at));
    case ReturnTask(ids, at) => UpdateKeepsIds(p.rows, (r: QueuedPoint) => ReturnedOne(r, ids, at));
    case SettleTask =>
  }

  lemma EnqueueKeepsIds(s: State, e: WireEvent, at: Time)
    ensures RowIds(s.phone.rows) <= RowIds(DoEnqueue(s, e, at).phone.rows)
  {
    RowIdsGrow(s.phone.rows, QueuedPoint(e, Pending, 0, None, at, at));
    hide RowIds;
  }

  // What a step may do to the queue: an id leaves it only as acknowledged, then it is noted so,
  // or as failed, then it is noted so; and nothing else is noted.
  ghost predicate LeavesSettled(s: State, after: State) {
    var before, kept := s.phone.rows, after.phone.rows;
    && (forall id :: id in RowIds(before) && id !in RowIds(kept) ==>
          || (HasRow(before, id, Status.Acked) && id in after.droppedAcked)
          || (HasRow(before, id, Status.Failed) && id in after.droppedFailed))
    && (forall id :: id in after.droppedAcked && id !in s.droppedAcked ==> HasRow(before, id, Status.Acked))
    && (forall id :: id in after.droppedFailed && id !in s.droppedFailed ==> HasRow(before, id, Status.Failed))
    && s.droppedAcked <= after.droppedAcked && s.droppedFailed <= after.droppedFailed
    && (forall i :: 0 <= i < |before| && before[i].status == Pending ==> before[i].Id() in RowIds(kept))
  }

  // Deleting exactly the rows to drop, all of this status, leaves the rest settled.
  lemma DroppingIsSettled(rows: seq<QueuedPoint>, keep: QueuedPoint -> bool, status: Status)
    requires status != Pending && forall p :: !keep(p) ==> p.status == status
    ensures
      var kept := Filter(keep, rows);
      && (forall id :: id in RowIds(rows) - RowIds(kept) ==> HasRow(rows, id, status))
      && (forall i :: 0 <= i < |rows| && rows[i].status == Pending ==> rows[i].Id() in RowIds(kept))
  {
    var kept := Filter(keep, rows);
    hide Filter, RowIds;
    forall id | id in RowIds(rows) - RowIds(kept) ensures HasRow(rows, id, status) {
      LeftOnlyAs(rows, keep, id);
    }
    forall i | 0 <= i < |rows| && rows[i].status == Pending ensures rows[i].Id() in RowIds(kept) {
      KeptHasId(rows, keep, i);
    }
  }

  lemma CleanupLeavesSettled(cfg: Config, s: State, cutoff: Time)
    ensures LeavesSettled(s, Do(cfg, s, CleanupPoints(cutoff)))
  {
    DroppingIsSettled(s.phone.rows, (p: QueuedPoint) => !Expired(p, cutoff), Status.Acked);
    hide Filter, RowIds, HasRow;
  }

  lemma ClearingLeavesSettled(cfg: Config, s: State)
    ensures LeavesSettled(s, Do(cfg, s, ClearFailedPoints))
  {
    DroppingIsSettled(s.phone.rows, (p: QueuedPoint) => p.status != Status.Failed, Status.Failed);
    hide Filter, RowIds, HasRow;
  }

  lemma DoLeavesSettled(cfg: Config, s: State, step: Step)
    ensures LeavesSettled(s, Do(cfg, s, step))
  {
    hide Do, RowIds, HasRow;
    if step.CleanupPoints? {
      CleanupLeavesSettled(cfg, s, step.cutoff);
    } else if step.ClearFailedPoints? {
      ClearingLeavesSettled(cfg, s);
    } else {
      DoKeepsIds(cfg, s, step);
      PendingIsListed(s.phone.rows);
    }
  }

  lemma PendingIsListed(rows: seq<QueuedPoint>)
    ensures forall i :: 0 <= i < |rows| ==> rows[i].Id() in RowIds(rows)
  {
  }

  lemma DoKeepsIds(cfg: Config, s: State, step: Step)
    requires !step.CleanupPoints? && !step.ClearFailedPoints?
    ensures
      var after := Do(cfg, s, step);
      && RowIds(s.phone.rows) <= RowIds(after.phone.rows)
      && after.droppedAcked == s.droppedAcked && after.droppedFailed == s.droppedFailed
  {
    hide RowIds, GetPending, ParseLocationEvents, JobStep, RunTask, AckTasks, ReturnTasks, RetryFailed, DoEnqueue,
         Process;
    match step
    case Enqueue(e, at) => EnqueueKeepsIds(s, e, at); EnqueueDropsNone(s, e, at);
    case RunPhoneTask(i) => if i < |s.tasks| { TaskKeepsIds(s.phone, s.tasks[i]); }
    case RetryFailedPoints(at) => RetryKeepsIds(s.phone.rows, at);
    case _ =>
  }

  lemma EnqueueDropsNone(s: State, e: WireEvent, at: Time)
    ensures DoEnqueue(s, e, at).droppedAcked == s.droppedAcked && DoEnqueue(s, e, at).droppedFailed == s.droppedFailed
  {
  }

  lemma RetryKeepsIds(rows: seq<QueuedPoint>, at: Time)
    ensures RowIds(RetryFailed(rows, at)) == RowIds(rows)
  {
    UpdateKeepsIds(rows, (p: QueuedPoint) => RetriedOne(p, at));
    hide RowIds;
  }

  // No step of any run deletes a pending row, and whatever a step does delete was acknowledged
  // or failed in the very state it was deleted from.
  lemma {:induction false} UnsettledIsNeverDeleted(cfg: Config, steps: seq<Step>, step: Step)
    ensures LeavesSettled(Reach(cfg, steps), Reach(cfg, steps + [step]))
  {
    assert (steps + [step])[..|steps|] == steps;
    hide Do, LeavesSettled;
    DoLeavesSettled(cfg, Reach(cfg, steps), step);
  }

  // A newly queued point is in the queue.
  lemma QueuedBefore(cfg: Config, s: State, step: Step, id: EventId)
    requires id !in RowIds(Do(cfg, s, step).phone.rows) && id in Do(cfg, s, step).queued
    ensures id in s.queued
  {
    if step.Enqueue? {
      EnqueuedIsListed(s, step.event, step.at);
      hide DoEnqueue, RowIds;
    } else {
      hide GetPending, ParseLocationEvents, JobStep, RunTask, AckTasks, ReturnTasks, RetryFailed, Process, CleanupOld,
           ClearFailed, RowIds;
    }
  }

  lemma EnqueuedIsListed(s: State, e: WireEvent, at: Time)
    ensures
      var after := DoEnqueue(s, e, at);
      after.queued.Keys <= s.queued.Keys + RowIds(after.phone.rows)
  {
    if e.eventId !in s.queued {
      var row := QueuedPoint(e, Pending, 0, None, at, at);
      RowIdsGrow(s.phone.rows, row);
      RowIdsHold(s.phone.rows, e.eventId);
      hide RowIds, HasPoint;
    }
  }

  // Over every run: a queued point that is no longer in the queue left it at one moment n, as
  // an acknowledged or a failed row.
  lemma {:induction false} MissingWasSettled(cfg: Config, steps: seq<Step>, id: EventId) returns (n: nat)
    requires id in Reach(cfg, steps).queued && id !in RowIds(Reach(cfg, steps).phone.rows)
    ensures n < |steps|
    ensures
      var before, after := Reach(cfg, steps[..n]).phone.rows, Reach(cfg, steps[..n + 1]).phone.rows;
      && (HasRow(before, id, Status.Acked) || HasRow(before, id, Status.Failed))
      && id !in RowIds(after)
  {
    hide Do, RowIds, HasRow;
    var front, step := steps[..|steps| - 1], steps[|steps| - 1];
    if id in RowIds(Reach(cfg, front).phone.rows) {
      n := |steps| - 1;
      assert steps[..n + 1] == steps;
      DoLeavesSettled(cfg, Reach(cfg, front), step);
    } else {
      QueuedBefore(cfg, Reach(cfg, front), step, id);
      n := MissingWasSettled(cfg, front, id);
      assert front[..n] == steps[..n] && front[..n + 1] == steps[..n + 1];
    }
  }

  // At every point of every run: the raw table holds, under each key, the position and time
  // the phone queued for that event; nothing from the gateway is ever dead-lettered; and a
  // message the worker has acknowledged is in the table.
  lemma {:induction false} RawHoldsWhatWasQueued(cfg: Config, steps: seq<Step>)
    ensures
      var s := Reach(cfg, steps);
      && (forall k :: k in s.raw ==>
            && k.event in s.queued && s.raw[k].key == k
            && s.raw[k].position == s.queued[k.event].position
            && Some(s.raw[k].recordedAt) == s.queued[k.event].recordedAt
            && s.raw[k].PassesChecks())
      && (forall i :: i in s.confirmed ==> i < |s.broker.stream| && s.broker.stream[i].KeyOf() in s.raw)
      && s.deadLetters == 0
  {
    ReachKeeps(cfg, steps);
    var s := Reach(cfg, steps);
    hide Reach, RowsFit, NothingLost, CallsFit, TasksFit, BatchesFit, AcksFit, BrokerFits;
    forall k | k in s.raw
      ensures k.event in s.queued && s.raw[k].key == k && s.raw[k].position == s.queued[k.event].position
      ensures Some(s.raw[k].recordedAt) == s.queued[k.event].recordedAt && s.raw[k].PassesChecks()
    {
      var i :| 0 <= i < |s.broker.stream| && s.broker.stream[i].KeyOf() == k
          && s.raw[k] == MapPayloadToPoint(s.broker.stream[i]);
      assert KnownMessage(s.queued, s.broker.stream[i]);
    }
  }

  // A stored row is never changed or removed by anything that happens later: redelivery,
  // resending and retries have no second effect.
  lemma {:induction false} StoredOnce(cfg: Config, steps: seq<Step>, more: seq<Step>)
    ensures
      var s, after := Reach(cfg, steps), Reach(cfg, steps + more);
      forall k :: k in s.raw ==> k in after.raw && after.raw[k] == s.raw[k]
  {
    if more == [] {
      assert steps + more == steps;
    } else {
      hide Do;
      var front := more[..|more| - 1];
      assert (steps + more)[..|steps + more| - 1] == steps + front;
      StoredOnce(cfg, steps, front);
      DoKeepsRaw(cfg, Reach(cfg, steps + front), more[|more| - 1]);
    }
  }

  lemma DoKeepsRaw(cfg: Config, s: State, step: Step)
    ensures forall k :: k in s.raw ==> k in Do(cfg, s, step).raw && Do(cfg, s, step).raw[k] == s.raw[k]
  {
    hide GetPending, ParseLocationEvents, JobStep, RunTask, AckTasks, ReturnTasks, CleanupOld, ClearFailed,
         RetryFailed, RowIds,
         InsertPoint, MapPayloadToPoint, IsProcessable;
  }

  // ---- one owner ----

  // Everything travels under one user and device.
  ghost predicate OwnedBy(o: Owner, s: State) {
    && (s.phone.session.Some? ==> s.phone.session.value == o)
    && (forall i :: 0 <= i < |s.batches| ==> s.batches[i].owner == o)
    && (forall i :: 0 <= i < |s.calls| ==> s.calls[i].job.session.owner == o)
    && (forall i :: 0 <= i < |s.broker.stream| ==> s.broker.stream[i].payload.owner == o)
    && (forall k :: k in s.broker.ledger ==> k.owner == o)
  }

  predicate SessionsOf(o: Owner, steps: seq<Step>) {
    forall i :: 0 <= i < |steps| && steps[i].OpenSession? ==> steps[i].owner == o
  }

  lemma AdvanceKeepsOwner(cfg: Config, o: Owner, s: State, i: nat, outcome: Outcome)
    requires OwnedBy(o, s) && Inv(s) && i < |s.calls|
    ensures OwnedBy(o, DoAdvanceCall(cfg, s, i, outcome))
  {
    var call := s.calls[i];
    assert CallFits(s.queued, s.broker, call);
    if call.job.todo != [] {
      var after := JobStep(cfg.producer, call.job, s.broker, outcome);
      JobStepKeeps(cfg.producer, call.job, s.broker, outcome);
      StepOwner(cfg.producer, call.job, s.broker, outcome);
      WithoutHolds(s.calls, i);
      hide JobStep, Inv, BrokerFits, JobFits, CallFits, Carries;
      forall k | 0 <= k < |after.broker.stream| ensures after.broker.stream[k].payload.owner == o {
        if k < |s.broker.stream| {
          assert after.broker.stream[k] == s.broker.stream[k];
        } else {
          CarriesOwner(after.broker.stream[k], call.job.todo[0], o);
        }
      }
    }
  }

  lemma CarriesOwner(e: Envelope, ev: LocationEvent, o: Owner)
    requires Carries(e, ev, o)
    ensures e.payload.owner == o
  {
  }

  lemma StepOwner(producer: string, job: Job, b: Broker, o: Outcome)
    requires job.todo != [] && JobFits(b, job)
    ensures
      var after := JobStep(producer, job, b, o);
      && (after.job.Some? ==> after.job.value.session == job.session)
      && (forall k :: k in after.broker.ledger ==> k in b.ledger || k.owner == job.session.owner)
  {
    hide ValidateLocationEvent, EnvelopeOf, AllPublished;
  }

  lemma DoKeepsOwner(cfg: Config, o: Owner, s: State, step: Step)
    requires OwnedBy(o, s) && Inv(s) && (step.OpenSession? ==> step.owner == o)
    ensures OwnedBy(o, Do(cfg, s, step))
  {
    hide Inv, ParseLocationEvents, JobStep, RunTask, AckTasks, ReturnTasks, CleanupOld, ClearFailed, RetryFailed,
         RowIds, InsertPoint, Process, GetPending, DoAdvanceCall, DoLoad, DoClaim, DoSend, Without, DoEnqueue;
    match step
    case Enqueue(e, at) => EnqueueKeepsOwner(o, s, e, at);
    case LoadPoints(i) => if i < |s.senders| { SendKeepsOwner(o, s, i, true, 0); }
    case ClaimPoints(i) => if i < |s.senders| { SendKeepsOwner(o, s, i, true, 0); }
    case SendPoints(i, sent, at) => if i < |s.senders| { SendKeepsOwner(o, s, i, sent, at); }
    case AdvanceCall(i, outcome) => if i < |s.calls| { AdvanceKeepsOwner(cfg, o, s, i, outcome); }
    case AnswerCall(i) => if i < |s.calls| { WithoutHolds(s.calls, i); }
    case KillCall(i) => if i < |s.calls| { WithoutHolds(s.calls, i); }
    case RunPhoneTask(i) => if i < |s.tasks| { RunTaskSession(s.phone, s.tasks[i]); }
    case _ =>
  }

  lemma SendKeepsOwner(o: Owner, s: State, i: nat, sent: bool, at: Time)
    requires OwnedBy(o, s) && i < |s.senders|
    ensures OwnedBy(o, DoLoad(s, i)) && OwnedBy(o, DoClaim(s, i)) && OwnedBy(o, DoSend(s, i, sent, at))
  {
    hide GetPending, ReturnTasks, Without;
  }

  lemma EnqueueKeepsOwner(o: Owner, s: State, e: WireEvent, at: Time)
    requires OwnedBy(o, s)
    ensures OwnedBy(o, DoEnqueue(s, e, at))
  {
    hide InsertPoint;
  }

  lemma RunTaskSession(p: Phone, t: Task)
    ensures RunTask(p, t).session == p.session
  {
  }

  lemma {:induction false} ReachKeepsOwner(cfg: Config, o: Owner, steps: seq<Step>)
    requires SessionsOf(o, steps)
    ensures OwnedBy(o, Reach(cfg, steps))
  {
    if steps == [] {
    } else {
      hide OwnedBy, Do;
      var front := steps[..|steps| - 1];
      ReachKeeps(cfg, front);
      ReachKeepsOwner(cfg, o, front);
      DoKeepsOwner(cfg, o, Reach(cfg, front), steps[|steps| - 1]);
    }
  }

  // A ledger entry whose message is not in the stream under its own key: the very same event
  // id was published under another user or device, whose message took its place.
  lemma {:induction false} LedgerGapIsForeign(cfg: Config, steps: seq<Step>, k: Key)
    requires k in Reach(cfg, steps).broker.ledger
    ensures
      var b := Reach(cfg, steps).broker;
      || b.PublishedKey(k)
      || exists i :: 0 <= i < |b.stream| && b.stream[i].eventId == k.event && b.stream[i].KeyOf().owner != k.owner
  {
    AcknowledgedWasPublished(cfg, steps);
    var b := Reach(cfg, steps).broker;
    hide Reach, RowIds;
    var i :| 0 <= i < |b.stream| && b.stream[i].eventId == k.event;
    if b.stream[i].KeyOf().owner == k.owner {
      assert b.stream[i].KeyOf() == k;
    }
  }

  // As long as all sessions belong to one user and device, a ledger entry names a message
  // stored under that very key (SameIdFromTwoDevices shows what happens otherwise).
  lemma {:induction false} LedgerIsStored(cfg: Config, o: Owner, steps: seq<Step>)
    requires SessionsOf(o, steps)
    ensures
      var s := Reach(cfg, steps);
      forall k :: k in s.broker.ledger ==> s.broker.PublishedKey(k)
  {
    ReachKeepsOwner(cfg, o, steps);
    AcknowledgedWasPublished(cfg, steps);
    var s := Reach(cfg, steps);
    hide Reach, RowIds;
    forall k | k in s.broker.ledger ensures s.broker.PublishedKey(k) {
      var i :| 0 <= i < |s.broker.stream| && s.broker.stream[i].eventId == k.event;
      assert s.broker.stream[i].KeyOf() == k;
    }
  }
}
