// IngestBatch (usecase/tracker_ingestion.go): check the ledger, publish, mark; in that order
// for every event. Calls to the ledger and the broker may fail at every point, and a publish
// may be stored although its acknowledgement is lost.
module Gateway {
  import opened Domain
  import opened Ingestion

  // The dedup ledger, the stream, and the event ids the stream still recognises as duplicates.
  // The stream's own dedup id is the event id alone (libs/eventbus/nats/jetstream.go).
  datatype Broker = Broker(ledger: set<Key>, stream: seq<Envelope>, recent: set<EventId>)
  {
    // A message whose id was seen recently is acknowledged but not stored again.
    function Publish(e: Envelope): Broker {
      if e.eventId in recent then this
      else this.(stream := stream + [e], recent := recent + {e.eventId})
    }

    ghost predicate Published(id: EventId) {
      exists i :: 0 <= i < |stream| && stream[i].eventId == id
    }

    ghost predicate PublishedKey(key: Key) {
      exists i :: 0 <= i < |stream| && stream[i].KeyOf() == key
    }
  }

  datatype BatchResult = BatchResult(accepted: seq<EventId>, duplicated: seq<EventId>, rejected: seq<Rejection>)

  const NO_RESULT := BatchResult([], [], [])

  const EVENT_BUS_UNAVAILABLE := "EVENT_BUS_UNAVAILABLE"

  // Where one call of IngestBatch stands with the event at the head of its list.
  datatype Phase = Checking | Publishing(envelope: Envelope) | Marking(envelope: Envelope)

  datatype Job = Job(session: Session, now: Time, todo: seq<LocationEvent>, phase: Phase, result: BatchResult)
  {
    predicate IsDone() {
      todo == [] && phase.Checking?
    }

    function Accept(): Job
      requires todo != []
    {
      this.(todo := todo[1..], phase := Checking, result := result.(accepted := result.accepted + [todo[0].eventId]))
    }

    function Duplicate(): Job
      requires todo != []
    {
      this.(todo := todo[1..], phase := Checking,
          result := result.(duplicated := result.duplicated + [todo[0].eventId]))
    }

    function Reject(reason: string): Job
      requires todo != []
    {
      this.(todo := todo[1..], phase := Checking,
            result := result.(rejected := result.rejected + [Rejection(todo[0].eventId, reason)]))
    }
  }

  // How the outside world answers: lookup, publish and mark for one event.
  datatype PublishOutcome = Acked | Lost(stored: bool) | Broken

  datatype Outcome = Outcome(lookedUp: bool, publish: PublishOutcome, marked: bool)

  // What is left of a job after one step: nothing once it was aborted.
  datatype Stepped = Stepped(job: Option<Job>, broker: Broker)

  function CheckStep(producer: string, job: Job, b: Broker, o: Outcome): Stepped
    requires job.todo != [] && job.phase.Checking?
  {
    var ev := job.todo[0];
    var reason := ValidateLocationEvent(ev);
    if reason != "" then Stepped(Some(job.Reject(reason)), b)
    else if !o.lookedUp then Stepped(None, b)
    else if Key(job.session.owner, ev.eventId) in b.ledger then Stepped(Some(job.Duplicate()), b)
    else
      var envelope := EnvelopeOf(job.session, job.now, producer, ev);
      if envelope.None? then Stepped(Some(job.Reject("invalid event")), b)
      else Stepped(Some(job.(phase := Publishing(envelope.value))), b)
  }

  function PublishStep(job: Job, b: Broker, o: Outcome): Stepped
    requires job.todo != [] && job.phase.Publishing?
  {
    match o.publish
    case Acked => Stepped(Some(job.(phase := Marking(job.phase.envelope))), b.Publish(job.phase.envelope))
    case Lost(stored) =>
      Stepped(Some(job.Reject(EVENT_BUS_UNAVAILABLE)), if stored then b.Publish(job.phase.envelope) else b)
    case Broken => Stepped(None, b)
  }

  // A failed mark is not fatal: the publish was already confirmed.
  function MarkStep(job: Job, b: Broker, o: Outcome): Stepped
    requires job.todo != [] && job.phase.Marking?
  {
    Stepped(Some(job.Accept()), if o.marked then b.(ledger := b.ledger + {job.phase.envelope.KeyOf()}) else b)
  }

  function JobStep(producer: string, job: Job, b: Broker, o: Outcome): Stepped
    requires job.todo != []
  {
    match job.phase
    case Checking => CheckStep(producer, job, b, o)
    case Publishing(_) => PublishStep(job, b, o)
    case Marking(_) => MarkStep(job, b, o)
  }

  // All steps for the event at the head.
  function IngestEvent(producer: string, job: Job, b: Broker, o: Outcome): Stepped
    requires job.todo != [] && job.phase.Checking?
  {
    var checked := CheckStep(producer, job, b, o);
    if checked.job.None? || checked.job.value.phase.Checking? then checked
    else
      var published := PublishStep(checked.job.value, checked.broker, o);
      if published.job.None? || published.job.value.phase.Checking? then published
      else MarkStep(published.job.value, published.broker, o)
  }

  // The first n events of the batch.
  function IngestFirst(producer: string, job: Job, b: Broker, outcomes: seq<Outcome>, n: nat): (s: Stepped)
    requires job.phase.Checking? && n <= |job.todo| <= |outcomes|
    ensures s.job.Some? ==> s.job.value.todo == job.todo[n..] && s.job.value.phase.Checking?
  {
    if n == 0 then Stepped(Some(job), b)
    else
      var before := IngestFirst(producer, job, b, outcomes, n - 1);
      if before.job.None? then before else IngestEvent(producer, before.job.value, before.broker, outcomes[n - 1])
  }

  datatype IngestError = BatchTooLarge | Failed

  datatype Ingested = Ingested(result: Option<BatchResult>, error: Option<IngestError>, broker: Broker)

  function Ingest(producer: string, maxBatch: int, s: Session, now: Time, events: seq<LocationEvent>,
                       b: Broker, outcomes: seq<Outcome>): Ingested
    requires |events| <= |outcomes|
  {
    if |events| > maxBatch then Ingested(None, Some(BatchTooLarge), b)
    else
      var after := IngestFirst(producer, Job(s, now, events, Checking, NO_RESULT), b, outcomes, |events|);
      if after.job.None? then Ingested(None, Some(Failed), after.broker)
      else Ingested(Some(after.job.value.result), None, after.broker)
  }

  class Gateway {
    const producer: string
    const maxBatch: int
    var ledger: set<Key>
    var stream: seq<Envelope>
    var recent: set<EventId>
    var accepted: seq<EventId>
    var duplicated: seq<EventId>
    var rejected: seq<Rejection>

    ghost function State(): Broker
      reads this
    {
      Broker(ledger, stream, recent)
    }

    ghost function Result(): BatchResult
      reads this
    {
      BatchResult(accepted, duplicated, rejected)
    }

    constructor (producer: string, maxBatch: int)
      ensures this.producer == producer && this.maxBatch == maxBatch && State() == Broker({}, [], {})
    {
      this.producer, this.maxBatch := producer, maxBatch;
      ledger, stream, recent := {}, [], {};
      accepted, duplicated, rejected := [], [], [];
    }

    method Publish(e: Envelope, o: PublishOutcome)
      modifies `stream, `recent
      ensures State() == if o == Acked || o == Lost(true) then old(State()).Publish(e) else old(State())
    {
      if (o == Acked || o == Lost(true)) && e.eventId !in recent {
        stream := stream + [e];
        recent := recent + {e.eventId};
      }
    }

    // The loop body: false when the whole call is abandoned.
    method IngestOne(s: Session, now: Time, ev: LocationEvent, o: Outcome, ghost job: Job) returns (ok: bool)
      requires job == Job(s, now, job.todo, Checking, Result()) && job.todo != [] && job.todo[0] == ev
      modifies this
      ensures
        var after := IngestEvent(producer, job, old(State()), o);
        && after.broker == State() && ok == after.job.Some?
        && (ok ==> after.job.value.result == Result() && after.job.value.session == s && after.job.value.now == now)
    {
      var reason := ValidateLocationEvent(ev);
      if reason != "" {
        rejected := rejected + [Rejection(ev.eventId, reason)];
        return true;
      }
      if !o.lookedUp {
        return false;
      }
      if Key(s.owner, ev.eventId) in ledger {
        duplicated := duplicated + [ev.eventId];
        return true;
      }
      var envelope := EnvelopeOf(s, now, producer, ev);
      if envelope.None? {
        rejected := rejected + [Rejection(ev.eventId, "invalid event")];
        return true;
      }
      Publish(envelope.value, o.publish);
      match o.publish {
        case Lost(_) =>
          rejected := rejected + [Rejection(ev.eventId, EVENT_BUS_UNAVAILABLE)];
          return true;
        case Broken => return false;
        case Acked =>
      }
      if o.marked {
        ledger := ledger + {envelope.value.KeyOf()};
      }
      accepted := accepted + [ev.eventId];
      return true;
    }

    method IngestBatch(s: Session, now: Time, events: seq<LocationEvent>, outcomes: seq<Outcome>)
      returns (result: Option<BatchResult>, error: Option<IngestError>)
      requires |events| <= |outcomes|
      modifies this
      ensures Ingested(result, error, State())
              == Ingest(producer, maxBatch, s, now, events, old(State()), outcomes)
    {
      if |events| > maxBatch {
        return None, Some(BatchTooLarge);
      }
      accepted, duplicated, rejected := [], [], [];
      ghost var job := Job(s, now, events, Checking, NO_RESULT);
      for i := 0 to |events|
        invariant
          var done := IngestFirst(producer, job, old(State()), outcomes, i);
          && done.broker == State() && done.job == Some(Job(s, now, events[i..], Checking, Result()))
      {
        var ok := IngestOne(s, now, events[i], outcomes[i], Job(s, now, events[i..], Checking, Result()));
        if !ok {
          AbortedStaysAborted(producer, job, old(State()), outcomes, i + 1, |events|);
          return None, Some(Failed);
        }
      }
      return Some(BatchResult(accepted, duplicated, rejected)), None;
    }
  }

  lemma {:induction false} AbortedStaysAborted(producer: string, job: Job, b: Broker, outcomes: seq<Outcome>, m: nat,
                                               n: nat)
    requires job.phase.Checking? && m <= n <= |job.todo| <= |outcomes|
    requires IngestFirst(producer, job, b, outcomes, m).job.None?
    ensures IngestFirst(producer, job, b, outcomes, n) == IngestFirst(producer, job, b, outcomes, m)
  {
    hide IngestEvent;
    if m < n {
      AbortedStaysAborted(producer, job, b, outcomes, m, n - 1);
    }
  }

  // ---- one call ----

  function Ids(events: seq<LocationEvent>): seq<EventId> {
    seq(|events|, i requires 0 <= i < |events| => events[i].eventId)
  }

  function RejectedIds(rejected: seq<Rejection>): seq<EventId> {
    seq(|rejected|, i requires 0 <= i < |rejected| => rejected[i].eventId)
  }

  function Answered(r: BatchResult): multiset<EventId> {
    multiset(r.accepted) + multiset(r.duplicated) + multiset(RejectedIds(r.rejected))
  }

  lemma OneMoreAnswer(job: Job, reason: string)
    requires job.todo != []
    ensures Answered(job.Accept().result) == Answered(job.result) + multiset{job.todo[0].eventId}
    ensures Answered(job.Duplicate().result) == Answered(job.result) + multiset{job.todo[0].eventId}
    ensures Answered(job.Reject(reason).result) == Answered(job.result) + multiset{job.todo[0].eventId}
  {
    var r := job.result.rejected;
    assert RejectedIds(r + [Rejection(job.todo[0].eventId, reason)]) == RejectedIds(r) + [job.todo[0].eventId];
  }

  lemma IngestEventAnswers(producer: string, job: Job, b: Broker, o: Outcome)
    requires job.todo != [] && job.phase.Checking?
    ensures
      var after := IngestEvent(producer, job, b, o);
      after.job.Some? ==>
        && after.job.value.todo == job.todo[1..]
        && Answered(after.job.value.result) == Answered(job.result) + multiset{job.todo[0].eventId}
  {
    hide Answered, ValidateLocationEvent, EnvelopeOf;
    OneMoreAnswer(job, ValidateLocationEvent(job.todo[0]));
    OneMoreAnswer(job, EVENT_BUS_UNAVAILABLE);
    OneMoreAnswer(job, "invalid event");
  }

  lemma {:induction false} IngestFirstAnswers(producer: string, job: Job, b: Broker, outcomes: seq<Outcome>, n: nat)
    requires job.phase.Checking? && n <= |job.todo| <= |outcomes|
    ensures
      var after := IngestFirst(producer, job, b, outcomes, n);
      after.job.Some? ==>
        Answered(after.job.value.result) == Answered(job.result) + multiset(Ids(job.todo[..n]))
  {
    hide Answered, IngestEvent;
    if n == 0 {
      assert Ids(job.todo[..0]) == [];
    } else {
      var before := IngestFirst(producer, job, b, outcomes, n - 1);
      IngestFirstAnswers(producer, job, b, outcomes, n - 1);
      assert Ids(job.todo[..n]) == Ids(job.todo[..n - 1]) + [job.todo[n - 1].eventId];
      if before.job.Some? {
        IngestEventAnswers(producer, before.job.value, before.broker, outcomes[n - 1]);
      }
    }
  }

  // An answered batch answers every event exactly once: accepted, duplicated or rejected.
  lemma {:induction false} EveryEventIsAnswered(producer: string, maxBatch: int, s: Session, now: Time,
                                                events: seq<LocationEvent>, b: Broker, outcomes: seq<Outcome>)
    requires |events| <= |outcomes|
    ensures
      var r := Ingest(producer, maxBatch, s, now, events, b, outcomes);
      r.result.Some? ==> Answered(r.result.value) == multiset(Ids(events))
  {
    IngestFirstAnswers(producer, Job(s, now, events, Checking, NO_RESULT), b, outcomes, |events|);
    assert events[..|events|] == events;
  }

  // ---- what every step keeps, however the calls of many sessions interleave ----

  ghost predicate AllPublished(b: Broker, ids: seq<EventId>) {
    forall i :: 0 <= i < |ids| ==> b.Published(ids[i])
  }

  // The ledger and the stream's duplicate window name only published events.
  ghost predicate BrokerFits(b: Broker) {
    && (forall k :: k in b.ledger ==> b.Published(k.event))
    && (forall id :: id in b.recent ==> b.Published(id))
  }

  ghost predicate JobFits(b: Broker, job: Job) {
    && AllPublished(b, job.result.accepted) && AllPublished(b, job.result.duplicated)
    && (!job.phase.Checking? ==> job.todo != [] && Carries(job.phase.envelope, job.todo[0], job.session.owner))
    && (job.phase.Marking? ==> b.Published(job.phase.envelope.eventId))
  }

  // The stream only grows.
  lemma PublishedStays(b: Broker, after: Broker, id: EventId)
    requires b.stream <= after.stream && b.Published(id)
    ensures after.Published(id)
  {
    var i :| 0 <= i < |b.stream| && b.stream[i].eventId == id;
    assert after.stream[i] == b.stream[i];
  }

  lemma AllPublishedStays(b: Broker, after: Broker, ids: seq<EventId>)
    requires b.stream <= after.stream && AllPublished(b, ids)
    ensures AllPublished(after, ids)
  {
    forall i | 0 <= i < |ids| ensures after.Published(ids[i]) {
      PublishedStays(b, after, ids[i]);
    }
  }

  lemma PublishKeepsBroker(b: Broker, e: Envelope)
    requires BrokerFits(b)
    ensures BrokerFits(b.Publish(e)) && b.Publish(e).Published(e.eventId) && b.stream <= b.Publish(e).stream
  {
    var after := b.Publish(e);
    if e.eventId !in b.recent {
      assert after.stream[|b.stream|] == e;
    }
    forall k | k in b.ledger ensures after.Published(k.event) {
      PublishedStays(b, after, k.event);
    }
    forall id | id in after.recent ensures after.Published(id) {
      if id in b.recent {
        PublishedStays(b, after, id);
      }
    }
  }

  // Each message a step adds carries the event the job is at.
  ghost predicate Adds(b: Broker, after: Broker, job: Job)
    requires job.todo != []
  {
    && b.stream <= after.stream
    && forall i :: |b.stream| <= i < |after.stream| ==> Carries(after.stream[i], job.todo[0], job.session.owner)
  }

  lemma CheckStepKeeps(producer: string, job: Job, b: Broker, o: Outcome)
    requires job.todo != [] && job.phase.Checking? && BrokerFits(b) && JobFits(b, job)
    ensures CheckStep(producer, job, b, o).broker == b
    ensures CheckStep(producer, job, b, o).job.Some? ==> JobFits(b, CheckStep(producer, job, b, o).job.value)
  {
    var ev := job.todo[0];
    if ValidateLocationEvent(ev) == "" {
      ValidEventsArePublishable(job.session, job.now, producer, ev);
      hide ValidateLocationEvent, EnvelopeOf, Carries;
      if Key(job.session.owner, ev.eventId) in b.ledger {
        assert b.Published(ev.eventId);
      }
    }
    hide ValidateLocationEvent, EnvelopeOf, Carries;
  }

  lemma PublishStepKeeps(job: Job, b: Broker, o: Outcome)
    requires job.todo != [] && job.phase.Publishing? && BrokerFits(b) && JobFits(b, job)
    ensures
      var after := PublishStep(job, b, o);
      && BrokerFits(after.broker) && Adds(b, after.broker, job)
      && (after.job.Some? ==> JobFits(after.broker, after.job.value))
  {
    hide Carries, BrokerFits;
    var after := PublishStep(job, b, o).broker;
    PublishKeepsBroker(b, job.phase.envelope);
    AllPublishedStays(b, after, job.result.accepted);
    AllPublishedStays(b, after, job.result.duplicated);
  }

  lemma MarkStepKeeps(job: Job, b: Broker, o: Outcome)
    requires job.todo != [] && job.phase.Marking? && BrokerFits(b) && JobFits(b, job)
    ensures
      var after := MarkStep(job, b, o);
      && BrokerFits(after.broker) && after.broker.stream == b.stream
      && after.job.Some? && JobFits(after.broker, after.job.value)
  {
    var after := MarkStep(job, b, o).broker;
    assert job.todo[0].eventId == job.phase.envelope.eventId;
    hide Carries;
    forall id | b.Published(id) ensures after.Published(id) {
      PublishedStays(b, after, id);
    }
    AllPublishedStays(b, after, job.result.accepted);
    AllPublishedStays(b, after, job.result.duplicated);
  }

  lemma {:induction false} JobStepKeeps(producer: string, job: Job, b: Broker, o: Outcome)
    requires job.todo != [] && BrokerFits(b) && JobFits(b, job)
    ensures
      var after := JobStep(producer, job, b, o);
      && BrokerFits(after.broker) && Adds(b, after.broker, job)
      && (after.job.Some? ==> JobFits(after.broker, after.job.value))
  {
    hide BrokerFits, JobFits, Carries, CheckStep, PublishStep, MarkStep;
    match job.phase
    case Checking => CheckStepKeeps(producer, job, b, o);
    case Publishing(_) => PublishStepKeeps(job, b, o);
    case Marking(_) => MarkStepKeeps(job, b, o);
  }

  // ---- the scope of deduplication ----

  // The ledger is scoped by user and device, the stream's duplicate window is not: a message
  // is in the stream under its own key exactly when its id was not recent, or that very key
  // was stored before.
  lemma {:induction false} StoredUnderOwnKey(b: Broker, e: Envelope)
    ensures b.Publish(e).PublishedKey(e.KeyOf()) <==> e.eventId !in b.recent || b.PublishedKey(e.KeyOf())
  {
    if e.eventId !in b.recent {
      assert b.Publish(e).stream[|b.stream|] == e;
    }
  }

  // Two devices reporting the same event id one after the other: both are told it was
  // accepted and both enter the ledger, but the second one's message is nowhere.
  lemma {:induction false} SameIdFromTwoDevices(producer: string, first: Session, second: Session, now: Time,
                                                ev: LocationEvent)
    requires ValidateLocationEvent(ev) == "" && producer != "" && first.id != "" && second.id != "" && now != 0
    requires first.owner != second.owner
    ensures
      var all := [Outcome(true, Acked, true)];
      var one := Ingest(producer, 20, first, now, [ev], Broker({}, [], {}), all);
      var two := Ingest(producer, 20, second, now, [ev], one.broker, all);
      && one.result == two.result == Some(BatchResult([ev.eventId], [], []))
      && Key(second.owner, ev.eventId) in two.broker.ledger
      && !two.broker.PublishedKey(Key(second.owner, ev.eventId))
  {
    var all := [Outcome(true, Acked, true)];
    ValidEventsArePublishable(first, now, producer, ev);
    ValidEventsArePublishable(second, now, producer, ev);
    SingleEvent(producer, first, now, ev, Broker({}, [], {}));
    var b := Ingest(producer, 20, first, now, [ev], Broker({}, [], {}), all).broker;
    hide ValidateLocationEvent, EnvelopeOf, IngestFirst;
    SingleEvent(producer, second, now, ev, b);
  }

  // A batch of one valid new event whose calls all succeed.
  lemma SingleEvent(producer: string, s: Session, now: Time, ev: LocationEvent, b: Broker)
    requires ValidateLocationEvent(ev) == "" && EnvelopeOf(s, now, producer, ev).Some?
    requires Key(s.owner, ev.eventId) !in b.ledger
    ensures
      var e := EnvelopeOf(s, now, producer, ev).value;
      Ingest(producer, 20, s, now, [ev], b, [Outcome(true, Acked, true)])
      == Ingested(Some(BatchResult([ev.eventId], [], [])), None,
                  b.Publish(e).(ledger := b.Publish(e).ledger + {e.KeyOf()}))
  {
    hide ValidateLocationEvent, EnvelopeOf;
    var job := Job(s, now, [ev], Checking, NO_RESULT);
    var all := [Outcome(true, Acked, true)];
    assert IngestFirst(producer, job, b, all, 0) == Stepped(Some(job), b);
    assert IngestFirst(producer, job, b, all, 1) == IngestEvent(producer, job, b, all[0]);
    var e := EnvelopeOf(s, now, producer, ev).value;
    var publishing := job.(phase := Publishing(e));
    assert CheckStep(producer, job, b, all[0]) == Stepped(Some(publishing), b);
    var marking := job.(phase := Marking(e));
    assert PublishStep(publishing, b, all[0]) == Stepped(Some(marking), b.Publish(e));
    assert [] + [ev.eventId] == [ev.eventId];
    assert marking.Accept().result == BatchResult([ev.eventId], [], []);
  }
}
