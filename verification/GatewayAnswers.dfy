// Which answer each event of a batch gets, and why: judged from the event, the ledger the call
// found, and what happened to the events before it.
module GatewayAnswers {
  import opened Domain
  import opened Ingestion
  import opened Gateway

  // One call, the broker it finds, and how the outside world will answer it.
  datatype Call = Call(producer: string, session: Session, now: Time, events: seq<LocationEvent>,
                       outcomes: seq<Outcome>, broker: Broker)

  function Start(c: Call): Job {
    Job(c.session, c.now, c.events, Checking, NO_RESULT)
  }

  function FirstOf(c: Call, n: nat): Stepped
    requires n <= |c.events| <= |c.outcomes|
  {
    IngestFirst(c.producer, Start(c), c.broker, c.outcomes, n)
  }

  // ---- what the answers should be ----

  // Identified and timed, with every number in its range.
  predicate GoodEvent(ev: LocationEvent) {
    && ev.eventId != "" && ev.recordedAt != 0
    && -90.0 <= ev.position.lat <= 90.0 && -180.0 <= ev.position.lon <= 180.0 && ev.accuracyM >= 0.0
    && (ev.speedMps.Some? ==> ev.speedMps.value >= 0.0)
    && (ev.bearingDeg.Some? ==> 0.0 <= ev.bearingDeg.value <= 360.0)
    && (ev.activityType.Some? ==>
          ev.activityType.value in ["walking", "running", "bicycle", "vehicle", "stationary", "unknown"])
    && (ev.activityConfidence.Some? ==> 0.0 <= ev.activityConfidence.value <= 1.0)
    && (ev.batteryLevel.Some? ==> 0.0 <= ev.batteryLevel.value <= 1.0)
  }

  lemma {:induction false} GoodEventsAreValid(ev: LocationEvent)
    ensures ValidateLocationEvent(ev) == "" <==> GoodEvent(ev)
  {
  }

  datatype Answer = Accepted | Duplicated | Rejected | Abandoned

  // The event's key is in the ledger when it is reached: it was there before the call, or an
  // earlier event of the call was accepted under it and marked.
  ghost predicate Known(c: Call, i: nat)
    requires i < |c.events| <= |c.outcomes|
    decreases i, 0
  {
    || Key(c.session.owner, c.events[i].eventId) in c.broker.ledger
    || exists j :: 0 <= j < i && c.events[j].eventId == c.events[i].eventId && Marks(c, j)
  }

  ghost predicate Marks(c: Call, j: nat)
    requires j < |c.events| <= |c.outcomes|
    decreases j, 2
  {
    AnswerAt(c, j) == Accepted && c.outcomes[j].marked
  }

  ghost function AnswerAt(c: Call, i: nat): Answer
    requires i < |c.events| <= |c.outcomes|
    decreases i, 1
  {
    if !GoodEvent(c.events[i]) then Rejected
    else if !c.outcomes[i].lookedUp then Abandoned
    else if Known(c, i) then Duplicated
    else if c.session.id == "" || c.producer == "" || c.now == 0 then Rejected
    else
      match c.outcomes[i].publish
      case Acked => Accepted
      case Lost(_) => Rejected
      case Broken => Abandoned
  }

  // The ids of the first n events that get this answer, in order.
  ghost function IdsWith(c: Call, a: Answer, n: nat): seq<EventId>
    requires n <= |c.events| <= |c.outcomes|
  {
    if n == 0 then []
    else IdsWith(c, a, n - 1) + if AnswerAt(c, n - 1) == a then [c.events[n - 1].eventId] else []
  }

  // ---- one event ----

  // What the event at the head does to answers, ledger and stream.
  lemma OneEvent(producer: string, job: Job, b: Broker, o: Outcome)
    requires job.todo != [] && job.phase.Checking?
    ensures
      var ev, after := job.todo[0], IngestEvent(producer, job, b, o);
      var known := Key(job.session.owner, ev.eventId) in b.ledger;
      var blocked := job.session.id == "" || producer == "" || job.now == 0;
      if !GoodEvent(ev) || (o.lookedUp && !known && (blocked || o.publish.Lost?)) then
        && (exists reason :: after.job == Some(job.Reject(reason))) && after.broker.ledger == b.ledger
      else if !o.lookedUp || (!known && o.publish.Broken?) then after.job.None? && after.broker.ledger == b.ledger
      else if known then after.job == Some(job.Duplicate()) && after.broker == b
      else
        && after.job.Some? && after.job.value.result == job.Accept().result
        && after.broker.ledger == b.ledger + (if o.marked then {Key(job.session.owner, ev.eventId)} else {})
  {
    GoodEventsAreValid(job.todo[0]);
    hide GoodEvent;
    if ValidateLocationEvent(job.todo[0]) == "" {
      ValidEventsArePublishable(job.session, job.now, producer, job.todo[0]);
    }
    hide ValidateLocationEvent, EnvelopeOf;
    var reason, after := ValidateLocationEvent(job.todo[0]), IngestEvent(producer, job, b, o);
    if reason != "" {
      assert after.job == Some(job.Reject(reason));
    } else if o.lookedUp && Key(job.session.owner, job.todo[0].eventId) !in b.ledger {
      if EnvelopeOf(job.session, job.now, producer, job.todo[0]).None? {
        assert after.job == Some(job.Reject("invalid event"));
      } else if o.publish.Lost? {
        assert after.job == Some(job.Reject(EVENT_BUS_UNAVAILABLE));
      }
    }
  }

  // Nothing is added to the stream for an event whose key is known, and what is added carries
  // the event.
  lemma OneEventPublishes(producer: string, job: Job, b: Broker, o: Outcome)
    requires job.todo != [] && job.phase.Checking?
    ensures
      var ev, after := job.todo[0], IngestEvent(producer, job, b, o).broker;
      && b.stream <= after.stream
      && (forall i :: |b.stream| <= i < |after.stream| ==>
            && after.stream[i].KeyOf() == Key(job.session.owner, ev.eventId)
            && GoodEvent(ev) && Key(job.session.owner, ev.eventId) !in b.ledger)
  {
    GoodEventsAreValid(job.todo[0]);
    hide GoodEvent;
    if ValidateLocationEvent(job.todo[0]) == "" {
      ValidEventsArePublishable(job.session, job.now, producer, job.todo[0]);
    }
    hide ValidateLocationEvent, EnvelopeOf;
  }

  // ---- the whole batch ----

  ghost predicate LedgerFits(c: Call, n: nat, ledger: set<Key>)
    requires n <= |c.events| <= |c.outcomes|
  {
    forall k :: k in ledger <==>
      k in c.broker.ledger || exists j :: 0 <= j < n && k == Key(c.session.owner, c.events[j].eventId) && Marks(c, j)
  }

  lemma LedgerKnows(c: Call, n: nat, ledger: set<Key>)
    requires n < |c.events| <= |c.outcomes| && LedgerFits(c, n, ledger)
    ensures Key(c.session.owner, c.events[n].eventId) in ledger <==> Known(c, n)
  {
    hide AnswerAt, Marks;
  }

  lemma LedgerOneMore(c: Call, n: nat, ledger: set<Key>)
    requires n < |c.events| <= |c.outcomes| && LedgerFits(c, n, ledger)
    ensures LedgerFits(c, n + 1, if Marks(c, n) then ledger + {Key(c.session.owner, c.events[n].eventId)} else ledger)
  {
    hide AnswerAt, Marks;
  }

  ghost predicate AnsweredSoFar(c: Call, n: nat, r: BatchResult)
    requires n <= |c.events| <= |c.outcomes|
  {
    && r.accepted == IdsWith(c, Accepted, n) && r.duplicated == IdsWith(c, Duplicated, n)
    && RejectedIds(r.rejected) == IdsWith(c, Rejected, n)
  }

  lemma RejectedOneMore(rejected: seq<Rejection>, r: Rejection)
    ensures RejectedIds(rejected + [r]) == RejectedIds(rejected) + [r.eventId]
  {
  }

  // The n-th event, reached with this ledger, gets the answer it should.
  lemma OneMoreAnswered(c: Call, n: nat, job: Job, b: Broker)
    requires n < |c.events| <= |c.outcomes| && LedgerFits(c, n, b.ledger) && AnsweredSoFar(c, n, job.result)
    requires job == Job(c.session, c.now, c.events[n..], Checking, job.result)
    ensures
      var after := IngestEvent(c.producer, job, b, c.outcomes[n]);
      && (after.job.None? <==> AnswerAt(c, n) == Abandoned)
      && (after.job.Some? ==>
            LedgerFits(c, n + 1, after.broker.ledger) && AnsweredSoFar(c, n + 1, after.job.value.result))
  {
    OneEvent(c.producer, job, b, c.outcomes[n]);
    LedgerKnows(c, n, b.ledger);
    LedgerOneMore(c, n, b.ledger);
    forall reason {
      RejectedOneMore(job.result.rejected, Rejection(c.events[n].eventId, reason));
    }
    hide GoodEvent, Known, LedgerFits, IngestEvent, RejectedIds;
  }

  // No event of the first n abandons the call.
  ghost predicate GoesOn(c: Call, n: nat)
    requires n <= |c.events| <= |c.outcomes|
  {
    forall i :: 0 <= i < n ==> AnswerAt(c, i) != Abandoned
  }

  lemma FirstOneMore(c: Call, n: nat)
    requires n < |c.events| <= |c.outcomes|
    ensures
      var before := FirstOf(c, n);
      && (before.job.None? ==> FirstOf(c, n + 1) == before)
      && (before.job.Some? ==>
            && before.job.value.todo == c.events[n..] && before.job.value.phase.Checking?
            && FirstOf(c, n + 1) == IngestEvent(c.producer, before.job.value, before.broker, c.outcomes[n]))
  {
    hide IngestEvent;
  }

  lemma NoneAreAnswered(c: Call)
    requires |c.events| <= |c.outcomes|
    ensures FirstOf(c, 0) == Stepped(Some(Job(c.session, c.now, c.events[0..], Checking, NO_RESULT)), c.broker)
    ensures GoesOn(c, 0) && LedgerFits(c, 0, c.broker.ledger) && AnsweredSoFar(c, 0, NO_RESULT)
  {
    assert c.events[0..] == c.events;
  }

  lemma {:induction false} FirstAreAnswered(c: Call, n: nat)
    requires n <= |c.events| <= |c.outcomes|
    ensures FirstOf(c, n).job.Some? <==> GoesOn(c, n)
    ensures FirstOf(c, n).job.Some? ==>
              && LedgerFits(c, n, FirstOf(c, n).broker.ledger) && AnsweredSoFar(c, n, FirstOf(c, n).job.value.result)
              && FirstOf(c, n).job
                 == Some(Job(c.session, c.now, c.events[n..], Checking, FirstOf(c, n).job.value.result))
  {
    hide AnswerAt, LedgerFits, AnsweredSoFar, IngestEvent, IngestFirst;
    if n == 0 {
      NoneAreAnswered(c);
    } else {
      FirstAreAnswered(c, n - 1);
      FirstOneMore(c, n - 1);
      var before := FirstOf(c, n - 1);
      if before.job.Some? {
        OneMoreAnswered(c, n - 1, before.job.value, before.broker);
        EventKeepsCall(c.producer, before.job.value, before.broker, c.outcomes[n - 1]);
        assert c.events[n - 1..][1..] == c.events[n..];
      }
    }
  }

  lemma EventKeepsCall(producer: string, job: Job, b: Broker, o: Outcome)
    requires job.todo != [] && job.phase.Checking?
    ensures
      var after := IngestEvent(producer, job, b, o).job;
      after.Some? ==> after.value == Job(job.session, job.now, job.todo[1..], Checking, after.value.result)
  {
    hide ValidateLocationEvent, EnvelopeOf;
  }

  // For any batch: the call is answered exactly when it is not too large and no event abandons
  // it. Then each id is answered duplicated, accepted or rejected as its event should be, and
  // the ledger has gained exactly the accepted events that were marked.
  lemma {:induction false} AnswersAreTrue(c: Call, maxBatch: int)
    requires |c.events| <= |c.outcomes|
    ensures
      var r := Ingest(c.producer, maxBatch, c.session, c.now, c.events, c.broker, c.outcomes);
      && (r.result.Some? <==> |c.events| <= maxBatch && GoesOn(c, |c.events|))
      && (r.result.Some? ==>
            AnsweredSoFar(c, |c.events|, r.result.value) && LedgerFits(c, |c.events|, r.broker.ledger))
  {
    FirstAreAnswered(c, |c.events|);
    hide IngestFirst, AnsweredSoFar, LedgerFits, GoesOn;
  }

  lemma {:induction false} ListedExactly(c: Call, a: Answer, n: nat, id: EventId)
    requires n <= |c.events| <= |c.outcomes|
    ensures id in IdsWith(c, a, n) <==> exists i :: 0 <= i < n && c.events[i].eventId == id && AnswerAt(c, i) == a
  {
    hide AnswerAt;
    if n > 0 {
      ListedExactly(c, a, n - 1, id);
    }
  }

  // An id is answered duplicated exactly when a good event has it whose key is in the ledger
  // when it is reached; accepted exactly when a good, unknown one has it that can be published
  // and was acknowledged.
  lemma {:induction false} DuplicatesAreKnown(c: Call, maxBatch: int, id: EventId)
    requires |c.events| <= |c.outcomes|
    requires Ingest(c.producer, maxBatch, c.session, c.now, c.events, c.broker, c.outcomes).result.Some?
    ensures
      var r := Ingest(c.producer, maxBatch, c.session, c.now, c.events, c.broker, c.outcomes).result.value;
      && (id in r.duplicated <==>
            exists i :: 0 <= i < |c.events| && c.events[i].eventId == id && GoodEvent(c.events[i]) && Known(c, i))
      && (id in r.accepted <==>
            exists i :: 0 <= i < |c.events| && c.events[i].eventId == id && GoodEvent(c.events[i]) && !Known(c, i)
                        && c.session.id != "" && c.producer != "" && c.now != 0 && c.outcomes[i].publish == Acked)
  {
    AnswersAreTrue(c, maxBatch);
    ListedExactly(c, Duplicated, |c.events|, id);
    ListedExactly(c, Accepted, |c.events|, id);
    assert forall i :: 0 <= i < |c.events| ==> AnswerAt(c, i) != Abandoned;
    hide GoodEvent, Known, Ingest, LedgerFits;
    forall i | 0 <= i < |c.events|
      ensures AnswerAt(c, i) == Duplicated <==> GoodEvent(c.events[i]) && Known(c, i)
      ensures AnswerAt(c, i) == Accepted <==>
                && GoodEvent(c.events[i]) && !Known(c, i)
                && c.session.id != "" && c.producer != "" && c.now != 0 && c.outcomes[i].publish == Acked
    {
    }
  }

  // ---- what enters the stream ----

  lemma LedgerGrows(producer: string, job: Job, b: Broker, o: Outcome)
    requires job.todo != [] && job.phase.Checking?
    ensures b.ledger <= IngestEvent(producer, job, b, o).broker.ledger
  {
    hide ValidateLocationEvent, EnvelopeOf;
  }

  lemma {:induction false} FirstPublishUnknown(c: Call, n: nat)
    requires n <= |c.events| <= |c.outcomes|
    ensures
      var after := FirstOf(c, n).broker;
      && c.broker.ledger <= after.ledger && c.broker.stream <= after.stream
      && (forall i :: |c.broker.stream| <= i < |after.stream| ==> after.stream[i].KeyOf() !in c.broker.ledger)
  {
    if n > 0 {
      hide IngestEvent, GoodEvent, IngestFirst;
      FirstPublishUnknown(c, n - 1);
      FirstOneMore(c, n - 1);
      var before := FirstOf(c, n - 1);
      if before.job.Some? {
        LedgerGrows(c.producer, before.job.value, before.broker, c.outcomes[n - 1]);
        OneEventPublishes(c.producer, before.job.value, before.broker, c.outcomes[n - 1]);
      }
    }
  }

  // A call, answered or not, never adds a message to the stream whose key was in the ledger
  // before: what is sent again after a lost answer is not published again.
  lemma {:induction false} KnownIsNotPublishedAgain(c: Call, maxBatch: int)
    requires |c.events| <= |c.outcomes|
    ensures
      var after := Ingest(c.producer, maxBatch, c.session, c.now, c.events, c.broker, c.outcomes).broker;
      && c.broker.stream <= after.stream
      && (forall i :: |c.broker.stream| <= i < |after.stream| ==> after.stream[i].KeyOf() !in c.broker.ledger)
  {
    FirstPublishUnknown(c, |c.events|);
    hide IngestFirst;
  }
}
