// The gateway's batch ingestion (usecase/tracker_ingestion.go) and what the worker makes of
// the messages it publishes (usecase/location_event_processor.go).
module Ingestion {
  import opened Domain

  // User and device identifiers are UUIDs; only their identity matters.
  datatype Owner = Owner(user: nat, device: nat)

  datatype Key = Key(owner: Owner, event: EventId)

  // An event as the phone sends it; recordedAt is absent when its text is not RFC 3339.
  datatype WireEvent = WireEvent(
    eventId: EventId,
    recordedAt: Option<Time>,
    position: GeoPoint,
    accuracyM: real,
    speedMps: Option<real>,
    bearingDeg: Option<real>,
    activityType: Option<string>,
    activityConfidence: Option<real>,
    batteryLevel: Option<real>)

  datatype LocationEvent = LocationEvent(
    eventId: EventId,
    recordedAt: Time,
    position: GeoPoint,
    accuracyM: real,
    speedMps: Option<real>,
    bearingDeg: Option<real>,
    activityType: Option<string>,
    activityConfidence: Option<real>,
    batteryLevel: Option<real>)

  datatype Rejection = Rejection(eventId: EventId, reason: string)

  datatype Parsed = Parsed(events: seq<LocationEvent>, rejects: seq<Rejection>)

  // Field by field, as parsed from the wire.
  function EventOf(m: WireEvent): LocationEvent
    requires m.recordedAt.Some?
  {
    LocationEvent(m.eventId, m.recordedAt.value, m.position, m.accuracyM, m.speedMps, m.bearingDeg,
                  m.activityType, m.activityConfidence, m.batteryLevel)
  }

  function ParseOne(p: Parsed, m: WireEvent): Parsed {
    if m.eventId == "" then p.(rejects := p.rejects + [Rejection("(unknown)", "event_id is required")])
    else if m.recordedAt.None? then p.(rejects := p.rejects + [Rejection(m.eventId, "recorded_at must be RFC3339")])
    else p.(events := p.events + [EventOf(m)])
  }

  function ParseLocationEvents(msgs: seq<WireEvent>): Parsed {
    if msgs == [] then Parsed([], [])
    else ParseOne(ParseLocationEvents(msgs[..|msgs| - 1]), msgs[|msgs| - 1])
  }

  const VALID_ACTIVITY_TYPES: set<string> := {"walking", "running", "bicycle", "vehicle", "stationary", "unknown"}

  // The empty string means the event is valid; time zero is the unset time.
  function ValidateLocationEvent(ev: LocationEvent): string {
    if ev.eventId == "" then "event_id is required"
    else if ev.recordedAt == 0 then "recorded_at is required"
    else if ev.position.lat < -90.0 || ev.position.lat > 90.0 then "invalid_latitude"
    else if ev.position.lon < -180.0 || ev.position.lon > 180.0 then "invalid_longitude"
    else if ev.accuracyM < 0.0 then "invalid_accuracy"
    else if ev.speedMps.Some? && ev.speedMps.value < 0.0 then "invalid_speed"
    else if ev.bearingDeg.Some? && !(0.0 <= ev.bearingDeg.value <= 360.0) then "invalid_bearing"
    else if ev.activityType.Some? && ev.activityType.value !in VALID_ACTIVITY_TYPES then "invalid_activity_type"
    else if ev.activityConfidence.Some? && !(0.0 <= ev.activityConfidence.value <= 1.0) then
      "invalid_activity_confidence"
    else if ev.batteryLevel.Some? && !(0.0 <= ev.batteryLevel.value <= 1.0) then "invalid_battery_level"
    else ""
  }

  // ---- the published message ----

  datatype Payload = Payload(
    owner: Owner,
    recordedAt: Time,
    receivedAt: Time,
    position: GeoPoint,
    accuracyM: real,
    speedMps: real,
    bearingDeg: real,
    activityType: string,
    activityConfidence: real,
    batteryLevel: real,
    source: string)
  {
    // Validate reports no issue.
    predicate IsValid() {
      && recordedAt != 0 && receivedAt != 0
      && -90.0 <= position.lat <= 90.0 && -180.0 <= position.lon <= 180.0
      && 0.0 <= accuracyM
      && 0.0 <= activityConfidence <= 1.0 && 0.0 <= batteryLevel <= 1.0
      && source != ""
    }
  }

  datatype Envelope = Envelope(
    eventId: EventId,
    eventType: string,
    eventVersion: int,
    occurredAt: Time,
    producedAt: Time,
    producer: string,
    correlationId: string,
    payload: Payload)
  {
    predicate IsValid() {
      && eventId != "" && eventType != "" && eventVersion >= 1
      && occurredAt != 0 && producedAt != 0 && producer != ""
    }

    function KeyOf(): Key {
      Key(payload.owner, eventId)
    }
  }

  const LOCATION_EVENTS := "location.events.v1"

  function Or<T>(value: Option<T>, default: T): T {
    if value.Some? then value.value else default
  }

  datatype Session = Session(id: string, owner: Owner)

  function PayloadOf(owner: Owner, now: Time, ev: LocationEvent): Payload {
    Payload(owner, ev.recordedAt, now, ev.position, ev.accuracyM, Or(ev.speedMps, 0.0), Or(ev.bearingDeg, 0.0),
            Or(ev.activityType, ""), Or(ev.activityConfidence, 0.0), Or(ev.batteryLevel, 0.0), "android_tracker")
  }

  // location.NewEvent: an envelope, or nothing when payload or envelope are invalid.
  function NewEvent(eventId: EventId, now: Time, producer: string, correlationId: string,
                    p: Payload): Option<Envelope> {
    var envelope := Envelope(eventId, LOCATION_EVENTS, 1, p.recordedAt, now, producer, correlationId, p);
    if p.IsValid() && correlationId != "" && envelope.IsValid() then Some(envelope) else None
  }

  function EnvelopeOf(s: Session, now: Time, producer: string, ev: LocationEvent): Option<Envelope> {
    NewEvent(ev.eventId, now, producer, s.id, PayloadOf(s.owner, now, ev))
  }

  // ---- the worker's side of a message ----

  // A row of raw_location_points, without the bookkeeping columns.
  datatype RawRow = RawRow(
    key: Key,
    recordedAt: Time,
    receivedAt: Time,
    position: GeoPoint,
    accuracyM: real,
    speedMps: Option<real>,
    bearingDeg: Option<real>,
    activityType: string,
    activityConfidence: Option<real>,
    batteryLevel: Option<real>,
    source: string)
  {
    // The CHECK constraints of the table.
    predicate PassesChecks() {
      && -90.0 <= position.lat <= 90.0 && -180.0 <= position.lon <= 180.0 && accuracyM >= 0.0
      && (speedMps.Some? ==> speedMps.value >= 0.0)
      && (bearingDeg.Some? ==> 0.0 <= bearingDeg.value <= 360.0)
      && (activityConfidence.Some? ==> 0.0 <= activityConfidence.value <= 1.0)
      && (batteryLevel.Some? ==> 0.0 <= batteryLevel.value <= 1.0)
    }
  }

  function MapPayloadToPoint(e: Envelope): RawRow {
    var p := e.payload;
    RawRow(e.KeyOf(), p.recordedAt, p.receivedAt, p.position, p.accuracyM, Some(p.speedMps), Some(p.bearingDeg),
           p.activityType, Some(p.activityConfidence), Some(p.batteryLevel), p.source)
  }

  type RawTable = map<Key, RawRow>

  datatype Action = Ack | Nak

  // What one delivery of a message does: insert, or dead-letter what cannot be processed.
  // Nothing stands for bytes that are no envelope at all.
  datatype Delivery = Delivery(raw: RawTable, deadLetters: nat, action: Action)

  function DeadLetter(raw: RawTable, dead: nat, published: bool): Delivery {
    if published then Delivery(raw, dead + 1, Ack) else Delivery(raw, dead, Nak)
  }

  predicate IsProcessable(input: Option<Envelope>) {
    input.Some? && input.value.IsValid() && input.value.eventType == LOCATION_EVENTS && input.value.payload.IsValid()
  }

  // ON CONFLICT DO NOTHING
  function InsertRaw(raw: RawTable, row: RawRow): RawTable {
    if row.key in raw then raw else raw[row.key := row]
  }

  // dbUp and busUp say whether the insert and the dead-letter publish succeed.
  function Process(raw: RawTable, dead: nat, input: Option<Envelope>, dbUp: bool, busUp: bool): Delivery {
    if !IsProcessable(input) then DeadLetter(raw, dead, busUp)
    else if !dbUp || !MapPayloadToPoint(input.value).PassesChecks() then Delivery(raw, dead, Nak)
    else Delivery(InsertRaw(raw, MapPayloadToPoint(input.value)), dead, Ack)
  }

  class Processor {
    var raw: RawTable
    var deadLetters: nat

    constructor ()
      ensures raw == map[] && deadLetters == 0
    {
      raw, deadLetters := map[], 0;
    }

    method PublishDeadLetter(busUp: bool) returns (action: Action)
      modifies `deadLetters
      ensures Delivery(raw, deadLetters, action) == DeadLetter(old(raw), old(deadLetters), busUp)
    {
      if !busUp {
        return Nak;
      }
      deadLetters := deadLetters + 1;
      return Ack;
    }

    method Insert(row: RawRow, dbUp: bool) returns (stored: bool)
      modifies `raw
      ensures stored == (dbUp && row.PassesChecks())
      ensures raw == if stored then InsertRaw(old(raw), row) else old(raw)
    {
      stored := dbUp && row.PassesChecks();
      if stored && row.key !in raw {
        raw := raw[row.key := row];
      }
    }

    method Handle(input: Option<Envelope>, dbUp: bool, busUp: bool) returns (action: Action)
      modifies this
      ensures Delivery(raw, deadLetters, action) == Process(old(raw), old(deadLetters), input, dbUp, busUp)
    {
      if input.None? || !input.value.IsValid() || input.value.eventType != LOCATION_EVENTS
         || !input.value.payload.IsValid()
      {
        action := PublishDeadLetter(busUp);
        return;
      }
      var stored := Insert(MapPayloadToPoint(input.value), dbUp);
      return if stored then Ack else Nak;
    }
  }

  // ---- what passes validation ----

  // A message the gateway may publish for this event, whoever sent it and whenever.
  ghost predicate Carries(e: Envelope, ev: LocationEvent, owner: Owner) {
    && ValidateLocationEvent(ev) == "" && IsProcessable(Some(e))
    && e.eventId == ev.eventId && e.payload.owner == owner
    && e.payload.recordedAt == ev.recordedAt && e.payload.position == ev.position && e.payload.accuracyM == ev.accuracyM
    && e.payload.speedMps == Or(ev.speedMps, 0.0) && e.payload.activityType == Or(ev.activityType, "")
    && MapPayloadToPoint(e).PassesChecks()
  }

  // A valid event is refused only for an empty session or producer name or an unset clock;
  // what is published carries the event's own data and passes every check downstream.
  lemma {:induction false} ValidEventsArePublishable(s: Session, now: Time, producer: string, ev: LocationEvent)
    requires ValidateLocationEvent(ev) == ""
    ensures EnvelopeOf(s, now, producer, ev).Some? <==> s.id != "" && producer != "" && now != 0
    ensures EnvelopeOf(s, now, producer, ev).Some? ==> Carries(EnvelopeOf(s, now, producer, ev).value, ev, s.owner)
  {
  }

  // Such a message is never dead-lettered; once the database answers, it is stored or was
  // already, and acknowledged.
  lemma {:induction false} PublishedIsStored(raw: RawTable, dead: nat, e: Envelope, ev: LocationEvent, owner: Owner,
                                             dbUp: bool, busUp: bool)
    requires Carries(e, ev, owner)
    ensures
      var d := Process(raw, dead, Some(e), dbUp, busUp);
      && d.deadLetters == dead && (d.action == Ack <==> dbUp)
      && (d.action == Ack ==> Key(owner, ev.eventId) in d.raw)
      && (d.action == Ack && Key(owner, ev.eventId) !in raw ==>
            var row := d.raw[Key(owner, ev.eventId)];
            && row.position == ev.position && row.recordedAt == ev.recordedAt && row.accuracyM == ev.accuracyM
            && row.activityType == Or(ev.activityType, ""))
      && (forall k :: k in raw ==> k in d.raw && d.raw[k] == raw[k])
  {
  }

  // Nothing is dropped in silence: what is acknowledged is stored under its key or counted as
  // dead-lettered, and what is not acknowledged leaves no trace.
  lemma {:induction false} AcknowledgedIsKept(raw: RawTable, dead: nat, input: Option<Envelope>, dbUp: bool,
                                              busUp: bool)
    ensures
      var d := Process(raw, dead, input, dbUp, busUp);
      && (d.action == Ack ==>
            || (d.raw == raw && d.deadLetters == dead + 1)
            || (input.Some? && input.value.KeyOf() in d.raw && d.deadLetters == dead))
      && (d.action == Nak ==> d.raw == raw && d.deadLetters == dead)
      && (forall k :: k in raw ==> k in d.raw && d.raw[k] == raw[k])
      && (input.None? || input.value.eventId == "" || input.value.eventType != LOCATION_EVENTS ==>
            (d.action == Ack <==> busUp) && d.raw == raw)
  {
  }

  // The payload has no absent numbers, so a stored speed, bearing, confidence or battery level
  // is the reported one exactly when one was reported; a missing one is stored as zero, which
  // nothing downstream can tell from a reported zero.
  lemma {:induction false} MissingSpeedIsStoredAsZero(s: Session, now: Time, producer: string, ev: LocationEvent)
    requires ValidateLocationEvent(ev) == "" && EnvelopeOf(s, now, producer, ev).Some?
    ensures
      var row := MapPayloadToPoint(EnvelopeOf(s, now, producer, ev).value);
      && (row.speedMps == ev.speedMps <==> ev.speedMps.Some?)
      && (row.bearingDeg == ev.bearingDeg <==> ev.bearingDeg.Some?)
      && (row.activityConfidence == ev.activityConfidence <==> ev.activityConfidence.Some?)
      && (row.batteryLevel == ev.batteryLevel <==> ev.batteryLevel.Some?)
      && row == MapPayloadToPoint(EnvelopeOf(s, now, producer, ZeroesFilledIn(ev)).value)
  {
  }

  function ZeroesFilledIn(ev: LocationEvent): LocationEvent {
    ev.(speedMps := Some(Or(ev.speedMps, 0.0)), bearingDeg := Some(Or(ev.bearingDeg, 0.0)),
        activityConfidence := Some(Or(ev.activityConfidence, 0.0)), batteryLevel := Some(Or(ev.batteryLevel, 0.0)))
  }
}
