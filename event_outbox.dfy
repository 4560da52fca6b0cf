/**
 * The insert statements the event repository issues for one unit-of-work
 * envelope: one `uow_events` row, then, only when the envelope carries
 * model events, one `model_events` insert with a row per event in envelope
 * order. Every row inherits the envelope's id and `occurredAt`.
 *
 * Serialized params and payloads are opaque strings, and the tracing snapshot
 * taken before each event row is built is given as one opaque string per event.
 */
module EventOutbox {
  import opened Wrappers
  import opened Domain
  import UowSpec
  import UowSpecProperties

  type Uuid = string

  /** A timestamp; only equality matters here. */
  type Instant = int

  datatype Principal = Principal(id: string, name: string)

  /** The unit-of-work envelope. */
  datatype UowEvent = UowEvent(
    id: Uuid,
    uowName: string,
    principal: Principal,
    modelEvents: seq<(Uuid, ModelEvent)>,
    idempotencyKey: Option<string>,
    params: string,
    occurredAt: Instant)

  /** A row of `uow_events`. */
  datatype UowEventsRecord = UowEventsRecord(
    id: Uuid,
    name: string,
    idempotencyKey: Option<string>,
    principalId: string,
    principalName: string,
    occurredAt: Instant,
    modelEvents: seq<Uuid>,
    params: string)

  /** A row of `model_events`. */
  datatype ModelEventsRecord = ModelEventsRecord(
    id: Uuid,
    uowId: Uuid,
    modelId: string,
    name: string,
    modelName: string,
    occurredAt: Instant,
    payload: string,
    tracingContext: string)

  /** One executed insert statement. */
  datatype Query =
    | InsertUowEvents(record: UowEventsRecord)
    | InsertModelEvents(records: seq<ModelEventsRecord>)

  /** The model-event ids of the envelope, in order. */
  function EventIds(entries: seq<(Uuid, ModelEvent)>): (r: seq<Uuid>)
    ensures |r| == |entries|
  {
    if entries == [] then [] else [entries[0].0] + EventIds(entries[1..])
  }

  /** The model events of the envelope without their ids, in order. */
  function EventsOf(entries: seq<(Uuid, ModelEvent)>): (r: seq<ModelEvent>)
    ensures |r| == |entries|
  {
    if entries == [] then [] else [entries[0].1] + EventsOf(entries[1..])
  }

  function EnvelopeRecord(e: UowEvent): UowEventsRecord
  {
    UowEventsRecord(
      e.id, e.uowName, e.idempotencyKey, e.principal.id, e.principal.name,
      e.occurredAt, EventIds(e.modelEvents), e.params)
  }

  function EventRecord(uowId: Uuid, occurredAt: Instant, entry: (Uuid, ModelEvent), tracing: string): ModelEventsRecord
  {
    var (eventId, event) := entry;
    ModelEventsRecord(
      eventId, uowId, event.modelId, event.eventName, event.modelName,
      occurredAt, event.payload, tracing)
  }

  /** One row per entry, in entry order; `tracing[i]` is the snapshot taken for entry `i`. */
  function EventRecords(uowId: Uuid, occurredAt: Instant, entries: seq<(Uuid, ModelEvent)>, tracing: seq<string>)
    : (r: seq<ModelEventsRecord>)
    requires |tracing| == |entries|
    ensures |r| == |entries|
  {
    if entries == [] then []
    else [EventRecord(uowId, occurredAt, entries[0], tracing[0])]
         + EventRecords(uowId, occurredAt, entries[1..], tracing[1..])
  }

  /** The statements `add(uowEvent)` executes, in order. */
  function BuildInserts(e: UowEvent, tracing: seq<string>): (r: seq<Query>)
    requires |tracing| == |e.modelEvents|
    ensures |r| == if e.modelEvents == [] then 1 else 2
    ensures r[0].InsertUowEvents? && r[0].record.id == e.id
    ensures e.modelEvents != [] ==> r[1].InsertModelEvents? && |r[1].records| == |e.modelEvents|
  {
    [InsertUowEvents(EnvelopeRecord(e))]
    + if e.modelEvents == [] then []
      else [InsertModelEvents(EventRecords(e.id, e.occurredAt, e.modelEvents, tracing))]
  }

  /** The number of rows the statements write. */
  function RowsWritten(qs: seq<Query>): nat
  {
    if qs == [] then 0
    else match qs[0]
      case InsertUowEvents(_) => 1 + RowsWritten(qs[1..])
      case InsertModelEvents(rs) => |rs| + RowsWritten(qs[1..])
  }

  lemma {:induction false} EventIdsAt(entries: seq<(Uuid, ModelEvent)>, k: nat)
    requires k < |entries|
    ensures EventIds(entries)[k] == entries[k].0
    decreases |entries|
  {
    if k > 0 {
      EventIdsAt(entries[1..], k - 1);
    }
  }

  lemma {:induction false} EventsOfAt(entries: seq<(Uuid, ModelEvent)>, k: nat)
    requires k < |entries|
    ensures EventsOf(entries)[k] == entries[k].1
    decreases |entries|
  {
    if k > 0 {
      EventsOfAt(entries[1..], k - 1);
    }
  }

  lemma {:induction false} EventRecordsAt(uowId: Uuid, occurredAt: Instant, entries: seq<(Uuid, ModelEvent)>, tracing: seq<string>, k: nat)
    requires |tracing| == |entries| && k < |entries|
    ensures EventRecords(uowId, occurredAt, entries, tracing)[k] == EventRecord(uowId, occurredAt, entries[k], tracing[k])
    decreases |entries|
  {
    if k > 0 {
      EventRecordsAt(uowId, occurredAt, entries[1..], tracing[1..], k - 1);
    }
  }

  /**
   * The envelope row copies the id, the name, the optional idempotency key,
   * the params and `occurredAt`, splits the principal into id and name, and
   * lists the model-event ids in envelope order.
   */
  lemma EnvelopeRowCopies(e: UowEvent, tracing: seq<string>)
    requires |tracing| == |e.modelEvents|
    ensures var row := BuildInserts(e, tracing)[0].record;
      && row.id == e.id && row.name == e.uowName && row.idempotencyKey == e.idempotencyKey
      && row.principalId == e.principal.id && row.principalName == e.principal.name
      && row.occurredAt == e.occurredAt && row.params == e.params
      && |row.modelEvents| == |e.modelEvents|
      && forall k :: 0 <= k < |e.modelEvents| ==> row.modelEvents[k] == e.modelEvents[k].0
  {
    forall k | 0 <= k < |e.modelEvents| ensures EventIds(e.modelEvents)[k] == e.modelEvents[k].0 {
      EventIdsAt(e.modelEvents, k);
    }
  }

  /**
   * Model-event row `k` belongs to the `k`-th entry: its own id, the envelope id
   * as `uowId`, the event's model id, name and model name, the envelope's
   * `occurredAt`, the event payload and the `k`-th tracing snapshot.
   */
  lemma ModelEventRowAt(e: UowEvent, tracing: seq<string>, k: nat)
    requires |tracing| == |e.modelEvents| && k < |e.modelEvents|
    ensures var row := BuildInserts(e, tracing)[1].records[k];
      var (eventId, event) := e.modelEvents[k];
      && row.id == eventId && row.uowId == e.id
      && row.modelId == event.modelId && row.name == event.eventName && row.modelName == event.modelName
      && row.occurredAt == e.occurredAt && row.payload == event.payload && row.tracingContext == tracing[k]
  {
    EventRecordsAt(e.id, e.occurredAt, e.modelEvents, tracing, k);
  }

  /** The id array on the envelope row and the model-event rows cross-reference each other, and all rows share one `occurredAt`. */
  lemma RowsCrossReference(e: UowEvent, tracing: seq<string>)
    requires |tracing| == |e.modelEvents| && e.modelEvents != []
    ensures var qs := BuildInserts(e, tracing);
      var envelope, rows := qs[0].record, qs[1].records;
      && |envelope.modelEvents| == |rows|
      && forall k :: 0 <= k < |rows| ==>
           rows[k].id == envelope.modelEvents[k] && rows[k].uowId == envelope.id && rows[k].occurredAt == envelope.occurredAt
  {
    EnvelopeRowCopies(e, tracing);
    forall k | 0 <= k < |e.modelEvents|
      ensures BuildInserts(e, tracing)[1].records[k].id == e.modelEvents[k].0
      ensures BuildInserts(e, tracing)[1].records[k].uowId == e.id
      ensures BuildInserts(e, tracing)[1].records[k].occurredAt == e.occurredAt
    {
      ModelEventRowAt(e, tracing, k);
    }
  }

  /** One envelope row plus one row per model event. */
  lemma RowCount(e: UowEvent, tracing: seq<string>)
    requires |tracing| == |e.modelEvents|
    ensures RowsWritten(BuildInserts(e, tracing)) == 1 + |e.modelEvents|
  {
    var qs := BuildInserts(e, tracing);
    if e.modelEvents == [] {
      assert qs[1..] == [];
    } else {
      var tail := qs[1..];
      assert tail == [qs[1]] && tail[1..] == [];
      assert RowsWritten(tail) == |qs[1].records|;
    }
  }

  /**
   * When the envelope's events are those of a change list, the rows written are
   * one envelope row plus one row per emitted event; `Noop`s change nothing.
   */
  lemma RowCountFromChanges(e: UowEvent, tracing: seq<string>, toPersist: seq<Change>)
    requires |tracing| == |e.modelEvents|
    requires EventsOf(e.modelEvents) == UowSpec.FlattenEvents(toPersist)
    ensures RowsWritten(BuildInserts(e, tracing)) == 1 + |UowSpec.FlattenEvents(toPersist)|
    ensures RowsWritten(BuildInserts(e, tracing)) == 1 + |UowSpec.FlattenEvents(UowSpec.FilterNoop(toPersist))|
  {
    RowCount(e, tracing);
    UowSpecProperties.FlattenIgnoresNoop(toPersist);
  }

  /** Event rows follow the change order: row `k` carries the `k`-th emitted event's fields. */
  lemma RowsFollowChanges(e: UowEvent, tracing: seq<string>, toPersist: seq<Change>, k: nat)
    requires |tracing| == |e.modelEvents| && k < |e.modelEvents|
    requires EventsOf(e.modelEvents) == UowSpec.FlattenEvents(toPersist)
    ensures var row := BuildInserts(e, tracing)[1].records[k];
      var event := UowSpec.FlattenEvents(toPersist)[k];
      row.modelId == event.modelId && row.name == event.eventName
      && row.modelName == event.modelName && row.payload == event.payload
  {
    ModelEventRowAt(e, tracing, k);
    EventsOfAt(e.modelEvents, k);
  }
}
