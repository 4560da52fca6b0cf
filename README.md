# eva unit-of-work fixtures and event outbox, modelled in Dafny

This project models three pieces of the eva service framework:

- **`PeekingPersisting`** is the single-slot hand-off buffer of the unit-of-work test fixtures. `add` and `update` deposit a model only while the slot is empty. `peek` takes the model out, only while the slot is full, and empties it.
- **`UowSpecBase`** is the change-consumption verifier. It is built from a finished `ChangesWithResult` (a result plus an ordered list of `Add`/`Update`/`Noop` changes). It keeps a FIFO of the non-`Noop` changes and a FIFO of every emitted model event. `verifyAdded`, `verifyUpdated` and `verifyEmitted` each poll one head element. `verifyEnd` insists both queues are drained.
- **The event-outbox row mapping** is what `JooqEventRepository.add(uowEvent)` must send to the query executor. It sends one `uow_events` insert. Then, only when the envelope carries model events, it sends one `model_events` insert with one record per event, in envelope order.

Files:

- `wrappers.dfy`: `Option`, `Result` and `Outcome`.
- `domain.dfy`: `Model`, `ModelEvent`, `Change` and `ChangesWithResult`.
- `peeking_persisting.dfy`: the `PeekingPersisting` class and three client methods for its round-trip and at-most-once properties.
- `uow_spec_base.dfy`: the transition functions `Added`, `Updated`, `Emitted` and `End`, and the class `UowSpecBase`. The class's methods are proved against those transition functions.
- `uow_spec_properties.dfy`: a test body as a sequence of calls, and the theorem that `verifyEnd` passes exactly when every non-`Noop` change and every event is consumed once, in order.
- `event_outbox.dfy`: the envelope, the two record types, `BuildInserts` and its lemmas.

The source throws on every fixture failure: Kotlin's `require`, `requireNotNull`, `check` and `checkNotNull`, plus exceptions from the test's own `verify` callback. The model returns these as `Fail`/`Err` values. The only precondition on a fixture operation is the class invariant `Valid()` of `UowSpecBase`: the hand-off slot is empty between calls. The constructor establishes it and every method keeps it. It excludes only the `require` in `PeekingPersisting.add`/`update`, which `verifyAdded` and `verifyUpdated` can never reach. A thrown call leaves the state as it was at the point of the throw. So `verifyAdded` on a non-`Add` head has already removed that head.

The test's `verify` callbacks are modelled as total predicates. A callback answering `false` stands for a callback that throws.

## Model

| member | source | states |
|---|---|---|
| `Persisting.PeekingPersisting.constructor` | eva-uow/src/testFixtures/kotlin/com/razz/eva/uow/PeekingPersisting.kt:8 | a new slot is empty |
| `Persisting.PeekingPersisting.Add` | eva-uow/src/testFixtures/kotlin/com/razz/eva/uow/PeekingPersisting.kt:10-13 | succeeds iff the slot was empty, and then the slot holds exactly the given model; otherwise it fails with `SlotOccupied` and the slot is unchanged |
| `Persisting.PeekingPersisting.Update` | eva-uow/src/testFixtures/kotlin/com/razz/eva/uow/PeekingPersisting.kt:15-18 | same slot discipline as `add` |
| `Persisting.PeekingPersisting.Peek` | eva-uow/src/testFixtures/kotlin/com/razz/eva/uow/PeekingPersisting.kt:20-24 | succeeds iff the slot was full and returns the stored model; fails with `SlotEmpty` otherwise; the slot is empty afterwards |
| `Persisting.DepositThenPeek` | eva-uow/src/testFixtures/kotlin/com/razz/eva/uow/PeekingPersisting.kt:10-24 | round trip: `add(m)` or `update(m)` then `peek()` on an empty slot returns `m` and leaves the slot empty |
| `Persisting.SecondDepositFails` | eva-uow/src/testFixtures/kotlin/com/razz/eva/uow/PeekingPersisting.kt:10-18 | a second deposit without an intervening peek fails and the first model stays: the slot holds at most one model |
| `Persisting.SecondPeekFails` | eva-uow/src/testFixtures/kotlin/com/razz/eva/uow/PeekingPersisting.kt:20-24 | two peeks in a row: the first yields the model, the second fails; a deposit is consumed at most once |
| `UowSpec.FilterNoop` | eva-uow/src/testFixtures/kotlin/com/razz/eva/uow/UowSpecBase.kt:19 | the change queue holds no `Noop`; a change is in it iff it is a non-`Noop` change of `toPersist` |
| `UowSpec.Added` | eva-uow/src/testFixtures/kotlin/com/razz/eva/uow/UowSpecBase.kt:32-43 | the head change is always polled; success iff it is an `Add` whose model the callback accepts, and then that model is returned; an empty queue gives `NoChangeLeft(AddKind)`; any other head gives `UnexpectedChange`; the event queue is untouched |
| `UowSpec.Updated` | eva-uow/src/testFixtures/kotlin/com/razz/eva/uow/UowSpecBase.kt:45-55 | as `Added`, for an `Update` head; only the change queue shortens |
| `UowSpec.Emitted` | eva-uow/src/testFixtures/kotlin/com/razz/eva/uow/UowSpecBase.kt:57-61 | an empty event queue gives `NoEventLeft` and changes nothing; otherwise the head event is removed and handed to the callback; the change queue is untouched |
| `UowSpec.End` | eva-uow/src/testFixtures/kotlin/com/razz/eva/uow/UowSpecBase.kt:23-26 | passes iff both queues are empty; leftover changes are reported before leftover events |
| `UowSpec.UowSpecBase.constructor` | eva-uow/src/testFixtures/kotlin/com/razz/eva/uow/UowSpecBase.kt:15-21 | keeps the result; the change queue is `toPersist` without `Noop`s; the event queue is every change's events concatenated; the slot is fresh and empty |
| `UowSpec.UowSpecBase.VerifyEnd` | eva-uow/src/testFixtures/kotlin/com/razz/eva/uow/UowSpecBase.kt:23-26 | its outcome is `End` of the current queues; it changes nothing |
| `UowSpec.UowSpecBase.VerifyResult` | eva-uow/src/testFixtures/kotlin/com/razz/eva/uow/UowSpecBase.kt:28-30 | passes iff the callback accepts the stored result; it changes neither queue |
| `UowSpec.UowSpecBase.VerifyAdded` | eva-uow/src/testFixtures/kotlin/com/razz/eva/uow/UowSpecBase.kt:32-43 | outcome and new queues are those of `Added`; the model goes through the hand-off slot, and the slot is empty again afterwards |
| `UowSpec.UowSpecBase.VerifyUpdated` | eva-uow/src/testFixtures/kotlin/com/razz/eva/uow/UowSpecBase.kt:45-55 | outcome and new queues are those of `Updated`; the slot is empty again afterwards |
| `UowSpec.UowSpecBase.VerifyEmitted` | eva-uow/src/testFixtures/kotlin/com/razz/eva/uow/UowSpecBase.kt:57-61 | outcome and new queues are those of `Emitted` |
| `UowSpecProperties.RunSucceedsIff` | eva-uow/src/testFixtures/kotlin/com/razz/eva/uow/UowSpecBase.kt:32-61 | a sequence of accepting calls succeeds iff its change calls match a prefix of the change queue kind by kind and there are enough events; it then removes exactly that prefix and one event per `verifyEmitted` |
| `UowSpecProperties.ConsumeExactlyOnce` | eva-uow/src/testFixtures/kotlin/com/razz/eva/uow/UowSpecBase.kt:15-61 | from a freshly built verifier, calls followed by a passing `verifyEnd` are exactly those that consume each non-`Noop` change once, in order and with its kind, and each emitted event once |
| `UowSpecProperties.CanonicalScriptPasses` | eva-uow/src/testFixtures/kotlin/com/razz/eva/uow/UowSpecBase.kt:15-61 | verifying every non-`Noop` change in order, then every event, makes `verifyEnd` pass |
| `UowSpecProperties.FilterNoopAppend` | eva-uow/src/testFixtures/kotlin/com/razz/eva/uow/UowSpecBase.kt:19 | removing `Noop`s commutes with concatenation, so the original order is kept |
| `UowSpecProperties.FilterNoopKeepsNoopFree` | eva-uow/src/testFixtures/kotlin/com/razz/eva/uow/UowSpecBase.kt:19 | a list without `Noop`s goes into the change queue unchanged |
| `UowSpecProperties.FlattenEventsAppend` | eva-uow/src/testFixtures/kotlin/com/razz/eva/uow/UowSpecBase.kt:20 | the event queue of concatenated changes is the concatenation of their event queues: events come in change order |
| `UowSpecProperties.FlattenIgnoresNoop` | eva-uow/src/testFixtures/kotlin/com/razz/eva/uow/UowSpecBase.kt:19-20 | `Noop`s contribute no events: the event queue is the same with or without them |
| `EventOutbox.BuildInserts` | eva-repository/src/test/kotlin/com/razz/eva/repository/JooqEventRepositorySpec.kt:125-326 | one insert without model events, two with; the first is an envelope insert keyed by the envelope id; the second holds one record per event |
| `EventOutbox.EnvelopeRowCopies` | eva-repository/src/test/kotlin/com/razz/eva/repository/JooqEventRepositorySpec.kt:131-150 | the envelope row copies id, name, optional idempotency key, params and `occurredAt`, splits the principal into id and name, and lists the event ids in envelope order |
| `EventOutbox.ModelEventRowAt` | eva-repository/src/test/kotlin/com/razz/eva/repository/JooqEventRepositorySpec.kt:158-187 | row `k` has the `k`-th event id, the envelope id as `uowId`, the event's model id, event name and model name, the envelope's `occurredAt`, the payload and the `k`-th tracing snapshot |
| `EventOutbox.RowsCrossReference` | eva-repository/src/test/kotlin/com/razz/eva/repository/JooqEventRepositorySpec.kt:139-228 | the envelope's id array and the event rows agree position by position; every row points back to the envelope and shares its `occurredAt` |
| `EventOutbox.RowCount` | eva-repository/src/test/kotlin/com/razz/eva/repository/JooqEventRepositorySpec.kt:125-326 | exactly one envelope row plus one row per model event are written |
| `EventOutbox.RowCountFromChanges` | eva-repository/src/test/kotlin/com/razz/eva/repository/JooqEventRepositorySpec.kt:125-252 | when the envelope's events are those of a change list, the rows are one plus the number of emitted events, with or without `Noop`s |
| `EventOutbox.RowsFollowChanges` | eva-repository/src/test/kotlin/com/razz/eva/repository/JooqEventRepositorySpec.kt:158-249 | event row `k` carries the model id, event name, model name and payload of the `k`-th emitted event in change order |

## Left out

- `Change`, `ChangesWithResult`, `ModelEvent` and `Change.persist` are not part of this model's source files. They are abstract datatypes here. `Add.persist` and `Update.persist` are assumed to pass their own model to `add` and `update`, and a `Noop` to carry no events.
- The unchecked casts `model as M` and `as E` in the fixtures are not modelled: models and events have a single type here.
- `UnitOfWork.changes` is a one-line delegation to a changes DSL and accumulator that are not part of this model.
- `WritableModelRepository` is not modelled. It is coroutine-based transaction plumbing around a clock and a transaction manager that are not part of this model.
- JSON encoding of params and event payloads is not modelled: they are opaque strings.
- EventOutbox.ModelEventRowAt: `row.payload == event.payload` holds only because `ModelEvent.payload` stands for the final serialized payload the repository writes. In the repository test that payload also carries the envelope principal's fields, so it depends on more than the event. How it is built is not modelled.
- Distributed-tracing capture (span creation and the B3 headers) is not modelled. The snapshot taken for each event row is an opaque string parameter, one per event.
- The jOOQ query objects, the PostgreSQL dialect and the fake executor's internals are not modelled. The executor's history is the sequence of insert statements `BuildInserts` returns.
- Idempotency-key conflict detection, rollback and concurrency are not modelled: no such logic appears in the modelled files.
- `EventOutbox.BuildInserts` is derived from the repository test's expected executor history. The repository implementation is not part of this model.
- Timestamps are integers; only their equality matters.
