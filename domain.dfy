/**
 * The unit-of-work vocabulary shared by the test fixtures and the event
 * repository: models, the events they emit, and the recorded changes.
 * Identifiers, payloads and model state are opaque strings.
 */
module Domain {

  /** An aggregate, identified by its model id; its state is opaque. */
  datatype Model = Model(modelId: string, modelName: string, state: string)

  /**
   * An immutable domain fact about one model. `payload` stands for the
   * final serialized payload the repository writes for the event; how it
   * is encoded (and what it takes from the envelope) is not modelled.
   */
  datatype ModelEvent = ModelEvent(modelId: string, modelName: string, eventName: string, payload: string)

  /** The recorded outcome of one mutation inside a unit of work. */
  datatype Change =
    | Add(model: Model, events: seq<ModelEvent>)
    | Update(model: Model, events: seq<ModelEvent>)
    | Noop
  {
    /** The events this change emitted; a `Noop` emits none. */
    function ModelEvents(): seq<ModelEvent>
    {
      match this
      case Add(_, es) => es
      case Update(_, es) => es
      case Noop => []
    }
  }

  /** The sealed output of one unit-of-work execution. */
  datatype ChangesWithResult<R> = ChangesWithResult(result: R, toPersist: seq<Change>)
}
