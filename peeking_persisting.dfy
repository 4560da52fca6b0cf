/**
 * The single-slot hand-off buffer used by the unit-of-work test fixtures:
 * a model persisted through `Add` or `Update` waits in the slot until one
 * `Peek` takes it out.
 */
module Persisting {
  import opened Wrappers
  import opened Domain

  /** The exceptions `require`/`requireNotNull` throw. */
  datatype PersistingFailure =
    | SlotOccupied   // a second deposit before the first was peeked
    | SlotEmpty      // a peek with nothing deposited

  class PeekingPersisting {
    var currentModel: Option<Model>

    constructor ()
      ensures currentModel == None
    {
      currentModel := None;
    }

    /** Deposits `model`; fails, leaving the slot as it was, when the slot is full. */
    method Add(model: Model) returns (r: Outcome<PersistingFailure>)
      modifies this
      ensures r == Pass <==> old(currentModel) == None
      ensures r.Fail? ==> r.error == SlotOccupied
      ensures currentModel == if r.Pass? then Some(model) else old(currentModel)
    {
      if currentModel != None {
        return Fail(SlotOccupied);
      }
      currentModel := Some(model);
      r := Pass;
    }

    /** Same slot discipline as `Add`. */
    method Update(model: Model) returns (r: Outcome<PersistingFailure>)
      modifies this
      ensures r == Pass <==> old(currentModel) == None
      ensures r.Fail? ==> r.error == SlotOccupied
      ensures currentModel == if r.Pass? then Some(model) else old(currentModel)
    {
      if currentModel != None {
        return Fail(SlotOccupied);
      }
      currentModel := Some(model);
      r := Pass;
    }

    /** Takes the deposited model out and empties the slot; fails on an empty slot. */
    method Peek() returns (r: Result<Model, PersistingFailure>)
      modifies this
      ensures r.Ok? <==> old(currentModel).Some?
      ensures r.Ok? ==> r.value == old(currentModel).value
      ensures r.Err? ==> r.error == SlotEmpty
      ensures currentModel == None
    {
      if currentModel == None {
        return Err(SlotEmpty);
      }
      r := Ok(currentModel.value);
      currentModel := None;
    }
  }

  /** A deposit through `Add` or `Update` followed by `Peek` hands back the same model and empties the slot. */
  method DepositThenPeek(p: PeekingPersisting, m: Model, viaUpdate: bool) returns (r: Result<Model, PersistingFailure>)
    requires p.currentModel == None
    modifies p
    ensures r == Ok(m)
    ensures p.currentModel == None
  {
    var deposited;
    if viaUpdate {
      deposited := p.Update(m);
    } else {
      deposited := p.Add(m);
    }
    assert deposited == Pass;
    r := p.Peek();
  }

  /** Deposits never stack: a second deposit before a peek fails and leaves the first model in place. */
  method SecondDepositFails(p: PeekingPersisting, first: Model, second: Model, viaUpdate: bool)
    returns (r: Outcome<PersistingFailure>)
    requires p.currentModel == None
    modifies p
    ensures r == Fail(SlotOccupied)
    ensures p.currentModel == Some(first)
  {
    var ok := p.Add(first);
    if viaUpdate {
      r := p.Update(second);
    } else {
      r := p.Add(second);
    }
  }

  /** A deposited model is consumed at most once: a second peek fails. */
  method SecondPeekFails(p: PeekingPersisting, m: Model) returns (first: Result<Model, PersistingFailure>, second: Result<Model, PersistingFailure>)
    requires p.currentModel == None
    modifies p
    ensures first == Ok(m)
    ensures second == Err(SlotEmpty)
    ensures p.currentModel == None
  {
    var ok := p.Add(m);
    first := p.Peek();
    second := p.Peek();
  }
}
