/**
 * The change-consumption verifier of the unit-of-work test fixtures.
 * Built from a finished `ChangesWithResult`, it keeps a FIFO of the
 * non-`Noop` changes and a FIFO of every emitted event; each `Verify*`
 * call consumes the head of one of them, and `VerifyEnd` insists that both
 * are drained.
 *
 * The transition functions below (`Added`, `Updated`, `Emitted`, `End`)
 * are the specification of the class's methods.
 */
module UowSpec {
  import opened Wrappers
  import opened Domain
  import opened Persisting

  /** The change kind a `Verify*` call expects at the head of the change queue. */
  datatype ChangeKind = AddKind | UpdateKind

  /** The exceptions the fixture's `check`/`checkNotNull` calls and the callbacks throw. */
  datatype Failure =
    | NoChangeLeft(expected: ChangeKind)                   // "Expecting [Add] got nothing"
    | UnexpectedChange(expected: ChangeKind, got: Change)  // "Expecting [Add] was [...]"
    | NoEventLeft                                          // "Expecting [ModelEvent] got nothing"
    | ChangesRemaining                                     // "No more changes expected"
    | EventsRemaining                                      // "No more events expected"
    | VerificationRejected                                 // the caller's verify callback threw

  /** The two queues of the verifier. */
  datatype VerifierState = VerifierState(changes: seq<Change>, events: seq<ModelEvent>)

  /** What one call yields, together with the queues it leaves behind. */
  datatype Transition<T> = Transition(outcome: Result<T, Failure>, next: VerifierState)

  /** `toPersist` with every `Noop` removed, in its original order. */
  function FilterNoop(cs: seq<Change>): (r: seq<Change>)
    ensures |r| <= |cs|
    ensures Noop !in r
    ensures forall c :: c in r <==> c in cs && c != Noop
  {
    if cs == [] then []
    else if cs[0] == Noop then FilterNoop(cs[1..])
    else [cs[0]] + FilterNoop(cs[1..])
  }

  /** The events of every change, concatenated in change order. */
  function FlattenEvents(cs: seq<Change>): seq<ModelEvent>
  {
    if cs == [] then [] else cs[0].ModelEvents() + FlattenEvents(cs[1..])
  }

  /** The queues right after construction. */
  function Initial<R>(c: ChangesWithResult<R>): VerifierState
  {
    VerifierState(FilterNoop(c.toPersist), FlattenEvents(c.toPersist))
  }

  /** The queues once the head of the change queue (if any) has been polled. */
  function PollChange(s: VerifierState): (r: VerifierState)
    ensures r.events == s.events
    ensures s.changes != [] ==> [s.changes[0]] + r.changes == s.changes
    ensures s.changes == [] ==> r.changes == []
  {
    if s.changes == [] then s else s.(changes := s.changes[1..])
  }

  /**
   * `verifyAdded`: polls the head change, which must be an `Add`; its model
   * is handed to `verify` and returned. The head is gone even when the call fails.
   */
  function Added(s: VerifierState, verify: Model -> bool): (r: Transition<Model>)
    ensures r.next == PollChange(s)
    ensures r.outcome.Ok? <==> s.changes != [] && s.changes[0].Add? && verify(s.changes[0].model)
    ensures r.outcome.Ok? ==> r.outcome.value == s.changes[0].model
    ensures s.changes == [] ==> r.outcome == Err(NoChangeLeft(AddKind))
    ensures s.changes != [] && !s.changes[0].Add? ==> r.outcome == Err(UnexpectedChange(AddKind, s.changes[0]))
  {
    if s.changes == [] then Transition(Err(NoChangeLeft(AddKind)), s)
    else
      var head := s.changes[0];
      var rest := PollChange(s);
      match head
      case Add(m, _) => Transition(if verify(m) then Ok(m) else Err(VerificationRejected), rest)
      case _ => Transition(Err(UnexpectedChange(AddKind, head)), rest)
  }

  /** `verifyUpdated`: as `Added`, for an `Update` head; nothing is returned. */
  function Updated(s: VerifierState, verify: Model -> bool): (r: Transition<()>)
    ensures r.next == PollChange(s)
    ensures r.outcome.Ok? <==> s.changes != [] && s.changes[0].Update? && verify(s.changes[0].model)
    ensures s.changes == [] ==> r.outcome == Err(NoChangeLeft(UpdateKind))
    ensures s.changes != [] && !s.changes[0].Update? ==> r.outcome == Err(UnexpectedChange(UpdateKind, s.changes[0]))
  {
    if s.changes == [] then Transition(Err(NoChangeLeft(UpdateKind)), s)
    else
      var head := s.changes[0];
      var rest := PollChange(s);
      match head
      case Update(m, _) => Transition(if verify(m) then Ok(()) else Err(VerificationRejected), rest)
      case _ => Transition(Err(UnexpectedChange(UpdateKind, head)), rest)
  }

  /** `verifyEmitted`: polls the head event and hands it to `verify`; the change queue is untouched. */
  function Emitted(s: VerifierState, verify: ModelEvent -> bool): (r: Transition<()>)
    ensures r.next.changes == s.changes
    ensures s.events != [] ==> [s.events[0]] + r.next.events == s.events
    ensures s.events == [] ==> r == Transition(Err(NoEventLeft), s)
    ensures r.outcome.Ok? <==> s.events != [] && verify(s.events[0])
  {
    if s.events == [] then Transition(Err(NoEventLeft), s)
    else
      var rest := s.(events := s.events[1..]);
      Transition(if verify(s.events[0]) then Ok(()) else Err(VerificationRejected), rest)
  }

  /** `verifyEnd`: passes exactly when both queues are drained; leftover changes are reported first. */
  function End(s: VerifierState): (r: Outcome<Failure>)
    ensures r == Pass <==> s.changes == [] && s.events == []
    ensures s.changes != [] ==> r == Fail(ChangesRemaining)
    ensures s.changes == [] && s.events != [] ==> r == Fail(EventsRemaining)
  {
    if s.changes != [] then Fail(ChangesRemaining)
    else if s.events != [] then Fail(EventsRemaining)
    else Pass
  }

  class UowSpecBase<R> {
    const result: R
    var executionHistory: seq<Change>
    var publishedEvents: seq<ModelEvent>
    const peekingPersisting: PeekingPersisting

    /** Between calls the hand-off slot is empty. */
    ghost predicate Valid()
      reads this, peekingPersisting
    {
      peekingPersisting.currentModel == None
    }

    ghost function State(): VerifierState
      reads this
    {
      VerifierState(executionHistory, publishedEvents)
    }

    constructor (changes: ChangesWithResult<R>)
      ensures Valid() && fresh(peekingPersisting)
      ensures result == changes.result
      ensures State() == Initial(changes)
    {
      result := changes.result;
      executionHistory := FilterNoop(changes.toPersist);
      publishedEvents := FlattenEvents(changes.toPersist);
      peekingPersisting := new PeekingPersisting();
    }

    method VerifyEnd() returns (r: Outcome<Failure>)
      ensures r == End(State())
    {
      if executionHistory != [] {
        return Fail(ChangesRemaining);
      }
      if publishedEvents != [] {
        return Fail(EventsRemaining);
      }
      r := Pass;
    }

    /** Hands the result to `verification`; neither queue is touched. */
    method VerifyResult(verification: R -> bool) returns (r: Outcome<Failure>)
      ensures r == Pass <==> verification(result)
      ensures r.Fail? ==> r.error == VerificationRejected
    {
      r := if verification(result) then Pass else Fail(VerificationRejected);
    }

    /** Polls the head change; an `Add` is persisted through the slot, peeked back and verified. */
    method VerifyAdded(verify: Model -> bool) returns (r: Result<Model, Failure>)
      requires Valid()
      modifies this, peekingPersisting
      ensures Valid()
      ensures Transition(r, State()) == Added(old(State()), verify)
    {
      if executionHistory == [] {
        return Err(NoChangeLeft(AddKind));
      }
      var next := executionHistory[0];
      executionHistory := executionHistory[1..];
      match next
      case Add(m, _) =>
        var deposited := peekingPersisting.Add(m);
        var taken := peekingPersisting.Peek();
        assert taken == Ok(m);
        var model := taken.value;
        r := if verify(model) then Ok(model) else Err(VerificationRejected);
      case _ =>
        r := Err(UnexpectedChange(AddKind, next));
    }

    /** Polls the head change; an `Update` is persisted through the slot, peeked back and verified. */
    method VerifyUpdated(verify: Model -> bool) returns (r: Result<(), Failure>)
      requires Valid()
      modifies this, peekingPersisting
      ensures Valid()
      ensures Transition(r, State()) == Updated(old(State()), verify)
    {
      if executionHistory == [] {
        return Err(NoChangeLeft(UpdateKind));
      }
      var next := executionHistory[0];
      executionHistory := executionHistory[1..];
      match next
      case Update(m, _) =>
        var deposited := peekingPersisting.Update(m);
        var taken := peekingPersisting.Peek();
        assert taken == Ok(m);
        var model := taken.value;
        r := if verify(model) then Ok(()) else Err(VerificationRejected);
      case _ =>
        r := Err(UnexpectedChange(UpdateKind, next));
    }

    /** Polls the head event and verifies it. */
    method VerifyEmitted(verify: ModelEvent -> bool) returns (r: Result<(), Failure>)
      modifies this
      ensures Transition(r, State()) == Emitted(old(State()), verify)
    {
      if publishedEvents == [] {
        return Err(NoEventLeft);
      }
      var next := publishedEvents[0];
      publishedEvents := publishedEvents[1..];
      r := if verify(next) then Ok(()) else Err(VerificationRejected);
    }
  }
}
