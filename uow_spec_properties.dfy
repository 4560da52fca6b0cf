/**
 * What a test body built on `UowSpecBase` can conclude: a sequence of
 * `verifyAdded` / `verifyUpdated` / `verifyEmitted` calls whose callbacks
 * accept everything is followed by a passing `verifyEnd` exactly when it
 * consumes every non-`Noop` change once, in recorded order and with the
 * right kind, and every emitted event once.
 */
module UowSpecProperties {
  import opened Wrappers
  import opened Domain
  import opened UowSpec

  /** One call of a test body. */
  datatype Call = CallAdded | CallUpdated | CallEmitted

  function AcceptModel(m: Model): bool { true }

  function AcceptEvent(e: ModelEvent): bool { true }

  /** The queues after one call whose callback accepts, or `None` when the call throws. */
  function Step(s: VerifierState, call: Call): Option<VerifierState>
  {
    match call
    case CallAdded =>
      var t := Added(s, AcceptModel);
      if t.outcome.Ok? then Some(t.next) else None
    case CallUpdated =>
      var t := Updated(s, AcceptModel);
      if t.outcome.Ok? then Some(t.next) else None
    case CallEmitted =>
      var t := Emitted(s, AcceptEvent);
      if t.outcome.Ok? then Some(t.next) else None
  }

  /** Runs the calls in order, stopping at the first one that throws. */
  function Run(s: VerifierState, calls: seq<Call>): Option<VerifierState>
    decreases |calls|
  {
    if calls == [] then Some(s)
    else match Step(s, calls[0])
      case None => None
      case Some(t) => Run(t, calls[1..])
  }

  /** The change kinds the calls expect, in call order. */
  function ChangeKinds(calls: seq<Call>): seq<ChangeKind>
  {
    if calls == [] then []
    else match calls[0]
      case CallAdded => [AddKind] + ChangeKinds(calls[1..])
      case CallUpdated => [UpdateKind] + ChangeKinds(calls[1..])
      case CallEmitted => ChangeKinds(calls[1..])
  }

  /** The number of `verifyEmitted` calls. */
  function EventCalls(calls: seq<Call>): nat
  {
    if calls == [] then 0
    else (if calls[0] == CallEmitted then 1 else 0) + EventCalls(calls[1..])
  }

  predicate KindMatches(c: Change, k: ChangeKind)
  {
    (c.Add? && k == AddKind) || (c.Update? && k == UpdateKind)
  }

  /** `cs` and `ks` agree position by position. */
  predicate Matches(cs: seq<Change>, ks: seq<ChangeKind>)
  {
    |cs| == |ks| && forall i :: 0 <= i < |cs| ==> KindMatches(cs[i], ks[i])
  }

  lemma MatchesCons(c: Change, cs: seq<Change>, k: ChangeKind, ks: seq<ChangeKind>)
    ensures Matches([c] + cs, [k] + ks) <==> KindMatches(c, k) && Matches(cs, ks)
  {
    var a, b := [c] + cs, [k] + ks;
    assert a[0] == c && b[0] == k;
    assert forall i :: 0 <= i < |cs| ==> a[i + 1] == cs[i];
    assert forall i :: 0 <= i < |ks| ==> b[i + 1] == ks[i];
    if KindMatches(c, k) && Matches(cs, ks) {
      forall i | 0 <= i < |a| ensures KindMatches(a[i], b[i]) {
        if i > 0 {
          assert a[i] == cs[i - 1] && b[i] == ks[i - 1];
        }
      }
    }
  }

  /** A run succeeds exactly when the calls' change kinds match a prefix of the change queue and there are enough events; it consumes exactly those. */
  lemma {:induction false} RunSucceedsIff(s: VerifierState, calls: seq<Call>)
    ensures Run(s, calls).Some? <==>
      |ChangeKinds(calls)| <= |s.changes|
      && Matches(s.changes[..|ChangeKinds(calls)|], ChangeKinds(calls))
      && EventCalls(calls) <= |s.events|
    ensures Run(s, calls).Some? ==>
      Run(s, calls).value == VerifierState(s.changes[|ChangeKinds(calls)|..], s.events[EventCalls(calls)..])
    decreases |calls|
  {
    if calls == [] {
      assert s.changes[..0] == [] && s.changes[0..] == s.changes && s.events[0..] == s.events;
      return;
    }
    var rest := calls[1..];
    var ks, n := ChangeKinds(rest), EventCalls(rest);
    match calls[0]
    case CallEmitted =>
      assert ChangeKinds(calls) == ks && EventCalls(calls) == n + 1;
      if s.events == [] {
        assert Step(s, calls[0]) == None;
      } else {
        var t := Emitted(s, AcceptEvent).next;
        assert Step(s, calls[0]) == Some(t);
        RunSucceedsIff(t, rest);
        assert t.changes == s.changes && t.events == s.events[1..];
        if n <= |t.events| {
          assert t.events[n..] == s.events[n + 1..];
        }
      }
    case CallAdded =>
      ChangeStep(s, calls, AddKind);
    case CallUpdated =>
      ChangeStep(s, calls, UpdateKind);
  }

  /** The inductive step of `RunSucceedsIff` for a change-consuming first call. */
  lemma {:induction false} ChangeStep(s: VerifierState, calls: seq<Call>, k: ChangeKind)
    requires calls != [] && calls[0] != CallEmitted
    requires k == if calls[0] == CallAdded then AddKind else UpdateKind
    ensures Run(s, calls).Some? <==>
      |ChangeKinds(calls)| <= |s.changes|
      && Matches(s.changes[..|ChangeKinds(calls)|], ChangeKinds(calls))
      && EventCalls(calls) <= |s.events|
    ensures Run(s, calls).Some? ==>
      Run(s, calls).value == VerifierState(s.changes[|ChangeKinds(calls)|..], s.events[EventCalls(calls)..])
    decreases |calls|, 0
  {
    var rest := calls[1..];
    var ks, n := ChangeKinds(rest), EventCalls(rest);
    assert ChangeKinds(calls) == [k] + ks && EventCalls(calls) == n;
    if s.changes == [] {
      assert Step(s, calls[0]) == None;
      return;
    }
    var c := s.changes[0];
    var t := PollChange(s);
    assert t == VerifierState(s.changes[1..], s.events);
    if KindMatches(c, k) {
      assert Step(s, calls[0]) == Some(t);
      RunSucceedsIff(t, rest);
      if |ks| <= |t.changes| {
        assert s.changes[..1 + |ks|] == [c] + t.changes[..|ks|];
        MatchesCons(c, t.changes[..|ks|], k, ks);
        assert t.changes[|ks|..] == s.changes[1 + |ks|..];
      }
    } else {
      assert Step(s, calls[0]) == None;
      if 1 + |ks| <= |s.changes| {
        assert s.changes[..1 + |ks|] == [c] + s.changes[1..1 + |ks|];
        MatchesCons(c, s.changes[1..1 + |ks|], k, ks);
      }
    }
  }

  /**
   * The consumption theorem: starting from a freshly built verifier, a run
   * of accepting calls ends with a passing `verifyEnd` if and only if its
   * change calls name the kinds of the non-`Noop` changes one by one, in
   * recorded order, and it makes one `verifyEmitted` call per emitted event.
   */
  lemma ConsumeExactlyOnce<R>(c: ChangesWithResult<R>, calls: seq<Call>)
    ensures (Run(Initial(c), calls).Some? && End(Run(Initial(c), calls).value) == Pass) <==>
      Matches(FilterNoop(c.toPersist), ChangeKinds(calls)) && EventCalls(calls) == |FlattenEvents(c.toPersist)|
  {
    var s := Initial(c);
    RunSucceedsIff(s, calls);
    var k, n := |ChangeKinds(calls)|, EventCalls(calls);
    if Matches(s.changes, ChangeKinds(calls)) && n == |s.events| {
      assert s.changes[..k] == s.changes;
      assert s.changes[k..] == [] && s.events[n..] == [];
    }
  }

  /** The calls that consume one list of changes in order. */
  function ChangeCalls(cs: seq<Change>): seq<Call>
  {
    if cs == [] then [] else [if cs[0].Add? then CallAdded else CallUpdated] + ChangeCalls(cs[1..])
  }

  /** `n` calls of `verifyEmitted`. */
  function EmitCalls(n: nat): seq<Call>
  {
    if n == 0 then [] else [CallEmitted] + EmitCalls(n - 1)
  }

  /** The test body that verifies every non-`Noop` change, then every event. */
  function CanonicalScript<R>(c: ChangesWithResult<R>): seq<Call>
  {
    ChangeCalls(FilterNoop(c.toPersist)) + EmitCalls(|FlattenEvents(c.toPersist)|)
  }

  lemma {:induction false} CallCounts(a: seq<Call>, b: seq<Call>)
    ensures ChangeKinds(a + b) == ChangeKinds(a) + ChangeKinds(b)
    ensures EventCalls(a + b) == EventCalls(a) + EventCalls(b)
    decreases |a|
  {
    if a == [] {
      assert a + b == b;
    } else {
      assert (a + b)[1..] == a[1..] + b;
      CallCounts(a[1..], b);
    }
  }

  lemma {:induction false} ChangeCallsMatch(cs: seq<Change>)
    requires Noop !in cs
    ensures Matches(cs, ChangeKinds(ChangeCalls(cs)))
    ensures EventCalls(ChangeCalls(cs)) == 0
    decreases |cs|
  {
    if cs != [] {
      assert cs[0] in cs;
      assert forall c :: c in cs[1..] ==> c in cs;
      ChangeCallsMatch(cs[1..]);
      var head := if cs[0].Add? then CallAdded else CallUpdated;
      assert ChangeCalls(cs)[0] == head && ChangeCalls(cs)[1..] == ChangeCalls(cs[1..]);
      assert ChangeKinds(ChangeCalls(cs)) == [if cs[0].Add? then AddKind else UpdateKind] + ChangeKinds(ChangeCalls(cs[1..]));
      assert cs == [cs[0]] + cs[1..];
      MatchesCons(cs[0], cs[1..], if cs[0].Add? then AddKind else UpdateKind, ChangeKinds(ChangeCalls(cs[1..])));
    }
  }

  lemma {:induction false} EmitCallsCount(n: nat)
    ensures ChangeKinds(EmitCalls(n)) == []
    ensures EventCalls(EmitCalls(n)) == n
  {
    if n > 0 {
      EmitCallsCount(n - 1);
      assert EmitCalls(n)[1..] == EmitCalls(n - 1);
    }
  }

  /** Verifying each non-`Noop` change once, in order, then each event once, makes `verifyEnd` pass. */
  lemma CanonicalScriptPasses<R>(c: ChangesWithResult<R>)
    ensures Run(Initial(c), CanonicalScript(c)).Some?
    ensures End(Run(Initial(c), CanonicalScript(c)).value) == Pass
  {
    var cs := FilterNoop(c.toPersist);
    var n := |FlattenEvents(c.toPersist)|;
    CallCounts(ChangeCalls(cs), EmitCalls(n));
    ChangeCallsMatch(cs);
    EmitCallsCount(n);
    assert ChangeKinds(CanonicalScript(c)) == ChangeKinds(ChangeCalls(cs));
    ConsumeExactlyOnce(c, CanonicalScript(c));
  }

  /** Removing `Noop`s respects concatenation, so the original order is kept. */
  lemma {:induction false} FilterNoopAppend(a: seq<Change>, b: seq<Change>)
    ensures FilterNoop(a + b) == FilterNoop(a) + FilterNoop(b)
    decreases |a|
  {
    if a == [] {
      assert a + b == b;
    } else {
      assert (a + b)[0] == a[0] && (a + b)[1..] == a[1..] + b;
      FilterNoopAppend(a[1..], b);
    }
  }

  /** Flattening respects concatenation: events come out in change order. */
  lemma {:induction false} FlattenEventsAppend(a: seq<Change>, b: seq<Change>)
    ensures FlattenEvents(a + b) == FlattenEvents(a) + FlattenEvents(b)
    decreases |a|
  {
    if a == [] {
      assert a + b == b;
    } else {
      assert (a + b)[0] == a[0] && (a + b)[1..] == a[1..] + b;
      FlattenEventsAppend(a[1..], b);
    }
  }

  /** `Noop`s contribute no events: the event queue is the same with or without them. */
  lemma {:induction false} FlattenIgnoresNoop(cs: seq<Change>)
    ensures FlattenEvents(FilterNoop(cs)) == FlattenEvents(cs)
    decreases |cs|
  {
    if cs != [] {
      FlattenIgnoresNoop(cs[1..]);
      if cs[0] != Noop {
        var r := [cs[0]] + FilterNoop(cs[1..]);
        assert r[0] == cs[0] && r[1..] == FilterNoop(cs[1..]);
      }
    }
  }

  /** A list without `Noop`s is kept as it is. */
  lemma {:induction false} FilterNoopKeepsNoopFree(cs: seq<Change>)
    requires Noop !in cs
    ensures FilterNoop(cs) == cs
    decreases |cs|
  {
    if cs != [] {
      assert cs[0] in cs;
      assert forall c :: c in cs[1..] ==> c in cs;
      FilterNoopKeepsNoopFree(cs[1..]);
      assert cs == [cs[0]] + cs[1..];
    }
  }
}
