/** What `onceOn` promises, proved about the step functions of OnceSpec:
    registration and its options, the fast path for an aborted signal, the
    filter's decision, settlement and the removal of both listeners, the
    settlement never changing afterwards, and the error constructor being
    read when the abort happens. */
module OnceProperties {
  import opened Dom
  import opened OnceSpec

  /** Lines 20-24 and 36-41: the options each listener is registered with. */
  lemma RegistrationOptions(c: Call)
    ensures Matches(HandlerListener(c), c.eventType, c.handler, Capture(c))
    ensures HandlerListener(c).once <==> !HasFilter(c)
    ensures HandlerListener(c).passive <==> (c.options.passive == Undefined || Truthy(c.options.passive))
    ensures Matches(AborterListener(c), "abort", c.aborter, Capture(c))
    ensures AborterListener(c).once
    ensures c.options.abortPassive != Undefined ==> (AborterListener(c).passive <==> Truthy(c.options.abortPassive))
    ensures c.options.abortPassive == Undefined ==> AborterListener(c).passive == HandlerListener(c).passive
  {
  }

  /** Lines 26-42: an aborted signal rejects at once with `_AbortError("Aborted")`
      and registers nothing; otherwise the handler is added to the target and,
      when there is a signal, the aborter to the signal, and the call waits. */
  lemma StartEstablishesInv(c: Call, onTarget: set<Listener>, onSignal: set<Listener>, aborted: bool, k: Ctor)
    requires FreshClosures(c, onTarget, onSignal)
    ensures var s := Start(c, onTarget, onSignal, aborted, k);
      Inv(c, s) && s.aborted == aborted && s.abortError == k &&
      (HasSignal(c) && aborted ==>
        s.state == Rejected(AbortErrorOf(k)) && s.onTarget == onTarget && s.onSignal == onSignal) &&
      (!(HasSignal(c) && aborted) ==>
        s.state == Waiting && s.onTarget == onTarget + {HandlerListener(c)} &&
        s.onSignal == if HasSignal(c) then onSignal + {AborterListener(c)} else onSignal)
  {
  }

  /** Lines 45-66: what one event does to a waiting call. A filter result of
      literally `false` changes nothing; anything else (a thrown exception
      keeps the event) resolves the promise with that value after both
      listeners are removed, and no other listener is touched. */
  lemma EventWhileWaiting(c: Call, s: Snapshot, evt: EventValue, outcome: FilterOutcome)
    requires Inv(c, s) && s.state.Waiting?
    ensures var r := EventStep(c, s, evt, outcome);
      var v := Filtered(c, evt, outcome);
      Inv(c, r) && r.aborted == s.aborted && r.abortError == s.abortError &&
      (HasFilter(c) && v == Bool(false) ==> r == s) &&
      (!(HasFilter(c) && v == Bool(false)) ==>
        r.state == Resolved(v) &&
        r.onTarget == s.onTarget - {HandlerListener(c)} &&
        r.onSignal == if HasSignal(c) then s.onSignal - {AborterListener(c)} else s.onSignal)
  {
  }

  /** Lines 69-76: an abort of a waiting call removes both listeners and
      rejects with the constructor `_AbortError` holds at that moment. */
  lemma AbortWhileWaiting(c: Call, s: Snapshot)
    requires Inv(c, s) && s.state.Waiting? && HasSignal(c)
    ensures var r := AbortStep(c, s);
      Inv(c, r) && r.aborted && r.abortError == s.abortError &&
      r.state == Rejected(AbortErrorOf(s.abortError)) &&
      r.onTarget == s.onTarget - {HandlerListener(c)} &&
      r.onSignal == s.onSignal - {AborterListener(c)}
  {
  }

  /** Once settled, nothing moves: neither listener is left to fire, so an
      event or an abort changes neither list nor the settlement. */
  lemma SettledIsFinal(c: Call, s: Snapshot, i: Input)
    requires Inv(c, s) && !s.state.Waiting?
    ensures var r := Step(c, s, i);
      Inv(c, r) && r.state == s.state && r.onTarget == s.onTarget && r.onSignal == s.onSignal
  {
  }

  lemma StepPreservesInv(c: Call, s: Snapshot, i: Input)
    requires Inv(c, s)
    ensures Inv(c, Step(c, s, i))
  {
  }

  lemma {:induction false} RunPreservesInv(c: Call, s: Snapshot, inputs: seq<Input>)
    requires Inv(c, s)
    ensures Inv(c, Run(c, s, inputs))
    decreases |inputs|
  {
    if inputs != [] {
      StepPreservesInv(c, s, inputs[0]);
      RunPreservesInv(c, Step(c, s, inputs[0]), inputs[1..]);
    }
  }

  lemma {:induction false} RunSettledIsFinal(c: Call, s: Snapshot, inputs: seq<Input>)
    requires Inv(c, s) && !s.state.Waiting?
    ensures var r := Run(c, s, inputs);
      r.state == s.state && r.onTarget == s.onTarget && r.onSignal == s.onSignal
    decreases |inputs|
  {
    if inputs != [] {
      SettledIsFinal(c, s, inputs[0]);
      RunSettledIsFinal(c, Step(c, s, inputs[0]), inputs[1..]);
    }
  }

  lemma {:induction false} RunAppend(c: Call, s: Snapshot, a: seq<Input>, b: seq<Input>)
    ensures Run(c, s, a + b) == Run(c, Run(c, s, a), b)
    decreases |a|
  {
    if a == [] {
      assert a + b == b;
    } else {
      assert (a + b)[0] == a[0];
      assert (a + b)[1..] == a[1..] + b;
      RunAppend(c, Step(c, s, a[0]), a[1..], b);
    }
  }

  /** Settlement is final: the settlement reached after a prefix of the
      inputs is the one after every longer prefix, and from then on neither
      the target nor the signal holds this call's handler or aborter. */
  lemma SettlementIsFinal(c: Call, s: Snapshot, inputs: seq<Input>, i: nat, j: nat)
    requires Inv(c, s) && i <= j <= |inputs|
    requires !Run(c, s, inputs[..i]).state.Waiting?
    ensures Run(c, s, inputs[..j]).state == Run(c, s, inputs[..i]).state
    ensures Unhooked(c, Run(c, s, inputs[..j]))
  {
    assert inputs[..j] == inputs[..i] + inputs[i..j];
    RunAppend(c, s, inputs[..i], inputs[i..j]);
    RunPreservesInv(c, s, inputs[..i]);
    RunSettledIsFinal(c, Run(c, s, inputs[..i]), inputs[i..j]);
    RunPreservesInv(c, s, inputs[..j]);
  }

  /** Events that the filter turns down, one per element of `evts`. */
  function Skips(evts: seq<EventValue>): (r: seq<Input>)
    ensures |r| == |evts|
    ensures forall k :: 0 <= k < |r| ==> r[k] == Event(evts[k], Returned(Bool(false)))
  {
    if evts == [] then [] else [Event(evts[0], Returned(Bool(false)))] + Skips(evts[1..])
  }

  lemma {:induction false} SkipsLeaveCallWaiting(c: Call, s: Snapshot, evts: seq<EventValue>)
    requires Inv(c, s) && s.state.Waiting? && HasFilter(c)
    ensures Run(c, s, Skips(evts)) == s
    decreases |evts|
  {
    if evts != [] {
      var ins := Skips(evts);
      EventWhileWaiting(c, s, evts[0], Returned(Bool(false)));
      assert ins[1..] == Skips(evts[1..]);
      SkipsLeaveCallWaiting(c, s, evts[1..]);
    }
  }

  /** A filter that returns `false` for a run of events and then a value
      `v` resolves the promise with `v`, leaving no listener behind. Any value
      other than literal `false`, falsy ones included, qualifies. */
  lemma FilterAcceptsAfterSkips(c: Call, s: Snapshot, evts: seq<EventValue>, e: EventValue, v: Value)
    requires Inv(c, s) && s.state.Waiting? && HasFilter(c) && v != Bool(false)
    ensures var r := Run(c, s, Skips(evts) + [Event(e, Returned(v))]);
      r.state == Resolved(v) && Unhooked(c, r)
  {
    RunAppend(c, s, Skips(evts), [Event(e, Returned(v))]);
    SkipsLeaveCallWaiting(c, s, evts);
    EventWhileWaiting(c, s, e, Returned(v));
  }

  /** Lines 47-52: a filter that throws is as if it had not run; the event
      itself qualifies and the promise resolves with it. */
  lemma ThrowingFilterKeepsEvent(c: Call, s: Snapshot, evt: EventValue)
    requires Inv(c, s) && s.state.Waiting?
    ensures var r := EventStep(c, s, evt, Threw);
      r.state == Resolved(evt) && Unhooked(c, r)
  {
  }

  /** The error a call rejects with is read when the abort happens: a
      `setAbortError` made after the call started but before the abort
      decides the constructor. */
  lemma AbortErrorReadAtAbort(c: Call, s: Snapshot, k: Ctor)
    requires Inv(c, s) && s.state.Waiting? && HasSignal(c)
    ensures Run(c, s, [SetAbortError(k), Abort]).state == Rejected(AbortErrorOf(k))
  {
    var s1 := s.(abortError := k);
    assert Inv(c, s1);
    AbortWhileWaiting(c, s1);
    assert [SetAbortError(k), Abort][1..] == [Abort];
    assert Run(c, s, [SetAbortError(k), Abort]) == Run(c, s1, [Abort]);
    assert Run(c, s1, [Abort]) == Run(c, AbortStep(c, s1), []);
  }

  /** From a fresh start with no filter, the first event
      resolves the promise with that very event, and the target keeps no
      listener of the call. */
  lemma FirstEventResolvesWithoutFilter(c: Call, onTarget: set<Listener>, onSignal: set<Listener>, aborted: bool, k: Ctor, evt: EventValue, outcome: FilterOutcome)
    requires FreshClosures(c, onTarget, onSignal) && !HasFilter(c) && !(HasSignal(c) && aborted)
    ensures var r := EventStep(c, Start(c, onTarget, onSignal, aborted, k), evt, outcome);
      r.state == Resolved(evt) && r.onTarget == onTarget && r.onSignal == onSignal
  {
  }

  /** From a fresh start, whichever of an event and an
      abort comes first decides, and afterwards both lists are as they were
      before the call. */
  lemma AbortBeforeEvent(c: Call, onTarget: set<Listener>, onSignal: set<Listener>, k: Ctor, evt: EventValue, outcome: FilterOutcome)
    requires FreshClosures(c, onTarget, onSignal) && HasSignal(c)
    ensures var r := Run(c, Start(c, onTarget, onSignal, false, k), [Abort, Event(evt, outcome)]);
      r.state == Rejected(AbortErrorOf(k)) && r.onTarget == onTarget && r.onSignal == onSignal
  {
    var s := Start(c, onTarget, onSignal, false, k);
    StartEstablishesInv(c, onTarget, onSignal, false, k);
    AbortWhileWaiting(c, s);
    var s1 := AbortStep(c, s);
    SettledIsFinal(c, s1, Event(evt, outcome));
    assert [Abort, Event(evt, outcome)][1..] == [Event(evt, outcome)];
    assert Run(c, s, [Abort, Event(evt, outcome)]) == Run(c, s1, [Event(evt, outcome)]);
    assert Run(c, s1, [Event(evt, outcome)]) == Run(c, Step(c, s1, Event(evt, outcome)), []);
    assert HandlerListener(c) !in onTarget && AborterListener(c) !in onSignal;
    assert s.onTarget - {HandlerListener(c)} == onTarget;
    assert s.onSignal - {AborterListener(c)} == onSignal;
  }

  /** Lines 59-62 as written remove without the capture flag: a call made
      with a truthy `capture` keeps both of its listeners after the cleanup
      that should have removed them. */
  lemma CleanupAsWrittenKeepsCaptureListeners(c: Call, s: Snapshot)
    requires Inv(c, s) && s.state.Waiting? && Capture(c)
    ensures HandlerListener(c) in CleanupAsWritten(c, s).onTarget
    ensures HasSignal(c) ==> AborterListener(c) in CleanupAsWritten(c, s).onSignal
  {
  }

  /** The discrepancy at the level of one event: with a filter and a truthy
      `capture`, an accepted event resolves the promise as written, yet the
      handler stays on the target (and the aborter on the signal), so the
      invariant is broken. */
  lemma EventStepAsWrittenLeavesHandler(c: Call, s: Snapshot, evt: EventValue, v: Value)
    requires Inv(c, s) && s.state.Waiting? && Capture(c) && HasFilter(c) && v != Bool(false)
    ensures EventStepAsWritten(c, s, evt, Returned(v)).state == Resolved(v)
    ensures HandlerListener(c) in EventStepAsWritten(c, s, evt, Returned(v)).onTarget
    ensures HasSignal(c) ==> AborterListener(c) in EventStepAsWritten(c, s, evt, Returned(v)).onSignal
    ensures !Inv(c, EventStepAsWritten(c, s, evt, Returned(v)))
  {
    var h := HandlerListener(c);
    assert Matches(h, c.eventType, c.handler, Capture(c)) && !h.once;
    var s0 := s.(onTarget := Invoked(s.onTarget, c.eventType, c.handler, Capture(c)));
    assert h in s0.onTarget;
    CleanupAsWrittenKeepsCaptureListeners(c, s0);
  }

  /** Removing a listener that is not there changes nothing. */
  lemma RemoveUnregistered(ls: set<Listener>, eventType: string, callback: Closure, capture: bool)
    requires !Registered(ls, eventType, callback, capture)
    ensures Removed(ls, eventType, callback, capture) == ls
  {
  }

  /** A cleanup repeated on a call whose listeners are both gone changes
      nothing (lines 58-62 run again only through a surviving listener). */
  lemma SecondCleanupChangesNothing(c: Call, s: Snapshot)
    requires Unhooked(c, s)
    ensures Cleanup(c, s) == s
  {
  }

  /** The cleanup with the capture flag passed through removes both
      listeners, whatever `capture` is, and nothing else. */
  lemma CleanupRemovesBoth(c: Call, s: Snapshot)
    requires Inv(c, s) && s.state.Waiting?
    ensures var r := Cleanup(c, s);
      Unhooked(c, r) &&
      r.onTarget == s.onTarget - {HandlerListener(c)} &&
      r.onSignal == if HasSignal(c) then s.onSignal - {AborterListener(c)} else s.onSignal
  {
  }
}
