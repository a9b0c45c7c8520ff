/** `onceOn` step by step: the module-level `_AbortError` with
    `setAbortError`, and one pending call whose closures `handler` and
    `aborter` add and remove listeners on the target and the signal and
    settle the promise. One departure from the code: the closures remove
    their listeners with the `capture` option they were added with, where
    lines 59, 61, 71 and 72 pass no options (`OnceSpec.CleanupAsWritten`
    models those lines). Every step is proved to be the step function of
    OnceSpec, so what OnceProperties proves holds of these objects. */
module EventTargetOnce {
  import opened Dom
  import opened OnceSpec
  import OnceProperties

  /** The module variable `_AbortError` (lines 86-97). Its initial value,
      the host's AbortError or the module's own class, is a parameter. */
  class AbortErrorSlot {
    var current: Ctor

    constructor (initial: Ctor)
      ensures current == initial
    {
      current := initial;
    }

    /** `setAbortError`: later rejections are built with `ctor`. */
    method SetAbortError(ctor: Ctor)
      modifies this
      ensures current == ctor
    {
      current := ctor;
    }
  }

  /** One call of `onceOn`: its arguments, its two closures and its promise. */
  class PendingOnce {
    const call: Call
    const target: EventTarget
    const errors: AbortErrorSlot
    var state: Settlement

    /** The signal, as a frame. */
    function SignalObjects(): set<object>
    {
      if call.options.signal.Some? then {call.options.signal.value} else {}
    }

    /** Everything the call reads or writes, as OnceSpec sees it. */
    function Snap(): Snapshot
      reads this, target, errors, SignalObjects()
    {
      Snapshot(
        target.listeners,
        if call.options.signal.Some? then call.options.signal.value.listeners else {},
        call.options.signal.Some? && call.options.signal.value.aborted,
        errors.current,
        state)
    }

    ghost predicate Valid()
      reads this, target, errors, SignalObjects()
    {
      Inv(call, Snap())
    }

    /** `onceOn(target, eventType, options)`, lines 15-80. */
    constructor Start(target: EventTarget, eventType: string, options: OnceOptions, errors: AbortErrorSlot)
      modifies target, if options.signal.Some? then {options.signal.value} else {}
      ensures this.target == target && this.errors == errors
      ensures call.eventType == eventType && call.options == options
      ensures fresh(call.handler) && fresh(call.aborter)
      ensures Snap() == OnceSpec.Start(call, old(target.listeners),
        if options.signal.Some? then old(options.signal.value.listeners) else {},
        options.signal.Some? && old(options.signal.value.aborted), old(errors.current))
      ensures Valid()
    {
      var handler := new Closure();
      var aborter := new Closure();
      call := Call(eventType, options, handler, aborter);
      this.target := target;
      this.errors := errors;
      var fastPath := options.signal.Some? && options.signal.value.aborted;
      state := if fastPath then Rejected(AbortErrorOf(errors.current)) else Waiting;
      new;
      ghost var signalListeners := if options.signal.Some? then options.signal.value.listeners else {};
      assert FreshClosures(call, target.listeners, signalListeners);
      OnceProperties.StartEstablishesInv(call, target.listeners, signalListeners, fastPath, errors.current);
      if !fastPath {
        var eventOptions := TargetOptions(options);
        target.AddEventListener(eventType, handler, eventOptions);
        if options.signal.Some? {
          // lines 38-39 update eventOptions in place; the target keeps its copy
          eventOptions := eventOptions.(
            once := Bool(true),
            passive := if options.abortPassive != Undefined then options.abortPassive else eventOptions.passive);
          options.signal.value.AddEventListener("abort", aborter, eventOptions);
        }
      }
    }

    /** An event of `eventType` reaches the target. */
    method DeliverEvent(evt: EventValue, outcome: FilterOutcome)
      requires Valid()
      modifies this, target, SignalObjects()
      ensures Snap() == EventStep(call, old(Snap()), evt, outcome)
      ensures Valid()
    {
      ghost var before := Snap();
      var invoked := target.Invoke(call.eventType, call.handler, Truthy(call.options.capture));
      if invoked {
        Handler(evt, outcome);
      }
      OnceProperties.StepPreservesInv(call, before, Event(evt, outcome));
    }

    /** `handler`, lines 45-66; `outcome` is what the filter did, if there
        is one. The two removals pass the call's `capture` option, where
        lines 59 and 61 pass none (see `OnceSpec.CleanupAsWritten`). */
    method Handler(evt: EventValue, outcome: FilterOutcome)
      modifies this, target, SignalObjects()
      ensures Snap() == HandlerRun(call, old(Snap()), evt, outcome)
    {
      var value: Value := evt;
      if Truthy(call.options.filter) {
        match outcome
        case Returned(v) => value := v;
        case Threw =>  // the exception is swallowed and the event kept
      }
      if Truthy(call.options.filter) && value == Bool(false) {
        return;
      }
      target.RemoveEventListener(call.eventType, call.handler, call.options.capture);
      if call.options.signal.Some? {
        call.options.signal.value.RemoveEventListener("abort", call.aborter, call.options.capture);
      }
      if state.Waiting? {
        state := Resolved(value);
      }
    }

    /** The signal is aborted. */
    method DeliverAbort()
      requires Valid()
      modifies this, target, SignalObjects()
      ensures Snap() == AbortStep(call, old(Snap()))
      ensures Valid()
    {
      ghost var before := Snap();
      if call.options.signal.Some? {
        var signal := call.options.signal.value;
        var fired := signal.Abort();
        if fired {
          var invoked := signal.Invoke("abort", call.aborter, Truthy(call.options.capture));
          if invoked {
            Aborter();
          }
        }
      }
      OnceProperties.StepPreservesInv(call, before, Abort);
    }

    /** `aborter`, lines 69-76. The two removals pass the call's `capture`
        option, where lines 71 and 72 pass none (see
        `OnceSpec.CleanupAsWritten`). */
    method Aborter()
      requires call.options.signal.Some?
      modifies this, target, SignalObjects()
      ensures Snap() == AborterRun(call, old(Snap()))
    {
      target.RemoveEventListener(call.eventType, call.handler, call.options.capture);
      call.options.signal.value.RemoveEventListener("abort", call.aborter, call.options.capture);
      if state.Waiting? {
        state := Rejected(AbortErrorOf(errors.current));
      }
    }
  }

  /** A client: events "a", "b" and "c" on "msg", with a filter that turns
      down "a" and maps "b" to "B". The promise resolves to "B", the target
      is left with no listener, and "c" does not reach the handler. */
  method FilteredMessages(a: EventValue, b: EventValue, c: EventValue, filter: Value)
    requires Truthy(filter)
  {
    var target := new EventTarget();
    var errors := new AbortErrorSlot(Ctor(0));
    var options := OnceOptions(filter, None, Undefined, Undefined, Undefined);
    var op := new PendingOnce.Start(target, "msg", options, errors);
    assert op.state == Waiting;
    op.DeliverEvent(a, Returned(Bool(false)));
    assert op.state == Waiting;
    op.DeliverEvent(b, Returned(Str("B")));
    assert op.state == Resolved(Str("B"));
    assert target.listeners == {} by {
      OnceProperties.RegistrationOptions(op.call);
    }
    op.DeliverEvent(c, Returned(Str("C")));
    assert op.state == Resolved(Str("B"));
  }

  /** A client: `setAbortError` between the call and the abort decides the
      rejection's constructor; one after the rejection changes nothing. */
  method ReplacedAbortError(evt: EventValue)
  {
    var target := new EventTarget();
    var signal := new AbortSignal(false);
    var errors := new AbortErrorSlot(Ctor(0));
    var options := OnceOptions(Undefined, Some(signal), Bool(true), Undefined, Undefined);
    var op := new PendingOnce.Start(target, "msg", options, errors);
    ghost var s0 := op.Snap();
    assert s0.state == Waiting && s0.onTarget == {HandlerListener(op.call)};
    errors.SetAbortError(Ctor(1));
    assert op.Snap() == s0.(abortError := Ctor(1));
    op.DeliverAbort();
    OnceProperties.AbortWhileWaiting(op.call, s0.(abortError := Ctor(1)));
    assert op.state == Rejected(AbortErrorOf(Ctor(1)));
    assert target.listeners == {} && signal.listeners == {};
    ghost var s1 := op.Snap();
    errors.SetAbortError(Ctor(2));
    assert op.Snap() == s1.(abortError := Ctor(2));
    op.DeliverEvent(evt, Threw);
    assert op.state == Rejected(AbortErrorOf(Ctor(1)));
  }

  /** A client: an already aborted signal rejects at once and nothing is
      registered. */
  method AlreadyAborted()
  {
    var target := new EventTarget();
    var signal := new AbortSignal(true);
    var errors := new AbortErrorSlot(Ctor(0));
    var options := OnceOptions(Undefined, Some(signal), Undefined, Undefined, Undefined);
    var op := new PendingOnce.Start(target, "msg", options, errors);
    assert op.state == Rejected(AbortErrorOf(Ctor(0)));
    assert target.listeners == {} && signal.listeners == {};
  }
}
