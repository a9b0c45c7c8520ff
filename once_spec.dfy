/** The state machine behind `onceOn` (eventtarget-once.js), as pure
    functions over a snapshot of everything one call can see or change: the
    listener list of the target, the listener list and aborted flag of the
    signal, the current `_AbortError` constructor and the settlement of the
    returned promise. The class in once.dfy is proved against these functions;
    the lemmas here state what the module promises about them. */
module OnceSpec {
  import opened Dom

  datatype Option<T> = None | Some(value: T)

  /** An error constructor, by identity (the module's own AbortError class,
      the host's, or whatever a caller handed to `setAbortError`). */
  datatype Ctor = Ctor(id: nat)

  /** What `new _AbortError("Aborted")` produces. */
  datatype AbortErrorValue = AbortErrorValue(ctor: Ctor, message: string)

  function AbortErrorOf(ctor: Ctor): AbortErrorValue
  {
    AbortErrorValue(ctor, "Aborted")
  }

  /** The returned promise. */
  datatype Settlement = Waiting | Resolved(value: Value) | Rejected(reason: AbortErrorValue)

  /** A promise settles once: a later resolve or reject does nothing. */
  function Settle(st: Settlement, outcome: Settlement): Settlement
  {
    if st.Waiting? then outcome else st
  }

  /** What the caller's filter did with one event. */
  datatype FilterOutcome = Returned(value: Value) | Threw

  /** The DOM passes every listener an Event object. */
  type EventValue = v: Value | v.Ref? witness Ref(0)

  /** The options of one call, as far as they influence it; `state` is only
      passed through to the filter and is not represented. A falsy `signal`
      is `None`. */
  datatype OnceOptions = OnceOptions(
    filter: Value,
    signal: Option<AbortSignal>,
    capture: Value,
    passive: Value,
    abortPassive: Value)

  /** The `eventOptions` object as it is when the handler is added. */
  function TargetOptions(o: OnceOptions): ListenerOptions
  {
    ListenerOptions(o.capture, Bool(!Truthy(o.filter)), if o.passive == Undefined then Bool(true) else o.passive)
  }

  /** The same object after its in-place update, when the aborter is added. */
  function AbortOptions(o: OnceOptions): ListenerOptions
  {
    var t := TargetOptions(o);
    t.(once := Bool(true), passive := if o.abortPassive != Undefined then o.abortPassive else t.passive)
  }

  /** One call: its arguments and the two closures it creates. */
  datatype Call = Call(eventType: string, options: OnceOptions, handler: Closure, aborter: Closure)

  predicate HasFilter(c: Call) { Truthy(c.options.filter) }

  predicate HasSignal(c: Call) { c.options.signal.Some? }

  predicate Capture(c: Call) { Truthy(c.options.capture) }

  /** The listener record the target keeps for the handler. */
  function HandlerListener(c: Call): Listener
  {
    Flatten(c.eventType, c.handler, TargetOptions(c.options))
  }

  /** The listener record the signal keeps for the aborter. */
  function AborterListener(c: Call): Listener
  {
    Flatten("abort", c.aborter, AbortOptions(c.options))
  }

  /** Everything one call reads or writes. When the call has no signal,
      `onSignal` and `aborted` are not touched. */
  datatype Snapshot = Snapshot(
    onTarget: set<Listener>,
    onSignal: set<Listener>,
    aborted: bool,
    abortError: Ctor,
    state: Settlement)

  /** `onceOn` itself: the already-aborted fast path, or the registration of
      the handler and, when there is a signal, of the aborter. */
  function Start(c: Call, onTarget: set<Listener>, onSignal: set<Listener>, aborted: bool, abortError: Ctor): Snapshot
  {
    if HasSignal(c) && aborted then
      Snapshot(onTarget, onSignal, aborted, abortError, Rejected(AbortErrorOf(abortError)))
    else
      Snapshot(
        Added(onTarget, HandlerListener(c)),
        if HasSignal(c) then Added(onSignal, AborterListener(c)) else onSignal,
        aborted, abortError, Waiting)
  }

  /** The value the handler goes on with: the filter's result, or the event
      itself when there is no filter or the filter threw. */
  function Filtered(c: Call, evt: EventValue, outcome: FilterOutcome): Value
  {
    if HasFilter(c) && outcome.Returned? then outcome.value else evt
  }

  /** Removal of both listeners, each with the capture flag it was added with. */
  function Cleanup(c: Call, s: Snapshot): Snapshot
  {
    s.(onTarget := Removed(s.onTarget, c.eventType, c.handler, Capture(c)),
       onSignal := if HasSignal(c) then Removed(s.onSignal, "abort", c.aborter, Capture(c)) else s.onSignal)
  }

  /** The removal as lines 59, 61, 71 and 72 write it: removeEventListener
      without options, which removes only a listener added with capture false. */
  function CleanupAsWritten(c: Call, s: Snapshot): Snapshot
  {
    s.(onTarget := Removed(s.onTarget, c.eventType, c.handler, false),
       onSignal := if HasSignal(c) then Removed(s.onSignal, "abort", c.aborter, false) else s.onSignal)
  }

  /** The body of `handler` (lines 46-65): run the filter, skip on a literal
      `false`, otherwise remove both listeners and resolve. */
  function HandlerRun(c: Call, s: Snapshot, evt: EventValue, outcome: FilterOutcome): Snapshot
  {
    var v := Filtered(c, evt, outcome);
    if HasFilter(c) && v == Bool(false) then s
    else
      var s1 := Cleanup(c, s);
      s1.(state := Settle(s1.state, Resolved(v)))
  }

  /** An event of the call's type reaches the target: the handler runs if it
      is still registered (a `once` registration is dropped first). */
  function EventStep(c: Call, s: Snapshot, evt: EventValue, outcome: FilterOutcome): Snapshot
  {
    if !Registered(s.onTarget, c.eventType, c.handler, Capture(c)) then s
    else HandlerRun(c, s.(onTarget := Invoked(s.onTarget, c.eventType, c.handler, Capture(c))), evt, outcome)
  }

  /** An event step as lines 45-66 write it: the handler's cleanup is
      `CleanupAsWritten`. Used only to exhibit the discrepancy. */
  function EventStepAsWritten(c: Call, s: Snapshot, evt: EventValue, outcome: FilterOutcome): Snapshot
  {
    if !Registered(s.onTarget, c.eventType, c.handler, Capture(c)) then s
    else
      var s0 := s.(onTarget := Invoked(s.onTarget, c.eventType, c.handler, Capture(c)));
      var v := Filtered(c, evt, outcome);
      if HasFilter(c) && v == Bool(false) then s0
      else
        var s1 := CleanupAsWritten(c, s0);
        s1.(state := Settle(s1.state, Resolved(v)))
  }

  /** The body of `aborter` (lines 71-75): remove both listeners and reject
      with a new error built from the constructor `_AbortError` holds now. */
  function AborterRun(c: Call, s: Snapshot): Snapshot
  {
    var s1 := Cleanup(c, s);
    s1.(state := Settle(s1.state, Rejected(AbortErrorOf(s.abortError))))
  }

  /** The signal is aborted: if it was not already, it fires "abort", and the
      aborter runs if it is still registered (its `once` registration is
      dropped first). */
  function AbortStep(c: Call, s: Snapshot): Snapshot
  {
    if !HasSignal(c) || s.aborted then s
    else
      var s0 := s.(aborted := true);
      if !Registered(s0.onSignal, "abort", c.aborter, Capture(c)) then s0
      else AborterRun(c, s0.(onSignal := Invoked(s0.onSignal, "abort", c.aborter, Capture(c))))
  }

  /** What can happen to a pending call. */
  datatype Input = Event(evt: EventValue, outcome: FilterOutcome) | Abort | SetAbortError(ctor: Ctor)

  function Step(c: Call, s: Snapshot, i: Input): Snapshot
  {
    match i
    case Event(evt, outcome) => EventStep(c, s, evt, outcome)
    case Abort => AbortStep(c, s)
    case SetAbortError(k) => s.(abortError := k)
  }

  function Run(c: Call, s: Snapshot, inputs: seq<Input>): Snapshot
    decreases |inputs|
  {
    if inputs == [] then s else Run(c, Step(c, s, inputs[0]), inputs[1..])
  }

  /** Neither list holds a listener with one of this call's closures. */
  predicate Unhooked(c: Call, s: Snapshot)
  {
    (forall l :: l in s.onTarget ==> l.callback != c.handler) &&
    (HasSignal(c) ==> forall l :: l in s.onSignal ==> l.callback != c.aborter)
  }

  /** The closures are new objects: no listener uses them yet. */
  predicate FreshClosures(c: Call, onTarget: set<Listener>, onSignal: set<Listener>)
  {
    c.handler != c.aborter &&
    (forall l :: l in onTarget ==> l.callback != c.handler && l.callback != c.aborter) &&
    (forall l :: l in onSignal ==> l.callback != c.handler && l.callback != c.aborter)
  }

  /** The invariant of a call after `onceOn` returned: while waiting, both
      listeners are registered (and the signal has not fired); once settled,
      neither is. The only record holding a closure is the call's own. */
  predicate Inv(c: Call, s: Snapshot)
  {
    c.handler != c.aborter &&
    (forall l :: l in s.onTarget && l.callback == c.handler ==> l == HandlerListener(c)) &&
    (HasSignal(c) ==> forall l :: l in s.onSignal && l.callback == c.aborter ==> l == AborterListener(c)) &&
    (s.state.Waiting? ==>
      HandlerListener(c) in s.onTarget &&
      (HasSignal(c) ==> AborterListener(c) in s.onSignal && !s.aborted)) &&
    (!s.state.Waiting? ==> Unhooked(c, s))
  }
}
