/** The parts of the WHATWG DOM Standard that `onceOn` consumes: JavaScript
    values as far as the options and events need them, the event listener
    record of section 2.7, and the listener lists of an EventTarget and of an
    AbortSignal (section 3.2) with add, remove and the removal of a `once`
    listener just before it is invoked. */
module Dom {

  /** A JavaScript value, as far as option flags, filter results and events
      need it. Objects and functions are `Ref`s to an opaque identity. */
  datatype Value = Undefined | Null | Bool(b: bool) | Num(n: int) | Str(s: string) | Ref(id: nat)

  /** ECMAScript ToBoolean: `undefined`, `null`, `false`, `0` and `""` are falsy. */
  predicate Truthy(v: Value)
  {
    match v
    case Undefined => false
    case Null => false
    case Bool(b) => b
    case Num(n) => n != 0
    case Str(s) => s != ""
    case Ref(_) => true
  }

  /** A function object registered as a listener; only its identity matters. */
  class Closure {
    constructor () {}
  }

  /** The options dictionary handed to addEventListener, member by member. */
  datatype ListenerOptions = ListenerOptions(capture: Value, once: Value, passive: Value)

  /** An event listener as the DOM records it: the options are copied, as
      booleans, at the moment the listener is added. */
  datatype Listener = Listener(eventType: string, callback: Closure, capture: bool, passive: bool, once: bool)

  /** Type, callback and capture identify a listener in a list. */
  predicate Matches(l: Listener, eventType: string, callback: Closure, capture: bool)
  {
    l.eventType == eventType && l.callback == callback && l.capture == capture
  }

  predicate Registered(ls: set<Listener>, eventType: string, callback: Closure, capture: bool)
  {
    exists l :: l in ls && Matches(l, eventType, callback, capture)
  }

  /** "Flatten more": the listener that addEventListener records for `options`. */
  function Flatten(eventType: string, callback: Closure, options: ListenerOptions): Listener
  {
    Listener(eventType, callback, Truthy(options.capture), Truthy(options.passive), Truthy(options.once))
  }

  /** "Add an event listener": a listener whose type, callback and capture are
      already in the list is not added a second time. */
  function Added(ls: set<Listener>, l: Listener): (r: set<Listener>)
    ensures Registered(r, l.eventType, l.callback, l.capture)
    ensures ls <= r <= ls + {l}
    ensures Registered(ls, l.eventType, l.callback, l.capture) ==> r == ls
    ensures (forall m :: m in ls ==> m.callback != l.callback) ==> l in r
  {
    if Registered(ls, l.eventType, l.callback, l.capture) then ls else ls + {l}
  }

  /** removeEventListener: drops the listener with this type, callback and
      capture, and nothing else. */
  function Removed(ls: set<Listener>, eventType: string, callback: Closure, capture: bool): (r: set<Listener>)
    ensures !Registered(r, eventType, callback, capture)
    ensures r <= ls
    ensures forall l :: l in ls && !Matches(l, eventType, callback, capture) ==> l in r
  {
    set l | l in ls && !Matches(l, eventType, callback, capture)
  }

  /** The listener list once an event has reached `callback` (eventType, capture):
      a matching `once` listener is removed before the callback runs. */
  function Invoked(ls: set<Listener>, eventType: string, callback: Closure, capture: bool): (r: set<Listener>)
    ensures forall l :: l in ls ==> (l in r <==> !(Matches(l, eventType, callback, capture) && l.once))
    ensures r <= ls
  {
    set l | l in ls && !(Matches(l, eventType, callback, capture) && l.once)
  }

  /** An EventTarget, reduced to its event listener list. */
  class EventTarget {
    var listeners: set<Listener>

    constructor ()
      ensures listeners == {}
    {
      listeners := {};
    }

    method AddEventListener(eventType: string, callback: Closure, options: ListenerOptions)
      modifies this
      ensures listeners == Added(old(listeners), Flatten(eventType, callback, options))
    {
      listeners := Added(listeners, Flatten(eventType, callback, options));
    }

    /** `capture` is the capture member of the options argument, `Undefined`
        when the argument is omitted. */
    method RemoveEventListener(eventType: string, callback: Closure, capture: Value)
      modifies this
      ensures listeners == Removed(old(listeners), eventType, callback, Truthy(capture))
    {
      listeners := Removed(listeners, eventType, callback, Truthy(capture));
    }

    /** An event of `eventType` reaches the listener (eventType, callback, capture):
        `invoked` says whether the callback is to run. */
    method Invoke(eventType: string, callback: Closure, capture: bool) returns (invoked: bool)
      modifies this
      ensures invoked <==> Registered(old(listeners), eventType, callback, capture)
      ensures listeners == Invoked(old(listeners), eventType, callback, capture)
    {
      invoked := Registered(listeners, eventType, callback, capture);
      listeners := Invoked(listeners, eventType, callback, capture);
    }
  }

  /** An AbortSignal: its aborted flag and its own event listener list. */
  class AbortSignal {
    var aborted: bool
    var listeners: set<Listener>

    constructor (aborted: bool)
      ensures this.aborted == aborted && listeners == {}
    {
      this.aborted := aborted;
      listeners := {};
    }

    method AddEventListener(eventType: string, callback: Closure, options: ListenerOptions)
      modifies this
      ensures aborted == old(aborted)
      ensures listeners == Added(old(listeners), Flatten(eventType, callback, options))
    {
      listeners := Added(listeners, Flatten(eventType, callback, options));
    }

    method RemoveEventListener(eventType: string, callback: Closure, capture: Value)
      modifies this
      ensures aborted == old(aborted)
      ensures listeners == Removed(old(listeners), eventType, callback, Truthy(capture))
    {
      listeners := Removed(listeners, eventType, callback, Truthy(capture));
    }

    /** "Signal abort", first steps: an aborted signal stays as it is and
        fires nothing; otherwise it becomes aborted and `fired` says that an
        "abort" event is now dispatched to its listeners. */
    method Abort() returns (fired: bool)
      modifies this
      ensures fired <==> !old(aborted)
      ensures aborted && listeners == old(listeners)
    {
      fired := !aborted;
      aborted := true;
    }

    method Invoke(eventType: string, callback: Closure, capture: bool) returns (invoked: bool)
      modifies this
      ensures aborted == old(aborted)
      ensures invoked <==> Registered(old(listeners), eventType, callback, capture)
      ensures listeners == Invoked(old(listeners), eventType, callback, capture)
    {
      invoked := Registered(listeners, eventType, callback, capture);
      listeners := Invoked(listeners, eventType, callback, capture);
    }
  }
}
