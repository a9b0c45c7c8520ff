# eventtarget-once in Dafny

`onceOn(eventTarget, eventType, options)` returns a promise for the next
qualifying event of `eventType` on an EventTarget. An optional filter may
turn events down by returning literally `false`. An optional AbortSignal
cancels the wait. Whichever path settles the promise first removes both
listeners: the handler on the target and the aborter on the signal. An
already aborted signal rejects at once and registers nothing. The rejection
is built from the module variable `_AbortError`, which `setAbortError`
replaces; it is read when the abort happens.

The project has four modules:

- `Dom` (dom.dfy) covers the parts of the WHATWG DOM Standard the code
  consumes. It has JavaScript values and ToBoolean, and the event listener
  record of section 2.7, whose options are copied as booleans when the
  listener is added. It has the listener lists of `EventTarget` and
  `AbortSignal` (section 3.2), with add (no duplicate type, callback and
  capture) and remove (matched on type, callback and capture). It also
  models the dropping of a `once` listener just before it is invoked, and
  the signal's "abort" firing only on its first abort.
- `OnceSpec` (once_spec.dfy) is the state machine as pure functions over a
  `Snapshot`: the target's listeners, the signal's listeners and aborted
  flag, the current `_AbortError` and the promise (`Waiting`,
  `Resolved(v)` or `Rejected(error)`). The functions are `Start`,
  `EventStep`, `AbortStep`, `Step` and `Run`, with the invariant `Inv`.
- `OnceProperties` (once_properties.dfy) holds the lemmas about those
  functions.
- `EventTargetOnce` (once.dfy) follows the code step by step, with one
  departure: `Handler` and `Aborter` remove their listeners with the
  `capture` option they were added with, where lines 59, 61, 71 and 72
  pass no options (see "## Findings"). `AbortErrorSlot` is the
  `_AbortError` variable. `PendingOnce` is one call: its constructor
  `Start` is `onceOn`, `Handler` and `Aborter` are the two closures, and
  `DeliverEvent` and `DeliverAbort` are the DOM invoking them. Each is
  proved equal to its OnceSpec function. `Start`, `DeliverEvent` and
  `DeliverAbort` are also proved to keep `Inv`. The three client methods
  at the end use only these contracts.

The filter is caller code, so what it did with an event is a parameter:
`Returned(v)` or `Threw`. The initial value of `_AbortError` is also a
parameter.

## Model

| member | source | states |
|---|---|---|
| `Dom.Added` | eventtarget-once.js:34 | Adding a listener keeps every listener already there and adds at most the new one. The key (type, callback, capture) is registered afterwards. A key already registered leaves the list unchanged. A callback no listener uses yet is added. |
| `Dom.Removed` | eventtarget-once.js:59-61 | Removal leaves no listener with the given type, callback and capture. It keeps every other listener and adds none. |
| `Dom.Invoked` | eventtarget-once.js:22 | When an event reaches a listener, exactly the matching listeners registered with `once` are dropped. |
| `Dom.EventTarget.AddEventListener` | eventtarget-once.js:34 | The target's list becomes `Added` of the old list and the listener record flattened from the options at this moment. |
| `Dom.EventTarget.RemoveEventListener` | eventtarget-once.js:59 | The target's list becomes `Removed` of the old list, matched on the truthiness of the capture option. |
| `Dom.EventTarget.Invoke` | eventtarget-once.js:45 | The handler runs exactly when its listener is registered. A `once` registration is dropped first. |
| `Dom.AbortSignal.AddEventListener` | eventtarget-once.js:41 | The signal's list becomes `Added` of the old list and the flattened record. The aborted flag is unchanged. |
| `Dom.AbortSignal.RemoveEventListener` | eventtarget-once.js:72 | The signal's list becomes `Removed` of the old list. The aborted flag is unchanged. |
| `Dom.AbortSignal.Abort` | eventtarget-once.js:69 | The signal is aborted afterwards. "abort" fires only if it was not aborted before. The list is unchanged. |
| `Dom.AbortSignal.Invoke` | eventtarget-once.js:69 | The aborter runs exactly when its listener is registered, and its `once` registration is dropped first. |
| `EventTargetOnce.AbortErrorSlot.constructor` | eventtarget-once.js:86-92 | `_AbortError` starts as the given constructor. |
| `EventTargetOnce.AbortErrorSlot.SetAbortError` | eventtarget-once.js:95-97 | `setAbortError` replaces the constructor that later rejections are built with. |
| `EventTargetOnce.PendingOnce.Start` | eventtarget-once.js:15-80 | `onceOn` changes the target, the signal and the promise exactly as `OnceSpec.Start` says. The invariant holds afterwards. The handler and aborter are new objects. |
| `EventTargetOnce.PendingOnce.DeliverEvent` | eventtarget-once.js:45-66 | An event changes the lists and the promise exactly as `EventStep` says, and keeps the invariant. |
| `EventTargetOnce.PendingOnce.Handler` | eventtarget-once.js:45-66 | The handler body runs the filter, swallows a throw and skips on a literal `false`. Otherwise it removes both listeners and resolves, as `HandlerRun` says. The removals pass the `capture` option the listeners were added with, where lines 59 and 61 pass none (see "## Findings"). |
| `EventTargetOnce.PendingOnce.DeliverAbort` | eventtarget-once.js:69-76 | An abort changes the lists and the promise exactly as `AbortStep` says, and keeps the invariant. |
| `EventTargetOnce.PendingOnce.Aborter` | eventtarget-once.js:69-76 | The aborter removes both listeners and rejects with the current `_AbortError`, as `AborterRun` says. The removals pass the `capture` option the listeners were added with, where lines 71 and 72 pass none (see "## Findings"). |
| `OnceProperties.RegistrationOptions` | eventtarget-once.js:20-41 | The handler is registered with `once` exactly when there is no filter. Its `passive` is true when the option is `undefined` and the option's truthiness otherwise, and `capture` is passed through. The aborter is registered with `once` and the same `capture`. Its `passive` is `abortPassive` when that is defined, else the handler's. |
| `OnceProperties.StartEstablishesInv` | eventtarget-once.js:26-42 | An aborted signal gives `Rejected` with `_AbortError("Aborted")` and leaves both lists unchanged. Otherwise the call waits: the target gains exactly the handler, and the signal, if there is one, gains exactly the aborter. The invariant holds either way. |
| `OnceProperties.EventWhileWaiting` | eventtarget-once.js:45-66 | On a waiting call, a filter result of literal `false` changes nothing. Any other value (the event itself when there is no filter or the filter threw) resolves the promise with that value. Only the handler leaves the target and only the aborter leaves the signal. |
| `OnceProperties.ThrowingFilterKeepsEvent` | eventtarget-once.js:47-52 | A filter that throws is not a rejection: the promise resolves with the original event, and no listener of the call remains. |
| `OnceProperties.SkipsLeaveCallWaiting` | eventtarget-once.js:53-56 | Any number of events that the filter turns down leave the whole snapshot unchanged: still waiting, both lists as they were. |
| `OnceProperties.FilterAcceptsAfterSkips` | eventtarget-once.js:53-65 | After any run of turned-down events, a filter result `v` other than literal `false` resolves to `v` with no listener left. This includes `0`, `""`, `null` and `undefined`. |
| `OnceProperties.FirstEventResolvesWithoutFilter` | eventtarget-once.js:22-65 | Without a filter, the first event after `onceOn` resolves the promise with that very event. Both lists are then exactly as they were before the call. |
| `OnceProperties.AbortWhileWaiting` | eventtarget-once.js:69-76 | Aborting a waiting call removes exactly the handler and the aborter. It rejects with an AbortError built from the constructor held at that moment. |
| `OnceProperties.AbortBeforeEvent` | eventtarget-once.js:69-76 | An abort followed by an event leaves the call rejected, and both lists exactly as they were before the call. |
| `OnceProperties.AbortErrorReadAtAbort` | eventtarget-once.js:75 | A `setAbortError` between the call and the abort decides the rejection's constructor. |
| `OnceProperties.SettledIsFinal` | eventtarget-once.js:58-72 | Once settled, no event, abort or `setAbortError` changes the settlement or either list. |
| `OnceProperties.StepPreservesInv` | eventtarget-once.js:45-76 | Every step keeps the invariant. While waiting, both listeners are registered and the signal has not fired. Once settled, neither list holds the call's handler or aborter. |
| `OnceProperties.RunPreservesInv` | eventtarget-once.js:45-76 | The invariant holds after any sequence of events, aborts and `setAbortError` calls. |
| `OnceProperties.RunSettledIsFinal` | eventtarget-once.js:58-72 | After settlement, no sequence of inputs changes the settlement or either list. |
| `OnceProperties.SettlementIsFinal` | eventtarget-once.js:58-76 | Settlement happens at most once. The settlement reached after a prefix of the inputs is the one after every longer prefix. From then on, neither list holds the call's closures, so the other path can never fire. |
| `OnceProperties.RemoveUnregistered` | eventtarget-once.js:59 | Removing a listener that is not registered leaves the list unchanged. |
| `OnceProperties.SecondCleanupChangesNothing` | eventtarget-once.js:58-62 | A cleanup repeated on a call whose handler and aborter are both gone changes nothing. |
| `OnceProperties.CleanupAsWrittenKeepsCaptureListeners` | eventtarget-once.js:59-72 | With a truthy `capture`, removal without options, as written, leaves both the handler and the aborter registered. |
| `OnceProperties.EventStepAsWrittenLeavesHandler` | eventtarget-once.js:45-66 | As written, with a filter and a truthy `capture`, an accepted event resolves the promise yet leaves the handler on the target and the aborter on the signal, so the invariant fails after the step. |
| `OnceProperties.CleanupRemovesBoth` | eventtarget-once.js:58-62 | Removal with the capture flag the listeners were added with removes exactly the handler and the aborter, whatever `capture` is. |

## Left out

- EventTargetOnce.PendingOnce.Handler: removes both listeners with the call's `capture` option, not without options as lines 59 and 61 do; the as-written removal is `OnceSpec.CleanupAsWritten` (see "## Findings").
- EventTargetOnce.PendingOnce.Aborter: removes both listeners with the call's `capture` option, not without options as lines 71 and 72 do; the as-written removal is `OnceSpec.CleanupAsWritten` (see "## Findings").
- The TypeError from line 31: `Promise(...)` is called without `new`. As written, every call that does not take the aborted fast path throws and registers nothing. The model follows the evident intent, `new Promise(...)`.
- The ReferenceError from line 54: `msg` is not defined, and `evt` is meant. As written, every event with a filter throws before the skip test. The model tests `evt === false`.
- The ReferenceError from line 65: `result` is not defined, and `evt` is meant. As written, the handler removes both listeners and then throws, so the promise never resolves. The model resolves with `evt`.
- Promise construction and microtask scheduling: settlement is the `state` field, and later resolves and rejects are ignored, as a promise does.
- The DOM dispatch algorithm (phases, propagation, other listeners, ordering) is not modelled. An event either reaches the handler's registration or it does not.
- The abort reason and the signal's abort algorithms are not modelled.
- `once` (lines 82-84) only forwards `this` to `onceOn`.
- The detection of a host `AbortError` (lines 86-92): the initial constructor is a parameter of `AbortErrorSlot`.
- The filter's context object (`eventTarget`, `eventType`, `promise`, `state`, line 50) and `options.state` are passed through to the filter without being read.
- A filter's side effects are not modelled: adding or removing listeners, aborting the signal, or calling `setAbortError` while it runs. Only its result or its throw is.
- Exceptions from `addEventListener` or `removeEventListener`, and a `setAbortError` value that is not a constructor, are not modelled.
- A truthy `signal` that is not an AbortSignal is not modelled.
- Passing the signal itself as the target is not modelled: `AbortSignal` is a class of its own here, so the two lists are always distinct.
- JavaScript numbers are integers here, with no NaN, no `-0` and no fractions. This affects only the truthiness of option values and filter results.

## Findings

| source | as written | input that shows it | evidently intended | confidence | as-written member | corrected member |
|---|---|---|---|---|---|---|
| eventtarget-once.js:59-72 | `removeEventListener(eventType, handler)` and `removeEventListener("abort", aborter)` pass no options. Section 2.7 of the DOM Standard matches removal on capture, so only capture-false listeners are removed. | `options.capture = true` with a filter and a qualifying event: the handler stays on the target. With a signal, the aborter also stays on the signal. | Remove each listener with the `capture` it was added with, so no listener survives settlement. | high, not executed | `OnceProperties.CleanupAsWrittenKeepsCaptureListeners` (about `OnceSpec.CleanupAsWritten`) and `OnceProperties.EventStepAsWrittenLeavesHandler` (about `OnceSpec.EventStepAsWritten`) | `OnceProperties.CleanupRemovesBoth` (about `OnceSpec.Cleanup`, which the handler and aborter use) |
