# Crier dispatch engine — a verified Dafny model

Crier is a C++ header-only library that sends and receives protocol-buffer
messages over a pluggable transport. Every message travels wrapped in one
"root" message type. The payload sits in one optional message-typed slot, which
is either a direct field of the root type or an extension declared in the
payload's schema file. The engine routes each received payload, by its full
type name, to the registered callbacks:

- **permanent callbacks** live in an ordered registry keyed by (name, priority
  tier) and run on every message of their type, tier FIRST before ASAP before
  NORMAL;
- **consumable callbacks** (response callbacks) form a FIFO per type; the oldest
  one takes the next message of its type and is removed;
- **timeouts**: a request may schedule one per response type; a response
  invalidates the earliest still-valid timeout of its type, and an expiring
  timer whose entry is still valid drops the oldest consumable callback of that
  type and runs the timeout callback;
- **unhandled messages** (nobody listening) are dropped or retained per type.
  Retained messages are replayed when a permanent callback for the type is
  registered;
- **inbound dispatching**: per type, callbacks run on arrival (Immediate) or
  are queued until the application pumps the dispatch queue (DispatchQueue).
  For a queued message the listeners are looked up at pump time;
- **transport events**: connect and disconnect observers live in ordered
  registries. A message of a "suppressor" type arms a one-shot suppression of
  the next disconnect event.

The model has two layers:

- `Dispatch` is the engine as a state machine over values. `Engine` has one
  component per private member of the engine, plus `trace`, the ordered record
  of every user callback invoked and its argument. Each operation is a pure
  transition, and the properties are proved about these transitions
  (`DispatchProperties`, `Scenarios`).
- `Crier.Crier` is the engine as the object the library exposes: a class with
  the same fields, whose methods update them in place and loop where the
  library loops. Each method is proved against the transition of the same name
  through the abstraction `Model()`. Everything proved about the transitions
  therefore holds of the object's behaviour.

Callbacks are opaque identities (`CallbackId`). A callback "runs" when a
`Call(callback, argument)` is appended to `trace`. Threads and locks are
removed: every operation is atomic. A timer expiring is the explicit event
`FireTimeout(type, id)`; the transport's hooks are `OnTransportConnect`,
`OnTransportData` and `OnTransportDisconnect`.

Files:

- `Wrappers.dfy`: `Option`.
- `CrierTypes.dfy`: the three enumerations.
- `CallbackMaps.dfy`: the ordered keyed registry.
- `Envelope.dfy`: packing into and unwrapping from the root message.
- `Timeouts.dfy`: per-type timeout lists and their id invariant.
- `Dispatch.dfy`: the engine state and its transitions.
- `DispatchProperties.dfy`: invocation order, registry lookups, fresh ids,
  and preservation of the engine invariant `Valid`.
- `Scenarios.dfy`: multi-step behaviour, following the library's tests and
  documentation.
- `Crier.dfy`: the class.

Where the code and its documentation disagree, the model follows the code:

- `clearCallbacksForMsg` is documented as clearing all permanent callbacks of a
  type (`include/crier/Crier.hpp:142-144`). The code empties the type's
  consumable callbacks (`include/crier/private/Crier_impl.hpp:258-262`), and so
  does `Dispatch.ClearCallbacksForMsg`.
- `sendMessage` is documented as doing nothing when the payload cannot be
  bundled (`include/crier/Crier.hpp:88-90`). The code still sends the empty root
  message (`include/crier/private/Crier_impl.hpp:66-75`). `Crier.Crier.SendMessage`
  returns that message, and `Envelope.PackWithoutMatchLeavesEmpty` proves it is
  empty.
- `clearSupressionTransportClosed` ("turns off the suppressing behaviour",
  `include/crier/Crier.hpp:259-260`) only forgets the suppressor types; an
  already armed suppression stays armed. Only `connectTransport` disarms it
  (`include/crier/private/Crier_impl.hpp:49-52`).
- The `...ToDefault` setters store the default as an override for the type
  rather than removing the override.

The library documents one limitation of matching responses by type alone
(`include/crier/Crier.hpp:103-108`), and a comment in the timer marks another
(`include/crier/private/Crier_impl.hpp:113-114`): two requests for the same
response type, where the second's shorter timeout expires first, drops the
first request's response callback. `Scenarios.ShorterSecondTimeoutMisroutesResponse`
proves this happens: the first response goes to the second request's callback,
and neither of the first request's callbacks ever runs.

The engine invariant `Dispatch.Valid` says three things:

- the registries are ordered (hence one entry per key);
- timeout ids increase within a type, stay below the counter, and are never
  shared between types;
- every retained message is filed under its own type, and nothing is retained
  for a type whose policy is Ignore.

The constructor establishes it, and every public transition preserves it
(`DispatchProperties.*PreservesValid`). The private helper `UnhandledMessage`,
which applies a policy it is given, preserves it exactly when it drops the
message or the type's own policy is Enqueue
(`DispatchProperties.UnhandledMessagePreservesValid`); its one caller,
`DealWithUnhandledMessage`, applies the type's own policy.

## Model

| member | source | states |
|---|---|---|
| CrierTypes.Rank | include/crier/CrierTypes.hpp:8 | a tier's position in the declaration order is below 3; FIRST is the only tier at 0 and NORMAL the only one at 2 |
| CrierTypes.TierOfRank | include/crier/CrierTypes.hpp:8 | every position below 3 is the rank of some tier |
| CallbackMaps.KeyLessTransitive | include/crier/Crier.hpp:128-130 | the registry order (tier first, then name) is transitive |
| CallbackMaps.KeyLessTotal | include/crier/Crier.hpp:128-132 | any two distinct keys are ordered one way or the other |
| CallbackMaps.StrLessTotal | include/crier/Crier.hpp:131-132 | any two distinct callback names are ordered |
| CallbackMaps.Find | include/crier/Crier.hpp:131-132 | a lookup finds a callback exactly when an entry with that key exists |
| CallbackMaps.InsertFind | include/crier/private/Crier_impl.hpp:270 | after an upsert, the key maps to the new callback and every other key keeps its callback |
| CallbackMaps.Insert | include/crier/private/Crier_impl.hpp:270 | the registry upsert: the new entry is present, and the registry grows by at most one entry. What each key then finds is stated by InsertFind |
| CallbackMaps.InsertSize | include/crier/Crier.hpp:131-132 | registering under an existing key overwrites it (same size); a new key adds exactly one entry |
| CallbackMaps.InsertKeys | include/crier/private/Crier_impl.hpp:270 | after an upsert, every entry is either the new one or one that was there before |
| CallbackMaps.InsertSorted | include/crier/Crier.hpp:128-132 | an upsert keeps the registry ordered |
| CallbackMaps.EraseFind | include/crier/private/Crier_impl.hpp:282 | after an erase, the key is absent and every other key keeps its callback |
| CallbackMaps.Erase | include/crier/private/Crier_impl.hpp:282 | the registry erase: no entry keeps the erased key, and the registry does not grow. What each other key then finds is stated by EraseFind |
| CallbackMaps.EraseSubsequence | include/crier/private/Crier_impl.hpp:282 | an entry survives an erase if and only if it was in the map under another key: only entries with that key are removed, and all of them |
| CallbackMaps.EraseSorted | include/crier/private/Crier_impl.hpp:282 | an erase keeps the registry ordered |
| CallbackMaps.SortedUniqueKeys | include/crier/Crier.hpp:131-132 | an ordered registry holds at most one entry per key |
| CallbackMaps.SortedTierOrder | include/crier/Crier.hpp:128-130 | in an ordered registry every FIRST entry precedes every ASAP entry, which precedes every NORMAL entry; names are ordered within a tier |
| CallbackMaps.Values | include/crier/private/Crier_impl.hpp:554-561 | the callbacks of a registry, one per entry, in registry order |
| CallbackMaps.MapToVectorCopy | include/crier/private/Crier_impl.hpp:554-561 | the copying loop returns exactly the registry's callbacks in registry order |
| Envelope.NewContainer | include/crier/private/Crier_impl.hpp:67 | a fresh root message has the schema's fields, none populated, and no extension set |
| Envelope.OpenReq | include/crier/private/Crier_impl.hpp:428-446 | unwrapping yields nothing exactly when no slot is populated; otherwise the first populated direct field, or failing that the first set extension |
| Envelope.FindField | include/crier/private/Crier_impl.hpp:456-467 | the index of the first message-typed direct field of the payload's type, or none exists |
| Envelope.FindExtension | include/crier/private/Crier_impl.hpp:469-485 | the first file extension that extends the root type with the payload's type, or none exists |
| Envelope.SetExtension | include/crier/private/Crier_impl.hpp:481-482 | the extension now holds the payload, any earlier value of it is gone, and the other set extensions stay |
| Envelope.PackageIntoReq | include/crier/private/Crier_impl.hpp:450-486 | the root keeps its type and field layout. When a direct field matches the payload's type, the first such field holds the payload and nothing else changes. Otherwise, when an extension of the payload's schema file matches, the first such extension holds the payload, the direct fields are unchanged and every other set extension stays set. When neither matches, the root is returned unchanged |
| Envelope.PackThenOpen | include/crier/private/Crier_impl.hpp:66-75 | round trip: a payload that can be bundled, packed into a fresh root, unwraps to itself |
| Envelope.PackWithoutMatchLeavesEmpty | include/crier/Crier.hpp:88-90 | a payload no slot can carry leaves the root message empty, and unwrapping it yields nothing |
| Envelope.PackPopulatesOneSlot | include/crier/private/Crier_impl.hpp:450-486 | packing a fresh root populates exactly one slot |
| Timeouts.InvalidateFirst | include/crier/private/Crier_impl.hpp:144-155 | a response leaves the list's length, ids and callbacks as they were; a list with no valid entry is unchanged |
| Timeouts.InvalidateFirstAt | include/crier/private/Crier_impl.hpp:144-155 | exactly the earliest valid entry becomes invalid; every other entry is unchanged |
| Timeouts.InvalidateAll | include/crier/private/Crier_impl.hpp:168-178 | shutdown marks every entry invalid and removes none |
| Timeouts.RemoveId | include/crier/private/Crier_impl.hpp:123 | exactly the entries with other ids remain |
| Timeouts.EntryWithId | include/crier/private/Crier_impl.hpp:99 | the timer's own entry: an entry of the list with that id, or none has it |
| Timeouts.InvalidateFirstKeepsIds | include/crier/private/Crier_impl.hpp:144-155 | invalidating keeps the set of ids and their scheduling order |
| Timeouts.InvalidateAllKeepsIds | include/crier/private/Crier_impl.hpp:168-178 | invalidating all keeps the set of ids and their scheduling order |
| Timeouts.RemoveIdDropsId | include/crier/private/Crier_impl.hpp:123 | removal drops exactly the timer's id from the list's ids |
| Timeouts.RemoveIdKeepsOrder | include/crier/private/Crier_impl.hpp:123 | removal keeps the remaining entries in scheduling order |
| Timeouts.AppendFreshKeepsWellFormed | include/crier/private/Crier_impl.hpp:98 | appending an entry with the counter's value and advancing the counter keeps ids increasing per type, below the counter, and unshared between types |
| Timeouts.ReplaceKeepsWellFormed | include/crier/private/Crier_impl.hpp:121-123 | replacing a type's list by an ordered list with a subset of its ids keeps the table well formed |
| Dispatch.Initial | include/crier/private/Crier_impl.hpp:9-17 | a new engine satisfies the invariant, applies the chosen defaults to every type and to both transport events, has nothing armed, queued or invoked |
| Dispatch.PushConsumable | include/crier/private/Crier_impl.hpp:79-86 | a response callback joins the back of its type's FIFO; other types and all other state are untouched |
| Dispatch.ClearCallbacksForMsg | include/crier/private/Crier_impl.hpp:258-262 | the type's consumable callbacks are gone; other types and all other state are untouched |
| Dispatch.ClearPermanentCallback | include/crier/private/Crier_impl.hpp:279-283 | the type's registry loses the key; other types and all other state are untouched |
| Dispatch.RegisterForTransportClosedCallback | include/crier/private/Crier_impl.hpp:287-290 | the disconnect registry becomes the upsert of the observer and nothing else changes. The contract is the whole update; its lookups are stated by DispatchProperties.TransportObserverRegistriesFind |
| Dispatch.ClearTransportClosedCallback | include/crier/private/Crier_impl.hpp:294-297 | the disconnect registry becomes the erase of the key and nothing else changes. The contract is the whole update |
| Dispatch.RegisterForTransportOpenedCallback | include/crier/private/Crier_impl.hpp:301-304 | the connect registry becomes the upsert of the observer and nothing else changes. The contract is the whole update |
| Dispatch.ClearTransportOpenedCallback | include/crier/private/Crier_impl.hpp:308-311 | the connect registry becomes the erase of the key and nothing else changes. The contract is the whole update |
| Dispatch.SetUnhandledBehaviourForMsg | include/crier/private/Crier_impl.hpp:182-191 | the type's policy becomes the given one; choosing Ignore discards the type's retained messages, Enqueue keeps them; other types are untouched |
| Dispatch.SetInboundDispatchingForMsg | include/crier/private/Crier_impl.hpp:201-205 | the type's dispatch mode becomes the given one; other types' modes are untouched |
| Dispatch.SetInboundDispatchingForTransportOpen | include/crier/private/Crier_impl.hpp:214-216 | only the connect-event mode changes. The contract is the whole one-field update |
| Dispatch.SetInboundDispatchingForTransportClosed | include/crier/private/Crier_impl.hpp:219-221 | only the disconnect-event mode changes. The contract is the whole one-field update |
| Dispatch.GetInboundDispatchingForMsg | include/crier/private/Crier_impl.hpp:234-240 | the type's override when one is set, else the construction default. The contract is the whole lookup |
| Dispatch.SupressTransportClosedAfterMsgOfType | include/crier/private/Crier_impl.hpp:315-318 | the type becomes a suppressor; other types are untouched |
| Dispatch.ClearSupressionTransportClosed | include/crier/private/Crier_impl.hpp:321-323 | no type is a suppressor any more, and an armed suppression stays armed |
| Dispatch.ScheduleTimeout | include/crier/private/Crier_impl.hpp:96-99 | a valid entry carrying the counter's value joins the back of the type's list and the counter advances by one; other types are untouched |
| Dispatch.InvalidateFirstTimeout | include/crier/private/Crier_impl.hpp:144-155 | only the type's list changes, by invalidating its earliest valid entry |
| Dispatch.InvalidateAllTimeouts | include/crier/private/Crier_impl.hpp:168-178 | every entry of every type becomes invalid; no type and no entry is removed |
| Dispatch.UnhandledMessage | include/crier/private/Crier_impl.hpp:326-334 | Ignore changes nothing; Enqueue appends the message to its type's queue only |
| Dispatch.DealWithUnhandledMessage | include/crier/private/Crier_impl.hpp:401-410 | the type's own policy, or the default, decides between dropping and retaining the message |
| Dispatch.TriggerCallbacksForMsg | include/crier/private/Crier_impl.hpp:366-398 | the oldest consumable callback of the type is used up; other types' callbacks are untouched; only the trace, the consumable callbacks and the unhandled queue can change |
| Dispatch.ReceiveMessage | include/crier/private/Crier_impl.hpp:343-363 | the type's earliest valid timeout is invalidated even when dispatch is deferred; a suppressor type arms the suppression; Immediate runs the listeners now, DispatchQueue only queues the message |
| Dispatch.OnTransportData | include/crier/private/Crier_impl.hpp:413-425 | an empty root message changes nothing; any other is received with its unwrapped payload; the dispatch queue grows by at most this message |
| Dispatch.RegisterPermanentCallback | include/crier/private/Crier_impl.hpp:266-275 | the type's registry becomes the upsert of the new callback, whatever the replay of retained messages then does; other types' registries are untouched |
| Dispatch.Replay | include/crier/private/Crier_impl.hpp:540-544 | feeds messages through the receive path in order; its contract states only that the permanent registries are untouched. What it delivers is stated by Scenarios.ReplayToPermanents, Scenarios.ReplayQueued and Scenarios.ReplayExtendsTrace |
| Dispatch.TreatQueuedMessagesForType | include/crier/private/Crier_impl.hpp:532-545 | takes the type's retained messages out of the queue and replays them; its contract states only that the permanent registries are untouched (see Replay) |
| Dispatch.FireTimeout | include/crier/private/Crier_impl.hpp:101-139 | the timer's entry always leaves its list; a valid entry drops the oldest consumable callback and runs the timeout callback now or queues it, per the type's mode; an invalid one changes nothing else |
| Dispatch.CallOnMainThread | include/crier/private/Crier_impl.hpp:337-340 | the closure joins the back of the dispatch queue and nothing runs |
| Dispatch.RunDeferred | include/crier/private/Crier_impl.hpp:356-361 | a queued invocation runs; a queued message is unwrapped and dispatched against the listeners present now; the queue itself is untouched |
| Dispatch.DispatchQueuedCallbacks | include/crier/private/Crier_impl.hpp:243-254 | the pump leaves the dispatch queue empty |
| Dispatch.RunAll | include/crier/private/Crier_impl.hpp:250-253 | runs a snapshot of closures in order; the running closures do not touch the dispatch queue. What they invoke is stated by Scenarios.RunInvokes |
| Dispatch.ConnectTransport | include/crier/private/Crier_impl.hpp:49-52 | connecting disarms the suppression and changes nothing else |
| Dispatch.OnTransportConnect | include/crier/private/Crier_impl.hpp:489-505 | every connect observer is invoked in registry order, now or through the queue per the open-event mode |
| Dispatch.OnTransportDisconnect | include/crier/private/Crier_impl.hpp:508-529 | an armed suppression swallows the event and is consumed; otherwise every disconnect observer gets the reason, in registry order, now or through the queue; afterwards nothing is armed |
| DispatchProperties.TriggerTrace | include/crier/private/Crier_impl.hpp:366-398 | dispatch invokes every permanent callback of the type with the payload, then the oldest consumable one if any |
| DispatchProperties.TriggerInvocationOrder | include/crier/Crier.hpp:128-130 | the permanent callbacks run once each in registry order: tier order (FIRST, ASAP, NORMAL), then ascending name within a tier. The consumable one runs last, and nothing earlier in the trace changes |
| DispatchProperties.PermanentsOrder | include/crier/Crier.hpp:128-130 | under the invariant, a type's permanent callbacks are ordered by tier, and by ascending name within a tier |
| DispatchProperties.PermanentsSorted | include/crier/private/Crier_priv.hpp:42 | under the invariant, every type's permanent registry is ordered, including the empty registry of a type with none |
| DispatchProperties.TriggerUnhandledOnlyWhenUnheard | include/crier/private/Crier_impl.hpp:395-397 | the unhandled queue changes if and only if the type has no listener of either kind and its policy is Enqueue, and then gains exactly this message |
| DispatchProperties.RegisterPermanentCallbackFind | include/crier/private/Crier_impl.hpp:266-275 | after registration the key finds the new callback; other keys are unchanged |
| DispatchProperties.RegisterPermanentCallbackSize | include/crier/Crier.hpp:131-132 | registering under an existing key replaces it; a new key adds exactly one callback |
| DispatchProperties.ClearPermanentCallbackFind | include/crier/private/Crier_impl.hpp:279-283 | after clearing, the key finds nothing; other keys are unchanged |
| DispatchProperties.TransportObserverRegistriesFind | include/crier/private/Crier_impl.hpp:287-311 | registering or clearing a connect or disconnect observer affects exactly its key |
| DispatchProperties.ScheduleTimeoutFreshId | include/crier/private/Crier_impl.hpp:98-99 | the new id is used by no pending timeout, so the timer finds exactly its own fresh valid entry |
| DispatchProperties.EntryWithIdLast | include/crier/private/Crier_impl.hpp:99 | a freshly appended entry with an unused id is the one its timer finds |
| DispatchProperties.SettingsPreserveValid | include/crier/private/Crier_impl.hpp:201-205 | queuing a response callback, clearing a type's callbacks, setting a dispatch mode and queuing any closure (an invocation or a deferred message dispatch) keep the invariant |
| DispatchProperties.TransportSettingsPreserveValid | include/crier/private/Crier_impl.hpp:214-231 | the transport dispatch settings and the suppression operations keep the invariant |
| DispatchProperties.OnTransportConnectPreservesValid | include/crier/private/Crier_impl.hpp:489-505 | a connect event keeps the invariant |
| DispatchProperties.OnTransportDisconnectPreservesValid | include/crier/private/Crier_impl.hpp:508-529 | a disconnect event keeps the invariant |
| DispatchProperties.ClearPermanentCallbackPreservesValid | include/crier/private/Crier_impl.hpp:279-283 | clearing a permanent callback keeps the registries ordered |
| DispatchProperties.TransportObserverUpdatesPreserveValid | include/crier/private/Crier_impl.hpp:287-311 | registering or clearing transport observers keeps the registries ordered |
| DispatchProperties.SetUnhandledBehaviourPreservesValid | include/crier/private/Crier_impl.hpp:182-191 | changing a policy keeps the queue consistent: switching to Ignore empties the type's queue |
| DispatchProperties.ScheduleTimeoutPreservesValid | include/crier/private/Crier_impl.hpp:96-99 | scheduling keeps timeout ids increasing, below the counter and unshared |
| DispatchProperties.InvalidateFirstTimeoutPreservesValid | include/crier/private/Crier_impl.hpp:144-155 | a response's invalidation keeps the timeout table well formed |
| DispatchProperties.InvalidateAllTimeoutsPreservesValid | include/crier/private/Crier_impl.hpp:168-178 | shutdown invalidation keeps the timeout table well formed |
| DispatchProperties.FireTimeoutPreservesValid | include/crier/private/Crier_impl.hpp:101-139 | an expiring timer keeps the invariant |
| DispatchProperties.UnhandledMessagePreservesValid | include/crier/private/Crier_impl.hpp:326-334 | for a message of type t, applying a policy keeps the invariant exactly when the policy applied is Ignore or t's own policy is Enqueue; enqueueing for an Ignore type breaks it |
| DispatchProperties.DealWithUnhandledPreservesValid | include/crier/private/Crier_impl.hpp:401-410 | retaining a message of its own type keeps the queue consistent |
| DispatchProperties.TriggerPreservesValid | include/crier/private/Crier_impl.hpp:366-398 | dispatching a message keeps the invariant |
| DispatchProperties.ReceiveMessagePreservesValid | include/crier/private/Crier_impl.hpp:343-363 | receiving a message keeps the invariant |
| DispatchProperties.OnTransportDataPreservesValid | include/crier/private/Crier_impl.hpp:413-425 | any root message from the transport keeps the invariant |
| DispatchProperties.ReplayPreservesValid | include/crier/private/Crier_impl.hpp:540-544 | replaying any messages keeps the invariant |
| DispatchProperties.TreatQueuedMessagesPreservesValid | include/crier/private/Crier_impl.hpp:532-545 | replaying a type's retained messages keeps the invariant |
| DispatchProperties.RegisterPermanentCallbackPreservesValid | include/crier/private/Crier_impl.hpp:266-275 | registering a permanent callback, replay included, keeps the invariant |
| DispatchProperties.RunDeferredPreservesValid | include/crier/private/Crier_impl.hpp:356-361 | running one queued closure keeps the invariant |
| DispatchProperties.RunAllPreservesValid | include/crier/private/Crier_impl.hpp:250-253 | running any sequence of queued closures keeps the invariant |
| DispatchProperties.DispatchQueuedCallbacksPreservesValid | include/crier/private/Crier_impl.hpp:243-254 | pumping the queue keeps the invariant |
| Scenarios.ReceiveHeardByConsumable | include/crier/Crier.hpp:98-100 | a message whose type has only response callbacks goes to the oldest one, which is used up, and is not retained |
| Scenarios.ReceiveHeardByPermanents | include/crier/private/Crier_impl.hpp:369-379 | a message whose type has only permanent callbacks reaches all of them, none is removed, and it is not retained |
| Scenarios.ReceiveUnheard | include/crier/Crier.hpp:185-188 | a message nobody listens to invokes nothing and is retained exactly when its policy is Enqueue |
| Scenarios.EchoReachesResponseCallback | test/src/tests/MessageSendReceiveTests.hpp:9-23 | a request echoed back reaches its response callback once, with the sent payload, and the callback is used up |
| Scenarios.ResponseBeforeTimeout | test/src/tests/MessageSendReceiveTests.hpp:25-52 | a response before the timer runs the response callback once; the later timer runs nothing; nothing is left pending |
| Scenarios.TimeoutBeforeResponse | test/src/tests/MessageSendReceiveTests.hpp:54-80 | a timer before the response runs the timeout callback once and drops the response callback; the late response reaches no callback |
| Scenarios.OneRequestPending | include/crier/private/Crier_impl.hpp:90-93 | after a request with a timeout on a quiet type, exactly one valid timeout and one response callback are pending |
| Scenarios.TimerThenLateResponse | include/crier/Crier.hpp:116-118 | with one pending request, an expiring timer runs the timeout callback and deletes the response callback; the response then invokes nothing |
| Scenarios.SecondTimerFiresFirst | include/crier/private/Crier_impl.hpp:113-117 | with two pending requests, the second timer firing first runs its own timeout callback but drops the oldest response callback, leaving the second request's |
| Scenarios.ResponseThenStaleTimer | include/crier/private/Crier_impl.hpp:108-109 | with one pending request, the response invalidates the timeout, whose timer then invokes nothing |
| Scenarios.TwoRequestsPending | include/crier/private/Crier_impl.hpp:90-93 | two requests for one response type leave two valid timeouts in scheduling order and both response callbacks in request order |
| Scenarios.ShorterSecondTimeoutMisroutesResponse | include/crier/private/Crier_impl.hpp:113-114 | the second request's shorter timeout drops the first request's callback; the first response then reaches the second request's callback, and the first request's callbacks never run |
| Scenarios.SuppressionIsOneShot | include/crier/Crier.hpp:247-257 | after a suppressor message the next disconnect reaches no observer, and the one after reaches every observer with its reason |
| Scenarios.ConnectDisarmsSuppression | include/crier/private/Crier_impl.hpp:49-52 | connecting disarms a pending suppression, so the next disconnect is reported |
| Scenarios.ObserversSeeConnectAndDisconnect | test/src/tests/ConnectionTests.hpp:19-33 | observers registered on a new engine see the connect once, then the disconnect once, with its reason |
| Scenarios.DeferredDispatchLooksUpAtPump | include/crier/Crier.hpp:233-235 | a queued message invokes nothing on arrival, and a callback registered before the pump receives it exactly once |
| Scenarios.RunInvokes | include/crier/private/Crier_impl.hpp:250-253 | pumping queued invocations makes exactly those calls, in enqueue order |
| Scenarios.QueuedConnectObserversMatchImmediate | include/crier/private/Crier_impl.hpp:489-505 | queued connect observers, once pumped, make exactly the calls immediate dispatch would make |
| Scenarios.QueuedDisconnectObserversMatchImmediate | include/crier/private/Crier_impl.hpp:508-529 | queued disconnect observers, once pumped, make exactly the calls immediate dispatch would make, with the same reason |
| Scenarios.ReplayOnlyAppendsToQueue | include/crier/private/Crier_impl.hpp:532-545 | replaying retained messages never removes or reorders queued closures |
| Scenarios.ReceiveOnlyAppendsToQueue | include/crier/private/Crier_impl.hpp:413-425 | receiving never removes or reorders queued closures |
| Scenarios.TransportEventsOnlyAppendToQueue | include/crier/private/Crier_impl.hpp:489-529 | transport events never remove or reorder queued closures |
| Scenarios.RegisterOnlyAppendsToQueue | include/crier/private/Crier_impl.hpp:266-275 | registering a permanent callback never removes or reorders queued closures |
| Scenarios.ReplayToPermanents | include/crier/private/Crier_impl.hpp:540-544 | replayed messages each reach every permanent callback, in arrival order, and none is retained again |
| Scenarios.RegisterReplaysRetained | include/crier/Crier.hpp:185-188 | the first listener of a type receives every retained message of that type, in arrival order, and the type's queue is emptied |
| Scenarios.ReceiveQueued | include/crier/private/Crier_impl.hpp:343-363 | a receive whose dispatch is deferred only appends that message's dispatch to the queue. Trace, response callbacks, retained messages and the mode stay as they were |
| Scenarios.ReplayQueued | include/crier/private/Crier_impl.hpp:540-544 | replaying under deferred dispatch runs nothing and uses up no response callback. Each message is queued for the pump once, in order |
| Scenarios.RegisterQueuesRetained | include/crier/Crier.hpp:185-188 | registering under deferred dispatch empties the type's queue. Its retained messages are queued for the pump in arrival order, and nothing runs yet |
| Scenarios.ReceiveExtendsTrace | include/crier/private/Crier_impl.hpp:413-425 | receiving never removes or reorders earlier invocations |
| Scenarios.ReplayExtendsTrace | include/crier/private/Crier_impl.hpp:540-544 | replaying never removes or reorders earlier invocations |
| Scenarios.RegisterReplayConsumesResponse | include/crier/private/Crier_impl.hpp:540-544 | with immediate dispatch and a response callback pending, the first retained message reaches the permanent callbacks, the new one included. It then uses up the oldest response callback |
| Scenarios.IgnoreDropsUnheard | include/crier/Crier.hpp:185-188 | under Ignore, a message nobody listens to invokes nothing and is not retained |
| Crier.Crier.constructor | include/crier/Crier.hpp:48-49 | the new object is the initial engine, with Ignore and Immediate as defaults unless chosen, and satisfies the invariant |
| Crier.Crier.SendMessage | include/crier/private/Crier_impl.hpp:66-75 | the message handed to the transport is the payload packed into a fresh root; if the payload can be bundled it unwraps to the payload; no engine state changes |
| Crier.Crier.SendMessageWithRetCallback | include/crier/private/Crier_impl.hpp:79-86 | the response callback is queued before the packed message is sent |
| Crier.Crier.SendMessageWithRetCallbackAndTimeout | include/crier/private/Crier_impl.hpp:90-93 | the timeout is scheduled (its id returned), then the response callback queued, then the message sent |
| Crier.Crier.ScheduleTimeout | include/crier/private/Crier_impl.hpp:96-99 | returns the counter's old value as the new entry's id and performs the scheduling transition |
| Crier.Crier.FireTimeout | include/crier/private/Crier_impl.hpp:101-139 | the object performs the timer-expiry transition and keeps the engine invariant |
| Crier.Crier.TakeTimeoutEntry | include/crier/private/Crier_impl.hpp:106-124 | returns the timer's entry; the entry leaves its list and, if it was valid, the oldest consumable callback is dropped; nothing else changes |
| Crier.Crier.InvalidateFirstTimeout | include/crier/private/Crier_impl.hpp:144-155 | the scanning loop invalidates exactly the earliest valid entry of the type |
| Crier.Crier.InvalidateAllTimeouts | include/crier/private/Crier_impl.hpp:168-178 | the loop over all types invalidates every entry |
| Crier.Crier.InvalidateEntries | include/crier/private/Crier_impl.hpp:173-176 | the inner loop marks every entry of one list invalid |
| Crier.Crier.SetUnhandledBehaviourForMsg | include/crier/private/Crier_impl.hpp:182-191 | performs the policy-setting transition, discarding retained messages under Ignore |
| Crier.Crier.SetUnhandledBehaviourForMsgToDefault | include/crier/private/Crier_impl.hpp:195-197 | stores the default policy as the type's override, with the same effect on retained messages |
| Crier.Crier.SetInboundDispatchingForMsg | include/crier/private/Crier_impl.hpp:201-205 | sets the type's dispatch mode override |
| Crier.Crier.SetInboundDispatchingForMsgToDefault | include/crier/private/Crier_impl.hpp:209-211 | stores the default mode as the type's override |
| Crier.Crier.SetInboundDispatchingForTransportOpen | include/crier/private/Crier_impl.hpp:214-216 | only the connect-event mode changes |
| Crier.Crier.SetInboundDispatchingForTransportClosed | include/crier/private/Crier_impl.hpp:219-221 | only the disconnect-event mode changes |
| Crier.Crier.SetInboundDispatchingForTransportOpenToDefault | include/crier/private/Crier_impl.hpp:224-226 | the connect-event mode returns to the construction default |
| Crier.Crier.SetInboundDispatchingForTransportClosedToDefault | include/crier/private/Crier_impl.hpp:229-231 | the disconnect-event mode returns to the construction default |
| Crier.Crier.GetInboundDispatchingForMsg | include/crier/private/Crier_impl.hpp:234-240 | the type's override if set, else the construction default; no state changes |
| Crier.Crier.ClearCallbacksForMsg | include/crier/private/Crier_impl.hpp:258-262 | empties the type's consumable callbacks |
| Crier.Crier.RegisterPermanentCallback | include/crier/private/Crier_impl.hpp:266-275 | upserts the callback, then replays the type's retained messages, as the registration transition; keeps the engine invariant |
| Crier.Crier.ClearPermanentCallback | include/crier/private/Crier_impl.hpp:279-283 | erases the key from the type's registry |
| Crier.Crier.RegisterForTransportClosedCallback | include/crier/private/Crier_impl.hpp:287-290 | upserts a disconnect observer |
| Crier.Crier.ClearTransportClosedCallback | include/crier/private/Crier_impl.hpp:294-297 | erases a disconnect observer |
| Crier.Crier.RegisterForTransportOpenedCallback | include/crier/private/Crier_impl.hpp:301-304 | upserts a connect observer |
| Crier.Crier.ClearTransportOpenedCallback | include/crier/private/Crier_impl.hpp:308-311 | erases a connect observer |
| Crier.Crier.SupressTransportClosedAfterMsgOfType | include/crier/private/Crier_impl.hpp:315-318 | marks the type as a suppressor |
| Crier.Crier.ClearSupressionTransportClosed | include/crier/private/Crier_impl.hpp:321-323 | forgets every suppressor type, leaving an armed suppression armed |
| Crier.Crier.CallOnMainThread | include/crier/private/Crier_impl.hpp:337-340 | appends the closure to the dispatch queue |
| Crier.Crier.RunDeferred | include/crier/private/Crier_impl.hpp:356-361 | runs one queued closure, looking a queued message's listeners up now |
| Crier.Crier.DispatchQueuedCallbacks | include/crier/private/Crier_impl.hpp:243-254 | the pump takes the whole queue, clears it, and runs what it took, in order |
| Crier.Crier.UnhandledMessage | include/crier/private/Crier_impl.hpp:326-334 | applies the given policy to the message |
| Crier.Crier.DealWithUnhandledMessage | include/crier/private/Crier_impl.hpp:401-410 | applies the type's policy, or the default, to the message |
| Crier.Crier.TriggerCallbacksForMsg | include/crier/private/Crier_impl.hpp:366-398 | runs the permanent callbacks, then the oldest consumable one; with neither, the unhandled policy takes the message |
| Crier.Crier.NotifyPermanentObservers | include/crier/private/Crier_impl.hpp:369-379 | the loop invokes every permanent callback of the type in registry order, and returns how many ran |
| Crier.Crier.ReceiveMessage | include/crier/private/Crier_impl.hpp:343-363 | performs the receive transition; an object that satisfied the engine invariant still does |
| Crier.Crier.OnTransportData | include/crier/private/Crier_impl.hpp:413-425 | drops an empty root message and receives any other; keeps the engine invariant |
| Crier.Crier.TreatQueuedMessagesForType | include/crier/private/Crier_impl.hpp:532-545 | takes the type's retained messages out of the queue and receives each again, in arrival order |
| Crier.Crier.ConnectTransport | include/crier/private/Crier_impl.hpp:49-52 | disarms the disconnect suppression |
| Crier.Crier.NotifyNow | include/crier/private/Crier_impl.hpp:501-503 | invokes the given observers now, in order, and changes nothing else |
| Crier.Crier.NotifyLater | include/crier/private/Crier_impl.hpp:496-499 | queues one invocation per observer, in order, and changes nothing else |
| Crier.Crier.OnTransportConnect | include/crier/private/Crier_impl.hpp:489-505 | copies the connect observers and notifies them per the open-event mode |
| Crier.Crier.OnTransportDisconnect | include/crier/private/Crier_impl.hpp:508-529 | a suppressed disconnect only disarms; otherwise copies the disconnect observers and notifies them per the closed-event mode |

## Left out

- Threads, mutexes and sleeping: every operation is atomic. A timeout's delay in milliseconds is not modelled; its expiry is the `FireTimeout` event, which may happen at any point after scheduling.
- Interleavings where a callback runs while another operation is half done are not modelled. Nor is a callback's own effect on the engine (a callback that registers or sends while it runs): a callback is an identity recorded in the trace.
- The destructor's joining of timer threads (`include/crier/private/Crier_impl.hpp:31-36`) is not modelled; the invalidation it performs first is `InvalidateAllTimeouts`.
- Dispatch.ScheduleTimeout: `_timeoutIds` is an `unsigned int` that wraps after 2^32 timeouts; the model's counter is unbounded, so ids never repeat.
- The standard map's `operator[]` inserts an empty entry when it reads a missing key. The model reads a missing key as empty and adds no entry; no observable behaviour depends on the difference.
- Serialisation: the transport hands over the root message already deserialised, and `sendMessage` returns the root message instead of bytes. The custom serialisation hooks (`include/crier/private/Crier_impl.hpp:564-581`) are not part of this model.
- The transport pass-throughs (`disconnectTransport`, `transportConnected`, `transport`, `ctransport`, the transport construction) and the error log for empty messages (`logEmptyMessageError`) are not modelled: they hold no engine state.
- `invalidateAllTimeoutsForMsg` (`include/crier/private/Crier_impl.hpp:158-165`) is never called by the engine and is not modelled.
- Protocol-buffer reflection is abstracted by descriptors carried in the values. Unwrapping takes direct fields in declaration order, then set extensions in the order they were set; the library's reflection lists populated fields by field number, and the model does not capture field numbers. The deep copy of the payload is a value copy.
- Containers are assumed well typed: the values admit a populated slot whose payload type differs from its descriptor, or a populated field that is not message-typed, which the library's reflection cannot produce. `OpenReq` would unwrap such a slot; no operation of the model creates one.
- The definition of the callback registry type is not part of this model. Its order is taken to be tier first, then name in lexicographic order, which is the documented invocation order.
- Crier.Crier: the methods state each new state as the matching `Dispatch` transition. The invariant `Valid` is stated on the constructor, `FireTimeout`, `OnTransportData`, `RegisterPermanentCallback` and (as "kept if it held") `ReceiveMessage`. For the other methods it follows from the `DispatchProperties.*PreservesValid` lemmas rather than being restated on each method; for `UnhandledMessage` only under the condition `DispatchProperties.UnhandledMessagePreservesValid` states, which its one caller meets.
- Dispatch.RegisterPermanentCallback, Dispatch.TreatQueuedMessagesForType, Dispatch.Replay, Dispatch.RunAll, Dispatch.DispatchQueuedCallbacks: their own contracts state only the registry update or the emptied queue. What the replay and the pump deliver is proved separately. `Scenarios.ReplayToPermanents`, `Scenarios.RegisterReplaysRetained`, `Scenarios.ReplayQueued`, `Scenarios.RegisterQueuesRetained` and `Scenarios.RegisterReplayConsumesResponse` cover the replay. `Scenarios.RunInvokes` and `Scenarios.DeferredDispatchLooksUpAtPump` cover the pump.
- Scenarios.RegisterReplaysRetained: stated for the first listener of a type with immediate dispatch and no pending response callback. Other cases are covered as follows. Deferred dispatch is stated by `Scenarios.RegisterQueuesRetained`. A pending response callback is stated by `Scenarios.RegisterReplayConsumesResponse` for the first retained message only; what later messages reach is not stated as one lemma. Other listeners with no response callback are stated by `Scenarios.ReplayToPermanents`.
