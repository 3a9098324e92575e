/**
 * The dispatch engine as a state machine over values. `Engine` holds one
 * component per member of the engine's private state, plus `trace`, the
 * ordered record of user callbacks invoked so far. Each function below is one
 * engine operation with threads and locks removed: every operation is atomic,
 * a timer expiring is the explicit event `FireTimeout`, and the transport's
 * hooks are `OnTransportConnect`, `OnTransportData` and `OnTransportDisconnect`.
 */
module Dispatch {
  import opened Wrappers
  import opened CrierTypes
  import opened CallbackMaps
  import opened Envelope
  import opened Timeouts

  /** What a user callback was invoked with. */
  datatype CallArg = NoArg | Message(payload: Payload) | Reason(reason: string)

  /** One invocation of a user callback. */
  datatype Call = Call(callback: CallbackId, arg: CallArg)

  /**
   * A closure waiting in the dispatch queue: either a plain invocation, or the
   * deferred dispatch of a received root message, whose callbacks are looked up
   * only when the queue is pumped.
   */
  datatype Deferred = Invoke(call: Call) | DispatchContainer(container: Container)

  datatype Engine = Engine(
    callbackMap: map<TypeKey, seq<CallbackId>>,            // consumable callbacks, FIFO per type
    permanentObserverMap: map<TypeKey, CallbackMap>,       // permanent callbacks per type
    timeoutCallbackMap: map<TypeKey, TimeoutList>,         // timeout entries per type
    timeoutIds: nat,                                       // engine-wide timeout id counter
    transportClosedObserverMap: CallbackMap,
    transportOpenedObserverMap: CallbackMap,
    defaultUnhandledBehaviour: UnhandledMessageBehaviour,
    unhandledBehaviourSettings: map<TypeKey, UnhandledMessageBehaviour>,
    unhandledMessageQueue: map<TypeKey, seq<Container>>,   // retained unhandled messages per type
    defaultInboundDispatch: InboundDispatching,
    inboundDispatchSettings: map<TypeKey, InboundDispatching>,
    inboundDispatchTransportOpenSetting: InboundDispatching,
    inboundDispatchTransportErrorSetting: InboundDispatching,
    mainThreadCallbacks: seq<Deferred>,                    // the pending dispatch queue
    transportClosedSupressors: map<TypeKey, bool>,
    supressNextTransportClosed: bool,
    trace: seq<Call>)

  // ---------------------------------------------------------------- lookups (absent key = empty)

  function Consumables(e: Engine, t: TypeKey): seq<CallbackId>
  {
    if t in e.callbackMap then e.callbackMap[t] else []
  }

  function Permanents(e: Engine, t: TypeKey): CallbackMap
  {
    if t in e.permanentObserverMap then e.permanentObserverMap[t] else []
  }

  function TimeoutsFor(e: Engine, t: TypeKey): TimeoutList
  {
    if t in e.timeoutCallbackMap then e.timeoutCallbackMap[t] else []
  }

  function Queued(e: Engine, t: TypeKey): seq<Container>
  {
    if t in e.unhandledMessageQueue then e.unhandledMessageQueue[t] else []
  }

  function IsSuppressor(e: Engine, t: TypeKey): bool
  {
    t in e.transportClosedSupressors && e.transportClosedSupressors[t]
  }

  /** The unhandled policy in force for t: its override if one is set, else the default. */
  function UnhandledBehaviourFor(e: Engine, t: TypeKey): UnhandledMessageBehaviour
  {
    if t in e.unhandledBehaviourSettings then e.unhandledBehaviourSettings[t] else e.defaultUnhandledBehaviour
  }

  /** The dispatch mode in force for t: its override if one is set, else the default. */
  function GetInboundDispatchingForMsg(e: Engine, t: TypeKey): (d: InboundDispatching)
    ensures t in e.inboundDispatchSettings ==> d == e.inboundDispatchSettings[t]
    ensures t !in e.inboundDispatchSettings ==> d == e.defaultInboundDispatch
  {
    if t in e.inboundDispatchSettings then e.inboundDispatchSettings[t] else e.defaultInboundDispatch
  }

  /** Invocations of the given callbacks, in order, all with the same argument. */
  function Calls(cbs: seq<CallbackId>, arg: CallArg): (cs: seq<Call>)
    ensures |cs| == |cbs|
    ensures forall i :: 0 <= i < |cbs| ==> cs[i] == Call(cbs[i], arg)
  {
    seq(|cbs|, i requires 0 <= i < |cbs| => Call(cbs[i], arg))
  }

  /** One more callback adds one more invocation at the end. */
  lemma CallsSnoc(cbs: seq<CallbackId>, cb: CallbackId, arg: CallArg)
    ensures Calls(cbs + [cb], arg) == Calls(cbs, arg) + [Call(cb, arg)]
  {
  }

  /** The same invocations, deferred to the dispatch queue. */
  function Invokes(cbs: seq<CallbackId>, arg: CallArg): (ds: seq<Deferred>)
    ensures |ds| == |cbs|
    ensures forall i :: 0 <= i < |cbs| ==> ds[i] == Invoke(Call(cbs[i], arg))
  {
    seq(|cbs|, i requires 0 <= i < |cbs| => Invoke(Call(cbs[i], arg)))
  }

  // ---------------------------------------------------------------- invariant

  /** c unwraps to a payload of type t. */
  ghost predicate OpensAs(c: Container, t: TypeKey)
  {
    OpenReq(c).Some? && OpenReq(c).value.typeName == t
  }

  /** Every callback registry is ordered, hence holds one entry per key. */
  ghost predicate RegistriesOrdered(permanents: map<TypeKey, CallbackMap>, closedObservers: CallbackMap, openedObservers: CallbackMap)
  {
    && (forall t :: t in permanents ==> Sorted(permanents[t]))
    && Sorted(closedObservers)
    && Sorted(openedObservers)
  }

  /**
   * Each retained message is filed under its own type, and no message is
   * retained for a type whose policy is Ignore.
   */
  ghost predicate QueueConsistent(queue: map<TypeKey, seq<Container>>,
                                  settings: map<TypeKey, UnhandledMessageBehaviour>,
                                  fallback: UnhandledMessageBehaviour)
  {
    && (forall t, c :: t in queue && c in queue[t] ==> OpensAs(c, t))
    && (forall t :: t in queue && (if t in settings then settings[t] else fallback) == Ignore ==> queue[t] == [])
  }

  /** The engine invariant: ordered registries, well-formed timeout ids, a consistent unhandled queue. */
  ghost predicate Valid(e: Engine)
  {
    && RegistriesOrdered(e.permanentObserverMap, e.transportClosedObserverMap, e.transportOpenedObserverMap)
    && WellFormed(e.timeoutCallbackMap, e.timeoutIds)
    && QueueConsistent(e.unhandledMessageQueue, e.unhandledBehaviourSettings, e.defaultUnhandledBehaviour)
  }

  /** The state right after construction. */
  function Initial(defaultUnhandled: UnhandledMessageBehaviour, defaultDispatch: InboundDispatching): (e: Engine)
    ensures Valid(e)
    ensures forall t :: UnhandledBehaviourFor(e, t) == defaultUnhandled
    ensures forall t :: GetInboundDispatchingForMsg(e, t) == defaultDispatch
    ensures e.inboundDispatchTransportOpenSetting == defaultDispatch
    ensures e.inboundDispatchTransportErrorSetting == defaultDispatch
    ensures !e.supressNextTransportClosed && e.trace == [] && e.mainThreadCallbacks == []
  {
    Engine(map[], map[], map[], 0, [], [], defaultUnhandled, map[], map[],
           defaultDispatch, map[], defaultDispatch, defaultDispatch, [], map[], false, [])
  }

  // ---------------------------------------------------------------- registration

  /** Registers a consumable callback for responses of type t (at the back of its FIFO). */
  function PushConsumable(e: Engine, t: TypeKey, cb: CallbackId): (r: Engine)
    ensures Consumables(r, t) == Consumables(e, t) + [cb]
    ensures forall t' :: t' != t ==> Consumables(r, t') == Consumables(e, t')
    ensures r == e.(callbackMap := r.callbackMap)
  {
    e.(callbackMap := e.callbackMap[t := Consumables(e, t) + [cb]])
  }

  /** Drops every consumable callback of type t. */
  function ClearCallbacksForMsg(e: Engine, t: TypeKey): (r: Engine)
    ensures Consumables(r, t) == []
    ensures forall t' :: t' != t ==> Consumables(r, t') == Consumables(e, t')
    ensures r == e.(callbackMap := r.callbackMap)
  {
    e.(callbackMap := e.callbackMap[t := []])
  }

  /** Removes the permanent callback registered for t under key k, if any. */
  function ClearPermanentCallback(e: Engine, t: TypeKey, k: ObserverKey): (r: Engine)
    ensures Permanents(r, t) == Erase(Permanents(e, t), k)
    ensures forall t' :: t' != t ==> Permanents(r, t') == Permanents(e, t')
    ensures r == e.(permanentObserverMap := r.permanentObserverMap)
  {
    e.(permanentObserverMap := e.permanentObserverMap[t := Erase(Permanents(e, t), k)])
  }

  /**
   * Sets t's unhandled policy override; choosing Ignore also discards every
   * message retained for t.
   */
  function SetUnhandledBehaviourForMsg(e: Engine, t: TypeKey, b: UnhandledMessageBehaviour): (r: Engine)
    ensures UnhandledBehaviourFor(r, t) == b
    ensures forall t' :: t' != t ==> UnhandledBehaviourFor(r, t') == UnhandledBehaviourFor(e, t')
    ensures b == Ignore ==> Queued(r, t) == []
    ensures b == Enqueue ==> Queued(r, t) == Queued(e, t)
    ensures forall t' :: t' != t ==> Queued(r, t') == Queued(e, t')
    ensures r == e.(unhandledBehaviourSettings := r.unhandledBehaviourSettings,
                     unhandledMessageQueue := r.unhandledMessageQueue)
  {
    var e1 := e.(unhandledBehaviourSettings := e.unhandledBehaviourSettings[t := b]);
    if b == Ignore then e1.(unhandledMessageQueue := e1.unhandledMessageQueue[t := []]) else e1
  }

  /** Sets t's dispatch mode override. */
  function SetInboundDispatchingForMsg(e: Engine, t: TypeKey, d: InboundDispatching): (r: Engine)
    ensures GetInboundDispatchingForMsg(r, t) == d
    ensures forall t' :: t' != t ==> GetInboundDispatchingForMsg(r, t') == GetInboundDispatchingForMsg(e, t')
    ensures r == e.(inboundDispatchSettings := r.inboundDispatchSettings)
  {
    e.(inboundDispatchSettings := e.inboundDispatchSettings[t := d])
  }

  /** Sets how connect observers are run. */
  function SetInboundDispatchingForTransportOpen(e: Engine, d: InboundDispatching): (r: Engine)
    ensures r == e.(inboundDispatchTransportOpenSetting := d)
  {
    e.(inboundDispatchTransportOpenSetting := d)
  }

  /** Sets how disconnect observers are run. */
  function SetInboundDispatchingForTransportClosed(e: Engine, d: InboundDispatching): (r: Engine)
    ensures r == e.(inboundDispatchTransportErrorSetting := d)
  {
    e.(inboundDispatchTransportErrorSetting := d)
  }

  /** Upserts a disconnect observer under key k. */
  function RegisterForTransportClosedCallback(e: Engine, k: ObserverKey, cb: CallbackId): (r: Engine)
    ensures r == e.(transportClosedObserverMap := Insert(e.transportClosedObserverMap, k, cb))
  {
    e.(transportClosedObserverMap := Insert(e.transportClosedObserverMap, k, cb))
  }

  /** Removes the disconnect observer registered under key k, if any. */
  function ClearTransportClosedCallback(e: Engine, k: ObserverKey): (r: Engine)
    ensures r == e.(transportClosedObserverMap := Erase(e.transportClosedObserverMap, k))
  {
    e.(transportClosedObserverMap := Erase(e.transportClosedObserverMap, k))
  }

  /** Upserts a connect observer under key k. */
  function RegisterForTransportOpenedCallback(e: Engine, k: ObserverKey, cb: CallbackId): (r: Engine)
    ensures r == e.(transportOpenedObserverMap := Insert(e.transportOpenedObserverMap, k, cb))
  {
    e.(transportOpenedObserverMap := Insert(e.transportOpenedObserverMap, k, cb))
  }

  /** Removes the connect observer registered under key k, if any. */
  function ClearTransportOpenedCallback(e: Engine, k: ObserverKey): (r: Engine)
    ensures r == e.(transportOpenedObserverMap := Erase(e.transportOpenedObserverMap, k))
  {
    e.(transportOpenedObserverMap := Erase(e.transportOpenedObserverMap, k))
  }

  /** Marks t as a suppressor: receiving a t arms the one-shot disconnect suppression. */
  function SupressTransportClosedAfterMsgOfType(e: Engine, t: TypeKey): (r: Engine)
    ensures IsSuppressor(r, t)
    ensures forall t' :: t' != t ==> IsSuppressor(r, t') == IsSuppressor(e, t')
    ensures r == e.(transportClosedSupressors := r.transportClosedSupressors)
  {
    e.(transportClosedSupressors := e.transportClosedSupressors[t := true])
  }

  /** Forgets every suppressor type; an already armed suppression stays armed. */
  function ClearSupressionTransportClosed(e: Engine): (r: Engine)
    ensures forall t :: !IsSuppressor(r, t)
    ensures r.supressNextTransportClosed == e.supressNextTransportClosed
    ensures r == e.(transportClosedSupressors := r.transportClosedSupressors)
  {
    e.(transportClosedSupressors := map[])
  }

  // ---------------------------------------------------------------- timeouts

  /**
   * Bookkeeping part of scheduling a timeout for responses of type t: a valid
   * entry carrying the counter's value is appended to t's list, and the counter
   * advances. The new entry's id is `e.timeoutIds`.
   */
  function ScheduleTimeout(e: Engine, t: TypeKey, onTimeout: CallbackId): (r: Engine)
    ensures TimeoutsFor(r, t) == TimeoutsFor(e, t) + [TimeoutData(e.timeoutIds, true, onTimeout)]
    ensures forall t' :: t' != t ==> TimeoutsFor(r, t') == TimeoutsFor(e, t')
    ensures r.timeoutIds == e.timeoutIds + 1
    ensures r == e.(timeoutCallbackMap := r.timeoutCallbackMap, timeoutIds := r.timeoutIds)
  {
    e.(timeoutCallbackMap := e.timeoutCallbackMap[t := TimeoutsFor(e, t) + [TimeoutData(e.timeoutIds, true, onTimeout)]],
       timeoutIds := e.timeoutIds + 1)
  }

  /** A response of type t arrived: only the earliest still-valid entry of t is invalidated. */
  function InvalidateFirstTimeout(e: Engine, t: TypeKey): (r: Engine)
    ensures TimeoutsFor(r, t) == InvalidateFirst(TimeoutsFor(e, t))
    ensures forall t' :: t' != t ==> TimeoutsFor(r, t') == TimeoutsFor(e, t')
    ensures r == e.(timeoutCallbackMap := r.timeoutCallbackMap)
  {
    e.(timeoutCallbackMap := e.timeoutCallbackMap[t := InvalidateFirst(TimeoutsFor(e, t))])
  }

  /** Engine shutdown: every timeout entry of every type is invalidated, none removed. */
  function InvalidateAllTimeouts(e: Engine): (r: Engine)
    ensures r.timeoutCallbackMap.Keys == e.timeoutCallbackMap.Keys
    ensures forall t :: t in e.timeoutCallbackMap ==>
              |TimeoutsFor(r, t)| == |TimeoutsFor(e, t)|
              && forall i :: 0 <= i < |TimeoutsFor(r, t)| ==>
                   TimeoutsFor(r, t)[i] == TimeoutsFor(e, t)[i].(valid := false)
    ensures r == e.(timeoutCallbackMap := r.timeoutCallbackMap)
  {
    e.(timeoutCallbackMap := map t | t in e.timeoutCallbackMap :: InvalidateAll(e.timeoutCallbackMap[t]))
  }

  // ---------------------------------------------------------------- inbound

  /** Applies an unhandled policy to message r of type t. */
  function UnhandledMessage(e: Engine, r: Container, t: TypeKey, b: UnhandledMessageBehaviour): (e': Engine)
    ensures b == Ignore ==> e' == e
    ensures b == Enqueue ==> Queued(e', t) == Queued(e, t) + [r]
    ensures forall t' :: t' != t ==> Queued(e', t') == Queued(e, t')
    ensures e' == e.(unhandledMessageQueue := e'.unhandledMessageQueue)
  {
    if b == Ignore then e
    else e.(unhandledMessageQueue := e.unhandledMessageQueue[t := Queued(e, t) + [r]])
  }

  /** Message r of type t found no listener: t's policy decides between dropping and retaining it. */
  function DealWithUnhandledMessage(e: Engine, r: Container, t: TypeKey): (e': Engine)
    ensures UnhandledBehaviourFor(e, t) == Ignore ==> e' == e
    ensures UnhandledBehaviourFor(e, t) == Enqueue ==>
              Queued(e', t) == Queued(e, t) + [r]
              && (forall t' :: t' != t ==> Queued(e', t') == Queued(e, t'))
              && e' == e.(unhandledMessageQueue := e'.unhandledMessageQueue)
    {
    UnhandledMessage(e, r, t, UnhandledBehaviourFor(e, t))
  }

  /**
   * Runs the listeners of payload p (unwrapped from r): every permanent callback
   * of its type, in registry order and without removing any; then the front
   * consumable callback of its type, which is removed. Only when neither exists
   * does the unhandled policy see the message.
   */
  function TriggerCallbacksForMsg(e: Engine, r: Container, p: Payload): (e': Engine)
    requires OpenReq(r) == Some(p)
    ensures var q := Consumables(e, p.typeName);
            Consumables(e', p.typeName) == if q != [] then q[1..] else []
    ensures forall t' :: t' != p.typeName ==> Consumables(e', t') == Consumables(e, t')
    ensures e' == e.(trace := e'.trace, callbackMap := e'.callbackMap,
                     unhandledMessageQueue := e'.unhandledMessageQueue)
  {
    var t := p.typeName;
    var perms := Values(Permanents(e, t));
    var e1 := e.(trace := e.trace + Calls(perms, Message(p)));
    var q := Consumables(e, t);
    if q != [] then
      e1.(callbackMap := e.callbackMap[t := q[1..]], trace := e1.trace + [Call(q[0], Message(p))])
    else if perms == [] then
      assert e1 == e;
      DealWithUnhandledMessage(e1, r, t)
    else
      e1
  }

  /**
   * A root message r with payload p arrived: the earliest valid timeout of p's
   * type is invalidated first (even when dispatch is deferred), a suppressor
   * type arms the one-shot disconnect suppression, and then the listeners run
   * now or the dispatch is queued, as the type's dispatch mode says.
   */
  function ReceiveMessage(e: Engine, r: Container, p: Payload): (e': Engine)
    requires OpenReq(r) == Some(p)
    ensures var t := p.typeName;
            && TimeoutsFor(e', t) == InvalidateFirst(TimeoutsFor(e, t))
            && (forall t' :: t' != t ==> TimeoutsFor(e', t') == TimeoutsFor(e, t'))
            && e'.supressNextTransportClosed == (e.supressNextTransportClosed || IsSuppressor(e, t))
            && (GetInboundDispatchingForMsg(e, t) == DispatchQueue ==>
                  e'.mainThreadCallbacks == e.mainThreadCallbacks + [DispatchContainer(r)]
                  && e'.trace == e.trace && e'.callbackMap == e.callbackMap
                  && e'.unhandledMessageQueue == e.unhandledMessageQueue)
            && (GetInboundDispatchingForMsg(e, t) == Immediate ==>
                  e'.mainThreadCallbacks == e.mainThreadCallbacks
                  && e' == TriggerCallbacksForMsg(InvalidateFirstTimeout(e, t).(supressNextTransportClosed :=
                                                 e'.supressNextTransportClosed), r, p))
    ensures e' == e.(timeoutCallbackMap := e'.timeoutCallbackMap, supressNextTransportClosed := e'.supressNextTransportClosed,
                     mainThreadCallbacks := e'.mainThreadCallbacks, trace := e'.trace,
                     callbackMap := e'.callbackMap, unhandledMessageQueue := e'.unhandledMessageQueue)
  {
    var t := p.typeName;
    var e1 := InvalidateFirstTimeout(e, t);
    var e2 := if IsSuppressor(e1, t) then e1.(supressNextTransportClosed := true) else e1;
    if GetInboundDispatchingForMsg(e2, t) == Immediate then
      TriggerCallbacksForMsg(e2, r, p)
    else
      e2.(mainThreadCallbacks := e2.mainThreadCallbacks + [DispatchContainer(r)])
  }

  /**
   * The transport delivered root message r (already deserialised): it is
   * unwrapped, and an empty one is dropped without any state change.
   */
  function OnTransportData(e: Engine, r: Container): (e': Engine)
    ensures IsEmpty(r) ==> e' == e
    ensures !IsEmpty(r) ==> e' == ReceiveMessage(e, r, OpenReq(r).value)
    ensures e'.mainThreadCallbacks == e.mainThreadCallbacks
            || e'.mainThreadCallbacks == e.mainThreadCallbacks + [DispatchContainer(r)]
    ensures e'.permanentObserverMap == e.permanentObserverMap
  {
    match OpenReq(r)
    case None => e
    case Some(p) => ReceiveMessage(e, r, p)
  }

  /** Feeds the given root messages through the receive path, in order. */
  function Replay(e: Engine, msgs: seq<Container>): (e': Engine)
    ensures e'.permanentObserverMap == e.permanentObserverMap
    decreases |msgs|
  {
    if msgs == [] then e else Replay(OnTransportData(e, msgs[0]), msgs[1..])
  }

  /** Takes t's retained messages out of the queue and replays them in arrival order. */
  function TreatQueuedMessagesForType(e: Engine, t: TypeKey): (e': Engine)
    ensures e'.permanentObserverMap == e.permanentObserverMap
  {
    Replay(e.(unhandledMessageQueue := e.unhandledMessageQueue[t := []]), Queued(e, t))
  }

  /**
   * Upserts the permanent callback (k, cb) for type t, then replays the
   * messages retained for t.
   */
  function RegisterPermanentCallback(e: Engine, t: TypeKey, k: ObserverKey, cb: CallbackId): (e': Engine)
    ensures Permanents(e', t) == Insert(Permanents(e, t), k, cb)
    ensures forall t' :: t' != t ==> Permanents(e', t') == Permanents(e, t')
  {
    var e1 := e.(permanentObserverMap := e.permanentObserverMap[t := Insert(Permanents(e, t), k, cb)]);
    TreatQueuedMessagesForType(e1, t)
  }

  /**
   * Timer expiry for the entry `id` of type t. If the entry is still valid, the
   * oldest consumable callback of t is dropped and the timeout callback runs (now
   * or through the dispatch queue, per t's mode); whether valid or not, the
   * entry leaves t's list.
   */
  function FireTimeout(e: Engine, t: TypeKey, id: nat): (e': Engine)
    requires EntryWithId(TimeoutsFor(e, t), id).Some?
    ensures var entry := EntryWithId(TimeoutsFor(e, t), id).value;
            && e'.timeoutCallbackMap == e.timeoutCallbackMap[t := RemoveId(TimeoutsFor(e, t), id)]
            && (!entry.valid ==> e' == e.(timeoutCallbackMap := e'.timeoutCallbackMap))
            && (entry.valid ==>
                  (Consumables(e, t) != [] ==> Consumables(e', t) == Consumables(e, t)[1..])
                  && (Consumables(e, t) == [] ==> Consumables(e', t) == [])
                  && (GetInboundDispatchingForMsg(e, t) == Immediate ==>
                        e'.trace == e.trace + [Call(entry.callback, NoArg)]
                        && e'.mainThreadCallbacks == e.mainThreadCallbacks)
                  && (GetInboundDispatchingForMsg(e, t) == DispatchQueue ==>
                        e'.trace == e.trace
                        && e'.mainThreadCallbacks == e.mainThreadCallbacks + [Invoke(Call(entry.callback, NoArg))]))
    ensures forall t' :: t' != t ==> Consumables(e', t') == Consumables(e, t')
    ensures forall x :: x in TimeoutsFor(e', t) ==> x.id != id
    ensures e' == e.(timeoutCallbackMap := e'.timeoutCallbackMap, callbackMap := e'.callbackMap,
                     mainThreadCallbacks := e'.mainThreadCallbacks, trace := e'.trace)
  {
    var l := TimeoutsFor(e, t);
    var entry := EntryWithId(l, id).value;
    var remaining := RemoveId(l, id);
    var e0 := e.(timeoutCallbackMap := e.timeoutCallbackMap[t := remaining]);
    if !entry.valid then e0
    else
      var q := Consumables(e, t);
      var e1 := e0.(callbackMap := if q != [] then e.callbackMap[t := q[1..]] else e.callbackMap);
      if GetInboundDispatchingForMsg(e1, t) == DispatchQueue then
        e1.(mainThreadCallbacks := e1.mainThreadCallbacks + [Invoke(Call(entry.callback, NoArg))])
      else
        e1.(trace := e1.trace + [Call(entry.callback, NoArg)])
  }

  // ---------------------------------------------------------------- dispatch queue

  /** Appends a closure to the dispatch queue; nothing runs until the queue is pumped. */
  function CallOnMainThread(e: Engine, d: Deferred): (r: Engine)
    ensures r.mainThreadCallbacks == e.mainThreadCallbacks + [d]
    ensures r == e.(mainThreadCallbacks := r.mainThreadCallbacks)
  {
    e.(mainThreadCallbacks := e.mainThreadCallbacks + [d])
  }

  /** Runs one queued closure; a queued message is unwrapped and its listeners looked up now. */
  function RunDeferred(e: Engine, d: Deferred): (e': Engine)
    ensures d.Invoke? ==> e' == e.(trace := e.trace + [d.call])
    ensures d.DispatchContainer? && IsEmpty(d.container) ==> e' == e
    ensures d.DispatchContainer? && !IsEmpty(d.container) ==>
              e' == TriggerCallbacksForMsg(e, d.container, OpenReq(d.container).value)
    ensures e'.mainThreadCallbacks == e.mainThreadCallbacks
    ensures e'.permanentObserverMap == e.permanentObserverMap
  {
    match d
    case Invoke(c) => e.(trace := e.trace + [c])
    case DispatchContainer(r) =>
      match OpenReq(r)
      case None => e
      case Some(p) => TriggerCallbacksForMsg(e, r, p)
  }

  /** Runs a snapshot of closures in order. */
  function RunAll(e: Engine, ds: seq<Deferred>): (e': Engine)
    ensures e'.mainThreadCallbacks == e.mainThreadCallbacks
    decreases |ds|
  {
    if ds == [] then e else RunAll(RunDeferred(e, ds[0]), ds[1..])
  }

  /** The pump: snapshot the queue, clear it, then run the snapshot in enqueue order. */
  function DispatchQueuedCallbacks(e: Engine): (e': Engine)
    ensures e'.mainThreadCallbacks == []
  {
    RunAll(e.(mainThreadCallbacks := []), e.mainThreadCallbacks)
  }

  // ---------------------------------------------------------------- transport lifecycle

  /** Connecting the transport disarms the disconnect suppression. */
  function ConnectTransport(e: Engine): (e': Engine)
    ensures !e'.supressNextTransportClosed
    ensures e' == e.(supressNextTransportClosed := e'.supressNextTransportClosed)
  {
    e.(supressNextTransportClosed := false)
  }

  /** The transport reports a connection: every connect observer runs, in registry order. */
  function OnTransportConnect(e: Engine): (e': Engine)
    ensures e.inboundDispatchTransportOpenSetting == Immediate ==>
              e' == e.(trace := e.trace + Calls(Values(e.transportOpenedObserverMap), NoArg))
    ensures e.inboundDispatchTransportOpenSetting == DispatchQueue ==>
              e' == e.(mainThreadCallbacks := e.mainThreadCallbacks + Invokes(Values(e.transportOpenedObserverMap), NoArg))
    ensures e'.supressNextTransportClosed == e.supressNextTransportClosed
  {
    var list := Values(e.transportOpenedObserverMap);
    if e.inboundDispatchTransportOpenSetting == DispatchQueue then
      e.(mainThreadCallbacks := e.mainThreadCallbacks + Invokes(list, NoArg))
    else
      e.(trace := e.trace + Calls(list, NoArg))
  }

  /**
   * The transport reports a disconnect. An armed suppression swallows it and is
   * consumed; otherwise every disconnect observer runs with the reason, in
   * registry order.
   */
  function OnTransportDisconnect(e: Engine, err: string): (e': Engine)
    ensures e.supressNextTransportClosed ==> e' == e.(supressNextTransportClosed := false)
    ensures !e.supressNextTransportClosed && e.inboundDispatchTransportErrorSetting == Immediate ==>
              e' == e.(trace := e.trace + Calls(Values(e.transportClosedObserverMap), Reason(err)))
    ensures !e.supressNextTransportClosed && e.inboundDispatchTransportErrorSetting == DispatchQueue ==>
              e' == e.(mainThreadCallbacks := e.mainThreadCallbacks + Invokes(Values(e.transportClosedObserverMap), Reason(err)))
    ensures !e'.supressNextTransportClosed
  {
    if e.supressNextTransportClosed then
      e.(supressNextTransportClosed := false)
    else
      var list := Values(e.transportClosedObserverMap);
      if e.inboundDispatchTransportErrorSetting == DispatchQueue then
        e.(mainThreadCallbacks := e.mainThreadCallbacks + Invokes(list, Reason(err)))
      else
        e.(trace := e.trace + Calls(list, Reason(err)))
  }
}
