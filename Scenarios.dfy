/**
 * Multi-step behaviour of the engine: request/response with a timeout, the
 * one-shot disconnect suppression, deferred dispatch, and the replay of
 * retained messages when a listener appears.
 */
module Scenarios {
  import opened Wrappers
  import opened CrierTypes
  import opened CallbackMaps
  import opened Envelope
  import opened Timeouts
  import opened Dispatch
  import opened DispatchProperties

  /** A type nobody listens to and nobody waits for, dispatched immediately. */
  predicate Quiet(e: Engine, t: TypeKey)
  {
    Permanents(e, t) == [] && Consumables(e, t) == [] && TimeoutsFor(e, t) == []
    && GetInboundDispatchingForMsg(e, t) == Immediate
  }

  // ---------------------------------------------------------------- single receives

  /** A received message of a type with only consumable callbacks goes to the oldest one, which is used up. */
  lemma ReceiveHeardByConsumable(e: Engine, r: Container, p: Payload)
    requires OpenReq(r) == Some(p)
    requires Permanents(e, p.typeName) == [] && Consumables(e, p.typeName) != []
    requires GetInboundDispatchingForMsg(e, p.typeName) == Immediate
    ensures var e' := OnTransportData(e, r); var t := p.typeName;
            && e'.trace == e.trace + [Call(Consumables(e, t)[0], Message(p))]
            && Consumables(e', t) == Consumables(e, t)[1..]
            && TimeoutsFor(e', t) == InvalidateFirst(TimeoutsFor(e, t))
            && e'.unhandledMessageQueue == e.unhandledMessageQueue
  {
    var t := p.typeName;
    var e' := OnTransportData(e, r);
    var e2 := InvalidateFirstTimeout(e, t).(supressNextTransportClosed := e'.supressNextTransportClosed);
    TriggerTrace(e2, r, p);
  }

  /** A received message of a type with permanent callbacks and no consumable ones reaches every permanent callback. */
  lemma ReceiveHeardByPermanents(e: Engine, r: Container, p: Payload)
    requires OpenReq(r) == Some(p)
    requires Permanents(e, p.typeName) != [] && Consumables(e, p.typeName) == []
    requires GetInboundDispatchingForMsg(e, p.typeName) == Immediate
    ensures var e' := OnTransportData(e, r); var t := p.typeName;
            && e'.trace == e.trace + Calls(Values(Permanents(e, t)), Message(p))
            && Permanents(e', t) == Permanents(e, t) && Consumables(e', t) == []
            && GetInboundDispatchingForMsg(e', t) == Immediate
            && e'.unhandledMessageQueue == e.unhandledMessageQueue
  {
    var t := p.typeName;
    var e' := OnTransportData(e, r);
    var e2 := InvalidateFirstTimeout(e, t).(supressNextTransportClosed := e'.supressNextTransportClosed);
    TriggerTrace(e2, r, p);
  }

  /** A received message nobody listens to invokes nothing; its type's policy decides whether it is retained. */
  lemma ReceiveUnheard(e: Engine, r: Container, p: Payload)
    requires OpenReq(r) == Some(p)
    requires Permanents(e, p.typeName) == [] && Consumables(e, p.typeName) == []
    requires GetInboundDispatchingForMsg(e, p.typeName) == Immediate
    ensures var e' := OnTransportData(e, r); var t := p.typeName;
            && e'.trace == e.trace
            && Queued(e', t) == Queued(e, t) + (if UnhandledBehaviourFor(e, t) == Enqueue then [r] else [])
  {
    var t := p.typeName;
    var e' := OnTransportData(e, r);
    var e2 := InvalidateFirstTimeout(e, t).(supressNextTransportClosed := e'.supressNextTransportClosed);
    TriggerUnhandledOnlyWhenUnheard(e2, r, p);
  }

  // ---------------------------------------------------------------- request / response / timeout

  /**
   * A request whose payload type can be bundled, echoed back by the peer: the
   * packed root message unwraps to the payload, and the response callback
   * queued with the request receives it, once.
   */
  lemma EchoReachesResponseCallback(e: Engine, s: Schema, data: Payload, fileExtensions: seq<ExtensionDescriptor>,
                                    onSuccess: CallbackId)
    requires CanBundle(s, data.typeName, fileExtensions)
    requires Permanents(e, data.typeName) == [] && Consumables(e, data.typeName) == []
    requires GetInboundDispatchingForMsg(e, data.typeName) == Immediate
    ensures var wire := PackageIntoReq(NewContainer(s), data, fileExtensions);
            var e' := OnTransportData(PushConsumable(e, data.typeName, onSuccess), wire);
            e'.trace == e.trace + [Call(onSuccess, Message(data))] && Consumables(e', data.typeName) == []
  {
    var wire := PackageIntoReq(NewContainer(s), data, fileExtensions);
    PackThenOpen(s, data, fileExtensions);
    var e1 := PushConsumable(e, data.typeName, onSuccess);
    assert Consumables(e1, data.typeName) == [onSuccess];
    ReceiveHeardByConsumable(e1, wire, data);
  }

  /**
   * A request with a response callback and a timeout (the timeout is scheduled
   * first, then the callback queued), whose response arrives before the timer:
   * the response callback runs once with the payload, and when the timer later
   * fires it finds its entry invalidated and runs nothing. Nothing is left
   * waiting for t.
   */
  lemma ResponseBeforeTimeout(e: Engine, t: TypeKey, onSuccess: CallbackId, onTimeout: CallbackId, r: Container, p: Payload)
    requires Quiet(e, t) && OpenReq(r) == Some(p) && p.typeName == t
    ensures var id := e.timeoutIds;
            var e2 := PushConsumable(ScheduleTimeout(e, t, onTimeout), t, onSuccess);
            var e3 := OnTransportData(e2, r);
            && EntryWithId(TimeoutsFor(e3, t), id) == Some(TimeoutData(id, false, onTimeout))
            && var e4 := FireTimeout(e3, t, id);
               && e4.trace == e.trace + [Call(onSuccess, Message(p))]
               && Consumables(e4, t) == [] && TimeoutsFor(e4, t) == []
               && e4.unhandledMessageQueue == e.unhandledMessageQueue
  {
    var e2 := PushConsumable(ScheduleTimeout(e, t, onTimeout), t, onSuccess);
    OneRequestPending(e, t, onSuccess, onTimeout);
    ResponseThenStaleTimer(e2, t, onSuccess, e.timeoutIds, onTimeout, r, p);
  }

  /**
   * The same request whose timer fires first: the timeout callback runs once,
   * the queued response callback is dropped, and the late response reaches no
   * callback (the unhandled policy decides whether it is retained).
   */
  lemma TimeoutBeforeResponse(e: Engine, t: TypeKey, onSuccess: CallbackId, onTimeout: CallbackId, r: Container, p: Payload)
    requires Quiet(e, t) && OpenReq(r) == Some(p) && p.typeName == t
    ensures var id := e.timeoutIds;
            var e2 := PushConsumable(ScheduleTimeout(e, t, onTimeout), t, onSuccess);
            && EntryWithId(TimeoutsFor(e2, t), id) == Some(TimeoutData(id, true, onTimeout))
            && var e3 := FireTimeout(e2, t, id);
               && e3.trace == e.trace + [Call(onTimeout, NoArg)]
               && Consumables(e3, t) == [] && TimeoutsFor(e3, t) == []
               && var e4 := OnTransportData(e3, r);
                  && e4.trace == e3.trace
                  && Queued(e4, t) == Queued(e, t) + (if UnhandledBehaviourFor(e, t) == Enqueue then [r] else [])
  {
    var e2 := PushConsumable(ScheduleTimeout(e, t, onTimeout), t, onSuccess);
    OneRequestPending(e, t, onSuccess, onTimeout);
    TimerThenLateResponse(e2, t, onSuccess, e.timeoutIds, onTimeout, r, p);
  }

  /** One request with a response callback and a timeout, on a quiet type. */
  lemma OneRequestPending(e: Engine, t: TypeKey, onSuccess: CallbackId, onTimeout: CallbackId)
    requires Quiet(e, t)
    ensures var e2 := PushConsumable(ScheduleTimeout(e, t, onTimeout), t, onSuccess);
            && TimeoutsFor(e2, t) == [TimeoutData(e.timeoutIds, true, onTimeout)]
            && Consumables(e2, t) == [onSuccess]
            && Permanents(e2, t) == [] && GetInboundDispatchingForMsg(e2, t) == Immediate
            && e2.trace == e.trace && Queued(e2, t) == Queued(e, t)
            && UnhandledBehaviourFor(e2, t) == UnhandledBehaviourFor(e, t)
  {
  }

  /**
   * One pending request with one pending timeout whose timer fires first: the
   * timeout callback runs and the response callback is dropped; the late
   * response then reaches no callback.
   */
  lemma TimerThenLateResponse(e: Engine, t: TypeKey, cb: CallbackId, id: nat, onTimeout: CallbackId, r: Container, p: Payload)
    requires OpenReq(r) == Some(p) && p.typeName == t
    requires TimeoutsFor(e, t) == [TimeoutData(id, true, onTimeout)] && Consumables(e, t) == [cb]
    requires Permanents(e, t) == [] && GetInboundDispatchingForMsg(e, t) == Immediate
    ensures EntryWithId(TimeoutsFor(e, t), id) == Some(TimeoutData(id, true, onTimeout))
    ensures var e1 := FireTimeout(e, t, id);
            && e1.trace == e.trace + [Call(onTimeout, NoArg)]
            && Consumables(e1, t) == [] && TimeoutsFor(e1, t) == []
            && var e2 := OnTransportData(e1, r);
               && e2.trace == e1.trace
               && Queued(e2, t) == Queued(e, t) + (if UnhandledBehaviourFor(e, t) == Enqueue then [r] else [])
  {
    var e1 := FireTimeout(e, t, id);
    assert TimeoutsFor(e1, t) == RemoveId([TimeoutData(id, true, onTimeout)], id);
    assert Consumables(e1, t) == [] && Permanents(e1, t) == [];
    assert GetInboundDispatchingForMsg(e1, t) == Immediate;
    assert Queued(e1, t) == Queued(e, t) && UnhandledBehaviourFor(e1, t) == UnhandledBehaviourFor(e, t);
    ReceiveUnheard(e1, r, p);
  }

  /**
   * The limitation of matching responses by type alone: two requests for the
   * same response type, the second with the shorter timeout. When its timer
   * fires it drops the OLDEST response callback (the first request's) and runs
   * the second timeout callback; the first request's response then goes to the
   * second request's callback, and the first timer finds its entry invalidated.
   * The first response callback and the first timeout callback never run.
   */
  lemma ShorterSecondTimeoutMisroutesResponse(e: Engine, t: TypeKey, cb1: CallbackId, to1: CallbackId,
                                              cb2: CallbackId, to2: CallbackId, r: Container, p: Payload)
    requires Quiet(e, t) && OpenReq(r) == Some(p) && p.typeName == t
    ensures var id1 := e.timeoutIds; var id2 := e.timeoutIds + 1;
            var e2 := PushConsumable(ScheduleTimeout(e, t, to1), t, cb1);
            var e4 := PushConsumable(ScheduleTimeout(e2, t, to2), t, cb2);
            && EntryWithId(TimeoutsFor(e4, t), id2).Some?
            && var e5 := FireTimeout(e4, t, id2);
               var e6 := OnTransportData(e5, r);
               && EntryWithId(TimeoutsFor(e6, t), id1).Some?
               && var e7 := FireTimeout(e6, t, id1);
                  && e7.trace == e.trace + [Call(to2, NoArg), Call(cb2, Message(p))]
                  && Consumables(e7, t) == [] && TimeoutsFor(e7, t) == []
  {
    var id1 := e.timeoutIds;
    var id2 := e.timeoutIds + 1;
    var e4 := PushConsumable(ScheduleTimeout(PushConsumable(ScheduleTimeout(e, t, to1), t, cb1), t, to2), t, cb2);
    TwoRequestsPending(e, t, cb1, to1, cb2, to2);
    SecondTimerFiresFirst(e4, t, cb1, id1, to1, cb2, id2, to2);
    var e5 := FireTimeout(e4, t, id2);
    ResponseThenStaleTimer(e5, t, cb2, id1, to1, r, p);
    AppendAssociative(e4.trace, [Call(to2, NoArg)], [Call(cb2, Message(p))]);
  }

  /**
   * Two pending requests, each with a valid timeout: the second timer, firing
   * first, runs its timeout callback but drops the OLDEST response callback.
   */
  lemma SecondTimerFiresFirst(e: Engine, t: TypeKey, cb1: CallbackId, id1: nat, to1: CallbackId,
                              cb2: CallbackId, id2: nat, to2: CallbackId)
    requires id1 < id2
    requires TimeoutsFor(e, t) == [TimeoutData(id1, true, to1), TimeoutData(id2, true, to2)]
    requires Consumables(e, t) == [cb1, cb2]
    requires Permanents(e, t) == [] && GetInboundDispatchingForMsg(e, t) == Immediate
    ensures EntryWithId(TimeoutsFor(e, t), id2) == Some(TimeoutData(id2, true, to2))
    ensures var e' := FireTimeout(e, t, id2);
            && e'.trace == e.trace + [Call(to2, NoArg)]
            && Consumables(e', t) == [cb2]
            && TimeoutsFor(e', t) == [TimeoutData(id1, true, to1)]
            && Permanents(e', t) == [] && GetInboundDispatchingForMsg(e', t) == Immediate
  {
    var l := TimeoutsFor(e, t);
    assert EntryWithId(l[1..], id2) == Some(TimeoutData(id2, true, to2));
    assert RemoveId(l[1..], id2) == [];
    assert RemoveId(l, id2) == [TimeoutData(id1, true, to1)];
  }

  /**
   * One pending request with one pending timeout: the response reaches the
   * response callback and invalidates the timeout, whose timer then runs nothing.
   */
  lemma ResponseThenStaleTimer(e: Engine, t: TypeKey, cb: CallbackId, id: nat, onTimeout: CallbackId, r: Container, p: Payload)
    requires OpenReq(r) == Some(p) && p.typeName == t
    requires TimeoutsFor(e, t) == [TimeoutData(id, true, onTimeout)] && Consumables(e, t) == [cb]
    requires Permanents(e, t) == [] && GetInboundDispatchingForMsg(e, t) == Immediate
    ensures var e1 := OnTransportData(e, r);
            && EntryWithId(TimeoutsFor(e1, t), id) == Some(TimeoutData(id, false, onTimeout))
            && var e2 := FireTimeout(e1, t, id);
               && e2.trace == e.trace + [Call(cb, Message(p))]
               && Consumables(e2, t) == [] && TimeoutsFor(e2, t) == []
               && e2.unhandledMessageQueue == e.unhandledMessageQueue
  {
    ReceiveHeardByConsumable(e, r, p);
    var e1 := OnTransportData(e, r);
    assert TimeoutsFor(e1, t) == [TimeoutData(id, false, onTimeout)];
    var e2 := FireTimeout(e1, t, id);
    assert TimeoutsFor(e2, t) == RemoveId([TimeoutData(id, false, onTimeout)], id);
  }

  /** Two requests for the same response type, each with a timeout, on a quiet type. */
  lemma TwoRequestsPending(e: Engine, t: TypeKey, cb1: CallbackId, to1: CallbackId, cb2: CallbackId, to2: CallbackId)
    requires Quiet(e, t)
    ensures var e4 := PushConsumable(ScheduleTimeout(PushConsumable(ScheduleTimeout(e, t, to1), t, cb1), t, to2), t, cb2);
            && TimeoutsFor(e4, t) == [TimeoutData(e.timeoutIds, true, to1), TimeoutData(e.timeoutIds + 1, true, to2)]
            && Consumables(e4, t) == [cb1, cb2]
            && Permanents(e4, t) == [] && GetInboundDispatchingForMsg(e4, t) == Immediate
            && e4.trace == e.trace
  {
  }

  // ---------------------------------------------------------------- disconnect suppression

  /**
   * After a message of a suppressor type, the next disconnect reaches no
   * observer, and the one after it reaches every disconnect observer with its
   * reason: the suppression is one-shot.
   */
  lemma SuppressionIsOneShot(e: Engine, r: Container, p: Payload, err1: string, err2: string)
    requires OpenReq(r) == Some(p) && IsSuppressor(e, p.typeName)
    requires e.inboundDispatchTransportErrorSetting == Immediate
    ensures var e1 := OnTransportData(e, r);
            var e2 := OnTransportDisconnect(e1, err1);
            var e3 := OnTransportDisconnect(e2, err2);
            && e1.supressNextTransportClosed
            && e2.trace == e1.trace && e2.mainThreadCallbacks == e1.mainThreadCallbacks
            && e3.trace == e2.trace + Calls(Values(e.transportClosedObserverMap), Reason(err2))
  {
  }

  /** Connecting disarms a pending suppression, so the next disconnect is reported. */
  lemma ConnectDisarmsSuppression(e: Engine, err: string)
    requires e.supressNextTransportClosed && e.inboundDispatchTransportErrorSetting == Immediate
    ensures OnTransportDisconnect(ConnectTransport(e), err).trace
              == e.trace + Calls(Values(e.transportClosedObserverMap), Reason(err))
  {
  }

  /**
   * An observer registered on a fresh engine: connecting reaches the connect
   * observer once, and a later disconnect reaches the disconnect observer once,
   * with the reason.
   */
  lemma ObserversSeeConnectAndDisconnect(b: UnhandledMessageBehaviour,
                                         k: ObserverKey, onOpen: CallbackId, onClose: CallbackId, err: string)
    ensures var e0 := Initial(b, Immediate);
            var e1 := RegisterForTransportClosedCallback(RegisterForTransportOpenedCallback(e0, k, onOpen), k, onClose);
            var e2 := OnTransportConnect(ConnectTransport(e1));
            var e3 := OnTransportDisconnect(e2, err);
            && e2.trace == [Call(onOpen, NoArg)]
            && e3.trace == [Call(onOpen, NoArg), Call(onClose, Reason(err))]
  {
    var e0 := Initial(b, Immediate);
    var e1 := RegisterForTransportClosedCallback(RegisterForTransportOpenedCallback(e0, k, onOpen), k, onClose);
    EmptyAndSingletonSorted(k, onOpen);
    EmptyAndSingletonSorted(k, onClose);
    assert Values([Entry(k, onOpen)]) == [onOpen];
    assert Values([Entry(k, onClose)]) == [onClose];
    assert e1.transportOpenedObserverMap == [Entry(k, onOpen)];
    assert e1.transportClosedObserverMap == [Entry(k, onClose)];
  }

  // ---------------------------------------------------------------- deferred dispatch

  /**
   * A message of a DispatchQueue type invokes nothing on arrival; its listeners
   * are looked up when the queue is pumped, so a callback registered in between
   * receives it, exactly once.
   */
  lemma DeferredDispatchLooksUpAtPump(e: Engine, r: Container, p: Payload, cb: CallbackId)
    requires OpenReq(r) == Some(p)
    requires GetInboundDispatchingForMsg(e, p.typeName) == DispatchQueue
    requires Permanents(e, p.typeName) == [] && Consumables(e, p.typeName) == [] && e.mainThreadCallbacks == []
    ensures var e1 := OnTransportData(e, r);
            var e3 := DispatchQueuedCallbacks(PushConsumable(e1, p.typeName, cb));
            && e1.trace == e.trace && e1.callbackMap == e.callbackMap
            && e1.mainThreadCallbacks == [DispatchContainer(r)]
            && e3.trace == e.trace + [Call(cb, Message(p))]
            && Consumables(e3, p.typeName) == [] && e3.mainThreadCallbacks == []
  {
    var t := p.typeName;
    var e1 := OnTransportData(e, r);
    var e2 := PushConsumable(e1, t, cb);
    assert Consumables(e2, t) == [cb];
    assert e2.mainThreadCallbacks == [DispatchContainer(r)];
    var e2' := e2.(mainThreadCallbacks := []);
    var e3' := RunDeferred(e2', DispatchContainer(r));
    assert DispatchQueuedCallbacks(e2) == RunAll(e2', [DispatchContainer(r)]) == RunAll(e3', []);
    TriggerTrace(e2', r, p);
  }

  /** Running a run of deferred invocations appends exactly those calls, in order. */
  lemma {:induction false} RunInvokes(e: Engine, cbs: seq<CallbackId>, arg: CallArg)
    ensures RunAll(e, Invokes(cbs, arg)).trace == e.trace + Calls(cbs, arg)
    decreases |cbs|
  {
    var ds := Invokes(cbs, arg);
    if cbs != [] {
      var c := Call(cbs[0], arg);
      var e1 := e.(trace := e.trace + [c]);
      assert ds[0] == Invoke(c);
      assert RunDeferred(e, ds[0]) == e1;
      assert RunAll(e, ds) == RunAll(e1, ds[1..]);
      assert ds[1..] == Invokes(cbs[1..], arg);
      RunInvokes(e1, cbs[1..], arg);
      assert Calls(cbs, arg) == [c] + Calls(cbs[1..], arg);
      AppendAssociative(e.trace, [c], Calls(cbs[1..], arg));
    }
  }

  /**
   * Queued connect observers, once pumped, make exactly the calls immediate
   * dispatch would have made on the event.
   */
  lemma QueuedConnectObserversMatchImmediate(e: Engine)
    requires e.mainThreadCallbacks == [] && e.inboundDispatchTransportOpenSetting == DispatchQueue
    ensures DispatchQueuedCallbacks(OnTransportConnect(e)).trace
              == OnTransportConnect(e.(inboundDispatchTransportOpenSetting := Immediate)).trace
  {
    var cbs := Values(e.transportOpenedObserverMap);
    var e0 := OnTransportConnect(e);
    assert e0 == e.(mainThreadCallbacks := Invokes(cbs, NoArg));
    var e1 := e0.(mainThreadCallbacks := []);
    assert DispatchQueuedCallbacks(e0) == RunAll(e1, Invokes(cbs, NoArg));
    RunInvokes(e1, cbs, NoArg);
  }

  /**
   * Queued disconnect observers, once pumped, make exactly the calls immediate
   * dispatch would have made on the event, with the same reason.
   */
  lemma QueuedDisconnectObserversMatchImmediate(e: Engine, err: string)
    requires e.mainThreadCallbacks == [] && !e.supressNextTransportClosed
    requires e.inboundDispatchTransportErrorSetting == DispatchQueue
    ensures DispatchQueuedCallbacks(OnTransportDisconnect(e, err)).trace
              == OnTransportDisconnect(e.(inboundDispatchTransportErrorSetting := Immediate), err).trace
  {
    var cbs := Values(e.transportClosedObserverMap);
    var e0 := OnTransportDisconnect(e, err);
    assert e0 == e.(mainThreadCallbacks := Invokes(cbs, Reason(err)));
    var e1 := e0.(mainThreadCallbacks := []);
    assert DispatchQueuedCallbacks(e0) == RunAll(e1, Invokes(cbs, Reason(err)));
    RunInvokes(e1, cbs, Reason(err));
  }

  /** Every operation other than the pump only appends to the dispatch queue. */
  lemma {:induction false} ReplayOnlyAppendsToQueue(e: Engine, msgs: seq<Container>)
    ensures e.mainThreadCallbacks <= Replay(e, msgs).mainThreadCallbacks
    decreases |msgs|
  {
    if msgs != [] {
      ReceiveOnlyAppendsToQueue(e, msgs[0]);
      ReplayOnlyAppendsToQueue(OnTransportData(e, msgs[0]), msgs[1..]);
    }
  }

  lemma ReceiveOnlyAppendsToQueue(e: Engine, r: Container)
    ensures e.mainThreadCallbacks <= OnTransportData(e, r).mainThreadCallbacks
  {
  }

  lemma TransportEventsOnlyAppendToQueue(e: Engine, err: string)
    ensures e.mainThreadCallbacks <= OnTransportConnect(e).mainThreadCallbacks
    ensures e.mainThreadCallbacks <= OnTransportDisconnect(e, err).mainThreadCallbacks
  {
    var q := e.mainThreadCallbacks;
    if e.inboundDispatchTransportOpenSetting == DispatchQueue {
      PrefixOfAppend(q, Invokes(Values(e.transportOpenedObserverMap), NoArg));
    }
    if !e.supressNextTransportClosed && e.inboundDispatchTransportErrorSetting == DispatchQueue {
      PrefixOfAppend(q, Invokes(Values(e.transportClosedObserverMap), Reason(err)));
    }
  }

  lemma PrefixOfAppend(a: seq<Deferred>, b: seq<Deferred>)
    ensures a <= a + b
  {
    assert (a + b)[..|a|] == a;
  }

  lemma RegisterOnlyAppendsToQueue(e: Engine, t: TypeKey, k: ObserverKey, cb: CallbackId)
    ensures e.mainThreadCallbacks <= RegisterPermanentCallback(e, t, k, cb).mainThreadCallbacks
  {
    var e1 := e.(permanentObserverMap := e.permanentObserverMap[t := Insert(Permanents(e, t), k, cb)]);
    var e2 := e1.(unhandledMessageQueue := e1.unhandledMessageQueue[t := []]);
    assert RegisterPermanentCallback(e, t, k, cb) == Replay(e2, Queued(e1, t));
    ReplayOnlyAppendsToQueue(e2, Queued(e1, t));
  }

  // ---------------------------------------------------------------- retained messages

  lemma AppendAssociative<T>(a: seq<T>, b: seq<T>, c: seq<T>)
    ensures (a + b) + c == a + (b + c)
  {
  }

  /** The calls made when each message, in order, reaches the same listeners. */
  function Deliveries(cbs: seq<CallbackId>, msgs: seq<Container>): seq<Call>
    requires forall m :: m in msgs ==> OpenReq(m).Some?
  {
    if msgs == [] then [] else Calls(cbs, Message(OpenReq(msgs[0]).value)) + Deliveries(cbs, msgs[1..])
  }

  /**
   * Replaying messages of type t to a type with permanent callbacks, no
   * consumable ones and immediate dispatch: each message reaches every
   * permanent callback, in message order, and nothing is retained.
   */
  lemma {:induction false} ReplayToPermanents(e: Engine, msgs: seq<Container>, t: TypeKey)
    requires forall m :: m in msgs ==> OpenReq(m).Some? && OpenReq(m).value.typeName == t
    requires Permanents(e, t) != [] && Consumables(e, t) == [] && GetInboundDispatchingForMsg(e, t) == Immediate
    ensures Replay(e, msgs).trace == e.trace + Deliveries(Values(Permanents(e, t)), msgs)
    ensures Replay(e, msgs).unhandledMessageQueue == e.unhandledMessageQueue
    decreases |msgs|
  {
    if msgs != [] {
      var m := msgs[0];
      var p := OpenReq(m).value;
      var e1 := OnTransportData(e, m);
      var cbs := Values(Permanents(e, t));
      assert m in msgs;
      ReceiveHeardByPermanents(e, m, p);
      assert forall x :: x in msgs[1..] ==> x in msgs;
      ReplayToPermanents(e1, msgs[1..], t);
      var c := Calls(cbs, Message(p));
      var d := Deliveries(cbs, msgs[1..]);
      assert Replay(e, msgs) == Replay(e1, msgs[1..]);
      assert Deliveries(cbs, msgs) == c + d;
      AppendAssociative(e.trace, c, d);
    }
  }

  /**
   * Registering the first listener of a type with retained messages delivers
   * every one of them to it, in arrival order, and empties the type's queue.
   */
  lemma RegisterReplaysRetained(e: Engine, t: TypeKey, k: ObserverKey, cb: CallbackId)
    requires Valid(e)
    requires Permanents(e, t) == [] && Consumables(e, t) == [] && GetInboundDispatchingForMsg(e, t) == Immediate
    ensures forall m :: m in Queued(e, t) ==> OpenReq(m).Some?
    ensures var e' := RegisterPermanentCallback(e, t, k, cb);
            e'.trace == e.trace + Deliveries([cb], Queued(e, t)) && Queued(e', t) == []
  {
    var e1 := e.(permanentObserverMap := e.permanentObserverMap[t := Insert(Permanents(e, t), k, cb)]);
    assert Permanents(e1, t) == [Entry(k, cb)];
    var e2 := e1.(unhandledMessageQueue := e1.unhandledMessageQueue[t := []]);
    assert RegisterPermanentCallback(e, t, k, cb) == Replay(e2, Queued(e, t));
    assert Values(Permanents(e2, t)) == [cb];
    ReplayToPermanents(e2, Queued(e, t), t);
  }

  /** The deferred dispatch of each message, in order. */
  function Dispatches(msgs: seq<Container>): (ds: seq<Deferred>)
    ensures |ds| == |msgs|
    ensures forall i :: 0 <= i < |msgs| ==> ds[i] == DispatchContainer(msgs[i])
  {
    seq(|msgs|, i requires 0 <= i < |msgs| => DispatchContainer(msgs[i]))
  }

  /**
   * Replaying messages of type t whose dispatch is deferred: nothing runs, no
   * response callback is used up, nothing is retained, and each message is
   * queued for the pump once, in order.
   */
  lemma {:induction false} ReplayQueued(e: Engine, msgs: seq<Container>, t: TypeKey)
    requires forall m :: m in msgs ==> OpensAs(m, t)
    requires GetInboundDispatchingForMsg(e, t) == DispatchQueue
    ensures var e' := Replay(e, msgs);
            && e'.trace == e.trace && e'.callbackMap == e.callbackMap
            && e'.unhandledMessageQueue == e.unhandledMessageQueue
            && e'.mainThreadCallbacks == e.mainThreadCallbacks + Dispatches(msgs)
    decreases |msgs|
  {
    if msgs == [] {
      assert Dispatches(msgs) == [];
    } else {
      var m := msgs[0];
      assert m in msgs;
      var e1 := OnTransportData(e, m);
      ReceiveQueued(e, m, t);
      assert forall x :: x in msgs[1..] ==> x in msgs;
      ReplayQueued(e1, msgs[1..], t);
      assert Replay(e, msgs) == Replay(e1, msgs[1..]);
      DispatchesCons(msgs);
      AppendAssociative(e.mainThreadCallbacks, [DispatchContainer(m)], Dispatches(msgs[1..]));
    }
  }

  lemma DispatchesCons(msgs: seq<Container>)
    requires msgs != []
    ensures Dispatches(msgs) == [DispatchContainer(msgs[0])] + Dispatches(msgs[1..])
  {
  }

  /** One deferred receive: only the dispatch queue grows, by this message's dispatch. */
  lemma ReceiveQueued(e: Engine, m: Container, t: TypeKey)
    requires OpensAs(m, t) && GetInboundDispatchingForMsg(e, t) == DispatchQueue
    ensures var e1 := OnTransportData(e, m);
            && e1.trace == e.trace && e1.callbackMap == e.callbackMap
            && e1.unhandledMessageQueue == e.unhandledMessageQueue
            && e1.mainThreadCallbacks == e.mainThreadCallbacks + [DispatchContainer(m)]
            && GetInboundDispatchingForMsg(e1, t) == DispatchQueue
  {
  }

  /**
   * Registering a listener for a type whose dispatch is deferred: the retained
   * messages leave the type's queue and each is queued for the pump once, in
   * arrival order; nothing runs yet and no response callback is used up.
   */
  lemma RegisterQueuesRetained(e: Engine, t: TypeKey, k: ObserverKey, cb: CallbackId)
    requires Valid(e)
    requires GetInboundDispatchingForMsg(e, t) == DispatchQueue
    ensures var e' := RegisterPermanentCallback(e, t, k, cb);
            && e'.trace == e.trace && e'.callbackMap == e.callbackMap && Queued(e', t) == []
            && e'.mainThreadCallbacks == e.mainThreadCallbacks + Dispatches(Queued(e, t))
  {
    var e1 := e.(permanentObserverMap := e.permanentObserverMap[t := Insert(Permanents(e, t), k, cb)]);
    var e2 := e1.(unhandledMessageQueue := e1.unhandledMessageQueue[t := []]);
    assert RegisterPermanentCallback(e, t, k, cb) == Replay(e2, Queued(e, t));
    ReplayQueued(e2, Queued(e, t), t);
  }

  /** Receiving only extends the trace. */
  lemma ReceiveExtendsTrace(e: Engine, r: Container)
    ensures e.trace <= OnTransportData(e, r).trace
  {
    match OpenReq(r)
    case None =>
    case Some(p) =>
      var t := p.typeName;
      var e' := OnTransportData(e, r);
      if GetInboundDispatchingForMsg(e, t) == Immediate {
        var e2 := InvalidateFirstTimeout(e, t).(supressNextTransportClosed := e'.supressNextTransportClosed);
        TriggerTrace(e2, r, p);
        assert e'.trace[..|e.trace|] == e.trace;
      }
  }

  /** Replaying messages only extends the trace. */
  lemma {:induction false} ReplayExtendsTrace(e: Engine, msgs: seq<Container>)
    ensures e.trace <= Replay(e, msgs).trace
    decreases |msgs|
  {
    if msgs != [] {
      ReceiveExtendsTrace(e, msgs[0]);
      ReplayExtendsTrace(OnTransportData(e, msgs[0]), msgs[1..]);
    }
  }

  /**
   * Registering a listener while a response callback is pending, with immediate
   * dispatch: the first retained message reaches the permanent callbacks, the
   * new one included, and then uses up the oldest response callback.
   */
  lemma RegisterReplayConsumesResponse(e: Engine, t: TypeKey, k: ObserverKey, cb: CallbackId)
    requires Valid(e)
    requires Queued(e, t) != [] && Consumables(e, t) != [] && GetInboundDispatchingForMsg(e, t) == Immediate
    ensures OpensAs(Queued(e, t)[0], t)
    ensures var p := OpenReq(Queued(e, t)[0]).value;
            e.trace + Calls(Values(Insert(Permanents(e, t), k, cb)), Message(p))
                    + [Call(Consumables(e, t)[0], Message(p))]
              <= RegisterPermanentCallback(e, t, k, cb).trace
  {
    var msgs := Queued(e, t);
    var m := msgs[0];
    assert m in msgs;
    var p := OpenReq(m).value;
    var e1 := e.(permanentObserverMap := e.permanentObserverMap[t := Insert(Permanents(e, t), k, cb)]);
    var e2 := e1.(unhandledMessageQueue := e1.unhandledMessageQueue[t := []]);
    assert RegisterPermanentCallback(e, t, k, cb) == Replay(e2, msgs);
    var e4 := OnTransportData(e2, m);
    assert Replay(e2, msgs) == Replay(e4, msgs[1..]);
    var e3 := InvalidateFirstTimeout(e2, t).(supressNextTransportClosed := e4.supressNextTransportClosed);
    TriggerTrace(e3, m, p);
    ReplayExtendsTrace(e4, msgs[1..]);
  }

  /** Under Ignore, a message nobody listens to leaves no trace and is not retained. */
  lemma IgnoreDropsUnheard(e: Engine, r: Container, p: Payload)
    requires OpenReq(r) == Some(p)
    requires Permanents(e, p.typeName) == [] && Consumables(e, p.typeName) == []
    requires GetInboundDispatchingForMsg(e, p.typeName) == Immediate
    ensures var e1 := SetUnhandledBehaviourForMsg(e, p.typeName, Ignore);
            var e2 := OnTransportData(e1, r);
            e2.trace == e.trace && Queued(e2, p.typeName) == []
  {
    var t := p.typeName;
    var e1 := SetUnhandledBehaviourForMsg(e, t, Ignore);
    assert Permanents(e1, t) == [] && Consumables(e1, t) == [] && GetInboundDispatchingForMsg(e1, t) == Immediate;
    assert UnhandledBehaviourFor(e1, t) == Ignore && Queued(e1, t) == [] && e1.trace == e.trace;
    ReceiveUnheard(e1, r, p);
  }
}
