/**
 * The dispatch engine as the object the library exposes. Its fields are the
 * engine's private state; `trace` (ghost) records the user callbacks invoked.
 * Every public operation is proved against its transition in `Dispatch`
 * through the abstraction `Model()`, so the properties proved there hold of it;
 * the helper methods that carry its loops are proved against the `Dispatch`
 * functions those loops compute.
 * Where the library loops (copying a registry, scanning a timeout list, pumping
 * the dispatch queue, replaying retained messages, fanning out transport
 * events), the method loops too.
 */
module Crier {
  import opened Wrappers
  import opened CrierTypes
  import opened CallbackMaps
  import opened Envelope
  import opened Timeouts
  import opened Dispatch
  import DispatchProperties

  class Crier {
    /** The schema of the root message type every message travels in. */
    const schema: Schema
    const defaultUnhandledBehaviour: UnhandledMessageBehaviour
    const defaultInboundDispatch: InboundDispatching

    var callbackMap: map<TypeKey, seq<CallbackId>>
    var permanentObserverMap: map<TypeKey, CallbackMap>
    var timeoutCallbackMap: map<TypeKey, TimeoutList>
    var timeoutIds: nat
    var transportClosedObserverMap: CallbackMap
    var transportOpenedObserverMap: CallbackMap
    var unhandledBehaviourSettings: map<TypeKey, UnhandledMessageBehaviour>
    var unhandledMessageQueue: map<TypeKey, seq<Container>>
    var inboundDispatchSettings: map<TypeKey, InboundDispatching>
    var inboundDispatchTransportOpenSetting: InboundDispatching
    var inboundDispatchTransportErrorSetting: InboundDispatching
    var mainThreadCallbacks: seq<Deferred>
    var transportClosedSupressors: map<TypeKey, bool>
    var supressNextTransportClosed: bool
    ghost var trace: seq<Call>

    /** The object's state as an engine value. */
    ghost function Model(): Engine
      reads this
    {
      Engine(callbackMap, permanentObserverMap, timeoutCallbackMap, timeoutIds,
             transportClosedObserverMap, transportOpenedObserverMap,
             defaultUnhandledBehaviour, unhandledBehaviourSettings, unhandledMessageQueue,
             defaultInboundDispatch, inboundDispatchSettings,
             inboundDispatchTransportOpenSetting, inboundDispatchTransportErrorSetting,
             mainThreadCallbacks, transportClosedSupressors, supressNextTransportClosed, trace)
    }

    ghost predicate Valid()
      reads this
    {
      Dispatch.Valid(Model())
    }

    /** A new engine; unhandled messages are ignored and dispatch is immediate unless chosen otherwise. */
    constructor (schema: Schema, defaultUnhandled: UnhandledMessageBehaviour := Ignore,
                 defaultDispatch: InboundDispatching := Immediate)
      ensures Model() == Dispatch.Initial(defaultUnhandled, defaultDispatch)
      ensures this.schema == schema
      ensures Valid()
    {
      this.schema := schema;
      defaultUnhandledBehaviour := defaultUnhandled;
      defaultInboundDispatch := defaultDispatch;
      callbackMap := map[];
      permanentObserverMap := map[];
      timeoutCallbackMap := map[];
      timeoutIds := 0;
      transportClosedObserverMap := [];
      transportOpenedObserverMap := [];
      unhandledBehaviourSettings := map[];
      unhandledMessageQueue := map[];
      inboundDispatchSettings := map[];
      inboundDispatchTransportOpenSetting := defaultDispatch;
      inboundDispatchTransportErrorSetting := defaultDispatch;
      mainThreadCallbacks := [];
      transportClosedSupressors := map[];
      supressNextTransportClosed := false;
      trace := [];
    }

    // ------------------------------------------------------------ sending

    /**
     * Packs `data` into a fresh root message and hands it to the transport;
     * `wire` is the message handed over. No engine state changes.
     */
    method SendMessage(data: Payload, fileExtensions: seq<ExtensionDescriptor>) returns (wire: Container)
      ensures wire == PackageIntoReq(NewContainer(schema), data, fileExtensions)
      ensures CanBundle(schema, data.typeName, fileExtensions) ==> OpenReq(wire) == Some(data)
    {
      var req := NewContainer(schema);
      wire := PackageIntoReq(req, data, fileExtensions);
      if CanBundle(schema, data.typeName, fileExtensions) {
        PackThenOpen(schema, data, fileExtensions);
      }
    }

    /** Queues `onSuccess` for the next response of type `retType`, then sends `data`. */
    method SendMessageWithRetCallback(data: Payload, fileExtensions: seq<ExtensionDescriptor>,
                                      retType: TypeKey, onSuccess: CallbackId) returns (wire: Container)
      modifies this
      ensures Model() == Dispatch.PushConsumable(old(Model()), retType, onSuccess)
      ensures wire == PackageIntoReq(NewContainer(schema), data, fileExtensions)
    {
      callbackMap := callbackMap[retType := (if retType in callbackMap then callbackMap[retType] else []) + [onSuccess]];
      wire := SendMessage(data, fileExtensions);
    }

    /**
     * Schedules a timeout for `retType` (its id is returned), queues `onSuccess`
     * for the next response of that type, then sends `data`.
     */
    method SendMessageWithRetCallbackAndTimeout(data: Payload, fileExtensions: seq<ExtensionDescriptor>, retType: TypeKey,
                                                onSuccess: CallbackId, onTimeout: CallbackId)
      returns (id: nat, wire: Container)
      modifies this
      ensures id == old(timeoutIds)
      ensures Model() == Dispatch.PushConsumable(Dispatch.ScheduleTimeout(old(Model()), retType, onTimeout), retType, onSuccess)
      ensures wire == PackageIntoReq(NewContainer(schema), data, fileExtensions)
    {
      id := ScheduleTimeout(retType, onTimeout);
      wire := SendMessageWithRetCallback(data, fileExtensions, retType, onSuccess);
    }

    // ------------------------------------------------------------ timeouts

    /**
     * Bookkeeping of scheduling a timeout: returns the id of the new entry. The
     * timer itself is the separate event `FireTimeout(retType, id)`.
     */
    method ScheduleTimeout(retType: TypeKey, onTimeout: CallbackId) returns (id: nat)
      modifies this
      ensures id == old(timeoutIds)
      ensures Model() == Dispatch.ScheduleTimeout(old(Model()), retType, onTimeout)
    {
      id := timeoutIds;
      var l := if retType in timeoutCallbackMap then timeoutCallbackMap[retType] else [];
      timeoutCallbackMap := timeoutCallbackMap[retType := l + [TimeoutData(id, true, onTimeout)]];
      timeoutIds := timeoutIds + 1;
    }

    /** The timer of entry `id` of `retType` expires. */
    method FireTimeout(retType: TypeKey, id: nat)
      requires Valid() && EntryWithId(TimeoutsFor(Model(), retType), id).Some?
      modifies this
      ensures Model() == Dispatch.FireTimeout(old(Model()), retType, id)
      ensures Valid()
    {
      var entry := TakeTimeoutEntry(retType, id);
      if entry.valid {
        var behaviour := GetInboundDispatchingForMsg(retType);
        if behaviour == DispatchQueue {
          CallOnMainThread(Invoke(Call(entry.callback, NoArg)));
        } else {
          trace := trace + [Call(entry.callback, NoArg)];
        }
      }
      assert Model() == Dispatch.FireTimeout(old(Model()), retType, id);
      DispatchProperties.FireTimeoutPreservesValid(old(Model()), retType, id);
    }

    /**
     * The bookkeeping half of an expiring timer: entry `id` leaves its list and,
     * when it was still valid, the oldest consumable callback of `retType` is dropped.
     */
    method TakeTimeoutEntry(retType: TypeKey, id: nat) returns (entry: TimeoutData)
      requires EntryWithId(TimeoutsFor(Model(), retType), id).Some?
      modifies this
      ensures entry == EntryWithId(TimeoutsFor(old(Model()), retType), id).value
      ensures var q := Consumables(old(Model()), retType);
              Model() == old(Model()).(
                timeoutCallbackMap := old(timeoutCallbackMap)[retType := RemoveId(TimeoutsFor(old(Model()), retType), id)],
                callbackMap := if entry.valid && q != [] then old(callbackMap)[retType := q[1..]] else old(callbackMap))
    {
      var l := if retType in timeoutCallbackMap then timeoutCallbackMap[retType] else [];
      entry := EntryWithId(l, id).value;
      if entry.valid {
        var q := if retType in callbackMap then callbackMap[retType] else [];
        if |q| > 0 {
          callbackMap := callbackMap[retType := q[1..]];
        }
      }
      timeoutCallbackMap := timeoutCallbackMap[retType := RemoveId(l, id)];
    }

    /** A response of type `retType` arrived: invalidates its earliest still-valid timeout. */
    method InvalidateFirstTimeout(retType: TypeKey)
      modifies this
      ensures Model() == Dispatch.InvalidateFirstTimeout(old(Model()), retType)
    {
      var l := if retType in timeoutCallbackMap then timeoutCallbackMap[retType] else [];
      ghost var l0 := l;
      var i := 0;
      while i < |l|
        invariant 0 <= i <= |l| && l == l0
        invariant forall j :: 0 <= j < i ==> !l0[j].valid
      {
        if l[i].valid {
          InvalidateFirstAt(l0, i);
          l := l[i := l[i].(valid := false)];
          break;
        }
        i := i + 1;
      }
      timeoutCallbackMap := timeoutCallbackMap[retType := l];
    }

    /** Shutdown: invalidates every timeout entry of every type. */
    method InvalidateAllTimeouts()
      modifies this
      ensures Model() == Dispatch.InvalidateAllTimeouts(old(Model()))
    {
      var m0 := timeoutCallbackMap;
      var pending := m0.Keys;
      while pending != {}
        invariant pending <= m0.Keys
        invariant timeoutCallbackMap.Keys == m0.Keys
        invariant Model() == old(Model()).(timeoutCallbackMap := timeoutCallbackMap)
        invariant forall t :: t in m0 ==>
                    timeoutCallbackMap[t] == if t in pending then m0[t] else InvalidateAll(m0[t])
        decreases pending
      {
        var t :| t in pending;
        var l := InvalidateEntries(timeoutCallbackMap[t]);
        timeoutCallbackMap := timeoutCallbackMap[t := l];
        pending := pending - {t};
      }
      var target := map t | t in m0 :: InvalidateAll(m0[t]);
      assert timeoutCallbackMap.Keys == target.Keys;
      assert forall t :: t in target ==> timeoutCallbackMap[t] == target[t];
      assert timeoutCallbackMap == target;
    }

    /** Marks every entry of one type's timeout list invalid, in place. */
    method InvalidateEntries(l0: TimeoutList) returns (l: TimeoutList)
      ensures l == InvalidateAll(l0)
    {
      l := l0;
      var i := 0;
      while i < |l|
        invariant 0 <= i <= |l| && |l| == |l0|
        invariant forall j :: 0 <= j < |l| ==> l[j] == if j < i then l0[j].(valid := false) else l0[j]
      {
        l := l[i := l[i].(valid := false)];
        i := i + 1;
      }
    }

    // ------------------------------------------------------------ settings

    method SetUnhandledBehaviourForMsg(t: TypeKey, b: UnhandledMessageBehaviour)
      modifies this
      ensures Model() == Dispatch.SetUnhandledBehaviourForMsg(old(Model()), t, b)
    {
      unhandledBehaviourSettings := unhandledBehaviourSettings[t := b];
      if b == Ignore {
        unhandledMessageQueue := unhandledMessageQueue[t := []];
      }
    }

    /** Stores the default policy as t's override (and applies it). */
    method SetUnhandledBehaviourForMsgToDefault(t: TypeKey)
      modifies this
      ensures Model() == Dispatch.SetUnhandledBehaviourForMsg(old(Model()), t, defaultUnhandledBehaviour)
    {
      SetUnhandledBehaviourForMsg(t, defaultUnhandledBehaviour);
    }

    method SetInboundDispatchingForMsg(t: TypeKey, d: InboundDispatching)
      modifies this
      ensures Model() == Dispatch.SetInboundDispatchingForMsg(old(Model()), t, d)
    {
      inboundDispatchSettings := inboundDispatchSettings[t := d];
    }

    /** Stores the default mode as t's override. */
    method SetInboundDispatchingForMsgToDefault(t: TypeKey)
      modifies this
      ensures Model() == Dispatch.SetInboundDispatchingForMsg(old(Model()), t, defaultInboundDispatch)
    {
      SetInboundDispatchingForMsg(t, defaultInboundDispatch);
    }

    method SetInboundDispatchingForTransportOpen(d: InboundDispatching)
      modifies this
      ensures Model() == Dispatch.SetInboundDispatchingForTransportOpen(old(Model()), d)
    {
      inboundDispatchTransportOpenSetting := d;
    }

    method SetInboundDispatchingForTransportClosed(d: InboundDispatching)
      modifies this
      ensures Model() == Dispatch.SetInboundDispatchingForTransportClosed(old(Model()), d)
    {
      inboundDispatchTransportErrorSetting := d;
    }

    method SetInboundDispatchingForTransportOpenToDefault()
      modifies this
      ensures Model() == Dispatch.SetInboundDispatchingForTransportOpen(old(Model()), defaultInboundDispatch)
    {
      inboundDispatchTransportOpenSetting := defaultInboundDispatch;
    }

    method SetInboundDispatchingForTransportClosedToDefault()
      modifies this
      ensures Model() == Dispatch.SetInboundDispatchingForTransportClosed(old(Model()), defaultInboundDispatch)
    {
      inboundDispatchTransportErrorSetting := defaultInboundDispatch;
    }

    /** The dispatch mode in force for type t: its override, else the default. */
    method GetInboundDispatchingForMsg(t: TypeKey) returns (d: InboundDispatching)
      ensures d == Dispatch.GetInboundDispatchingForMsg(Model(), t)
      ensures t !in inboundDispatchSettings ==> d == defaultInboundDispatch
    {
      if t in inboundDispatchSettings {
        return inboundDispatchSettings[t];
      }
      return defaultInboundDispatch;
    }

    // ------------------------------------------------------------ registration

    method ClearCallbacksForMsg(t: TypeKey)
      modifies this
      ensures Model() == Dispatch.ClearCallbacksForMsg(old(Model()), t)
    {
      callbackMap := callbackMap[t := []];
    }

    /** Upserts the permanent callback (k, cb) for t, then replays t's retained messages. */
    method RegisterPermanentCallback(t: TypeKey, k: ObserverKey, cb: CallbackId)
      requires Valid()
      modifies this
      ensures Model() == Dispatch.RegisterPermanentCallback(old(Model()), t, k, cb)
      ensures Valid()
    {
      var current := if t in permanentObserverMap then permanentObserverMap[t] else [];
      permanentObserverMap := permanentObserverMap[t := Insert(current, k, cb)];
      TreatQueuedMessagesForType(t);
      DispatchProperties.RegisterPermanentCallbackPreservesValid(old(Model()), t, k, cb);
    }

    method ClearPermanentCallback(t: TypeKey, k: ObserverKey)
      modifies this
      ensures Model() == Dispatch.ClearPermanentCallback(old(Model()), t, k)
    {
      var current := if t in permanentObserverMap then permanentObserverMap[t] else [];
      permanentObserverMap := permanentObserverMap[t := Erase(current, k)];
    }

    method RegisterForTransportClosedCallback(k: ObserverKey, cb: CallbackId)
      modifies this
      ensures Model() == Dispatch.RegisterForTransportClosedCallback(old(Model()), k, cb)
    {
      transportClosedObserverMap := Insert(transportClosedObserverMap, k, cb);
    }

    method ClearTransportClosedCallback(k: ObserverKey)
      modifies this
      ensures Model() == Dispatch.ClearTransportClosedCallback(old(Model()), k)
    {
      transportClosedObserverMap := Erase(transportClosedObserverMap, k);
    }

    method RegisterForTransportOpenedCallback(k: ObserverKey, cb: CallbackId)
      modifies this
      ensures Model() == Dispatch.RegisterForTransportOpenedCallback(old(Model()), k, cb)
    {
      transportOpenedObserverMap := Insert(transportOpenedObserverMap, k, cb);
    }

    method ClearTransportOpenedCallback(k: ObserverKey)
      modifies this
      ensures Model() == Dispatch.ClearTransportOpenedCallback(old(Model()), k)
    {
      transportOpenedObserverMap := Erase(transportOpenedObserverMap, k);
    }

    method SupressTransportClosedAfterMsgOfType(t: TypeKey)
      modifies this
      ensures Model() == Dispatch.SupressTransportClosedAfterMsgOfType(old(Model()), t)
    {
      transportClosedSupressors := transportClosedSupressors[t := true];
    }

    method ClearSupressionTransportClosed()
      modifies this
      ensures Model() == Dispatch.ClearSupressionTransportClosed(old(Model()))
    {
      transportClosedSupressors := map[];
    }

    // ------------------------------------------------------------ dispatch queue

    method CallOnMainThread(d: Deferred)
      modifies this
      ensures Model() == Dispatch.CallOnMainThread(old(Model()), d)
    {
      mainThreadCallbacks := mainThreadCallbacks + [d];
    }

    /** Runs one queued closure. */
    method RunDeferred(d: Deferred)
      modifies this
      ensures Model() == Dispatch.RunDeferred(old(Model()), d)
    {
      match d
      case Invoke(c) =>
        trace := trace + [c];
      case DispatchContainer(r) =>
        var reqData := OpenReq(r);
        if reqData.Some? {
          TriggerCallbacksForMsg(r, reqData.value);
        }
    }

    /** The pump: takes the whole queue, clears it, and runs what it took, in order. */
    method DispatchQueuedCallbacks()
      modifies this
      ensures Model() == Dispatch.DispatchQueuedCallbacks(old(Model()))
    {
      var aux := mainThreadCallbacks;
      mainThreadCallbacks := [];
      var i := 0;
      while i < |aux|
        invariant 0 <= i <= |aux|
        invariant mainThreadCallbacks == []
        invariant RunAll(Model(), aux[i..]) == Dispatch.DispatchQueuedCallbacks(old(Model()))
      {
        assert aux[i..] == [aux[i]] + aux[i + 1..];
        RunDeferred(aux[i]);
        i := i + 1;
      }
    }

    // ------------------------------------------------------------ inbound

    method UnhandledMessage(r: Container, t: TypeKey, b: UnhandledMessageBehaviour)
      modifies this
      ensures Model() == Dispatch.UnhandledMessage(old(Model()), r, t, b)
    {
      if b == Enqueue {
        var q := if t in unhandledMessageQueue then unhandledMessageQueue[t] else [];
        unhandledMessageQueue := unhandledMessageQueue[t := q + [r]];
      }
    }

    method DealWithUnhandledMessage(r: Container, t: TypeKey)
      modifies this
      ensures Model() == Dispatch.DealWithUnhandledMessage(old(Model()), r, t)
    {
      var b := defaultUnhandledBehaviour;
      if t in unhandledBehaviourSettings {
        b := unhandledBehaviourSettings[t];
      }
      UnhandledMessage(r, t, b);
    }

    /**
     * Runs the listeners of payload p unwrapped from r: the permanent callbacks
     * of its type in registry order, then the oldest consumable one, which is
     * used up; with neither, the unhandled policy takes the message.
     */
    method TriggerCallbacksForMsg(r: Container, p: Payload)
      requires OpenReq(r) == Some(p)
      modifies this
      ensures Model() == Dispatch.TriggerCallbacksForMsg(old(Model()), r, p)
    {
      var t := p.typeName;
      var notified := NotifyPermanentObservers(t, Message(p));
      var noCallbacks := notified == 0;
      var q := if t in callbackMap then callbackMap[t] else [];
      if |q| > 0 {
        callbackMap := callbackMap[t := q[1..]];
        trace := trace + [Call(q[0], Message(p))];
        noCallbacks := false;
      }
      if noCallbacks {
        assert Model() == old(Model());
        DealWithUnhandledMessage(r, t);
      }
    }

    /** Runs every permanent listener of type t, in key order, on arg; returns how many ran. */
    method NotifyPermanentObservers(t: TypeKey, arg: CallArg) returns (notified: nat)
      modifies this
      ensures notified == |Values(Permanents(old(Model()), t))|
      ensures Model() == old(Model()).(trace := old(trace) + Calls(Values(Permanents(old(Model()), t)), arg))
    {
      var permanentObserverList := MapToVectorCopy(if t in permanentObserverMap then permanentObserverMap[t] else []);
      notified := 0;
      while notified < |permanentObserverList|
        invariant 0 <= notified <= |permanentObserverList|
        invariant trace == old(trace) + Calls(permanentObserverList[..notified], arg)
        invariant Model() == old(Model()).(trace := trace)
      {
        assert permanentObserverList[..notified + 1] == permanentObserverList[..notified] + [permanentObserverList[notified]];
        CallsSnoc(permanentObserverList[..notified], permanentObserverList[notified], arg);
        trace := trace + [Call(permanentObserverList[notified], arg)];
        notified := notified + 1;
      }
      assert permanentObserverList[..notified] == permanentObserverList;
    }

    /**
     * Receives root message r whose payload is p: invalidates the earliest valid
     * timeout of p's type, arms the disconnect suppression for a suppressor type,
     * then dispatches now or queues the dispatch.
     */
    method ReceiveMessage(r: Container, p: Payload)
      requires OpenReq(r) == Some(p)
      modifies this
      ensures Model() == Dispatch.ReceiveMessage(old(Model()), r, p)
      ensures old(Valid()) ==> Valid()
    {
      var t := p.typeName;
      InvalidateFirstTimeout(t);
      if t in transportClosedSupressors && transportClosedSupressors[t] {
        supressNextTransportClosed := true;
      }
      var behaviour := GetInboundDispatchingForMsg(t);
      if behaviour == Immediate {
        TriggerCallbacksForMsg(r, p);
      } else {
        CallOnMainThread(DispatchContainer(r));
      }
      assert Model() == Dispatch.ReceiveMessage(old(Model()), r, p);
      if old(Valid()) {
        DispatchProperties.ReceiveMessagePreservesValid(old(Model()), r, p);
      }
    }

    /** The transport delivered root message r; an empty one is dropped. */
    method OnTransportData(r: Container)
      requires Valid()
      modifies this
      ensures Model() == Dispatch.OnTransportData(old(Model()), r)
      ensures Valid()
    {
      var msgData := OpenReq(r);
      if msgData.Some? {
        ReceiveMessage(r, msgData.value);
      }
    }

    /** Takes t's retained messages out of the queue and receives them again, in arrival order. */
    method TreatQueuedMessagesForType(t: TypeKey)
      modifies this
      ensures Model() == Dispatch.TreatQueuedMessagesForType(old(Model()), t)
    {
      var unhandledMessageAux := if t in unhandledMessageQueue then unhandledMessageQueue[t] else [];
      unhandledMessageQueue := unhandledMessageQueue[t := []];
      assert Model() == old(Model()).(unhandledMessageQueue := old(unhandledMessageQueue)[t := []]);
      assert unhandledMessageAux[0..] == unhandledMessageAux == Queued(old(Model()), t);
      var i := 0;
      while i < |unhandledMessageAux|
        invariant 0 <= i <= |unhandledMessageAux|
        invariant Replay(Model(), unhandledMessageAux[i..]) == Dispatch.TreatQueuedMessagesForType(old(Model()), t)
      {
        var queuedMsg := unhandledMessageAux[i];
        ghost var before := Model();
        assert unhandledMessageAux[i..] == [queuedMsg] + unhandledMessageAux[i + 1..];
        assert Replay(before, unhandledMessageAux[i..])
            == Replay(Dispatch.OnTransportData(before, queuedMsg), unhandledMessageAux[i + 1..]);
        var reqData := OpenReq(queuedMsg);
        if reqData.Some? {
          ReceiveMessage(queuedMsg, reqData.value);
        }
        assert Model() == Dispatch.OnTransportData(before, queuedMsg);
        assert Replay(Model(), unhandledMessageAux[i + 1..]) == Dispatch.TreatQueuedMessagesForType(old(Model()), t);
        i := i + 1;
      }
    }

    // ------------------------------------------------------------ transport lifecycle

    /** Connecting disarms the disconnect suppression (the connection itself is the transport's). */
    method ConnectTransport()
      modifies this
      ensures Model() == Dispatch.ConnectTransport(old(Model()))
    {
      supressNextTransportClosed := false;
    }

    /** Invokes the given observers now, in order. */
    method NotifyNow(observers: seq<CallbackId>, arg: CallArg)
      modifies this
      ensures Model() == old(Model()).(trace := old(trace) + Calls(observers, arg))
    {
      var i := 0;
      while i < |observers|
        invariant 0 <= i <= |observers|
        invariant Model() == old(Model()).(trace := old(trace) + Calls(observers[..i], arg))
      {
        assert observers[..i + 1] == observers[..i] + [observers[i]];
        trace := trace + [Call(observers[i], arg)];
        i := i + 1;
      }
      assert observers[..i] == observers;
    }

    /** Queues one invocation of each given observer, in order. */
    method NotifyLater(observers: seq<CallbackId>, arg: CallArg)
      modifies this
      ensures Model() == old(Model()).(mainThreadCallbacks := old(mainThreadCallbacks) + Invokes(observers, arg))
    {
      var i := 0;
      while i < |observers|
        invariant 0 <= i <= |observers|
        invariant Model() == old(Model()).(mainThreadCallbacks := old(mainThreadCallbacks) + Invokes(observers[..i], arg))
      {
        assert observers[..i + 1] == observers[..i] + [observers[i]];
        CallOnMainThread(Invoke(Call(observers[i], arg)));
        i := i + 1;
      }
      assert observers[..i] == observers;
    }

    method OnTransportConnect()
      modifies this
      ensures Model() == Dispatch.OnTransportConnect(old(Model()))
    {
      var socketOpenedObserverList := MapToVectorCopy(transportOpenedObserverMap);
      if inboundDispatchTransportOpenSetting == DispatchQueue {
        NotifyLater(socketOpenedObserverList, NoArg);
      } else {
        NotifyNow(socketOpenedObserverList, NoArg);
      }
    }

    method OnTransportDisconnect(err: string)
      modifies this
      ensures Model() == Dispatch.OnTransportDisconnect(old(Model()), err)
    {
      if supressNextTransportClosed {
        supressNextTransportClosed := false;
        return;
      }
      var socketClosedObserverList := MapToVectorCopy(transportClosedObserverMap);
      if inboundDispatchTransportErrorSetting == DispatchQueue {
        NotifyLater(socketClosedObserverList, Reason(err));
      } else {
        NotifyNow(socketClosedObserverList, Reason(err));
      }
    }
  }
}
