/**
 * Properties of single engine operations: what one dispatch invokes and in
 * which order, when the unhandled policy is consulted, what the registries
 * answer after an update, and that every operation keeps the engine invariant.
 */
module DispatchProperties {
  import opened Wrappers
  import opened CrierTypes
  import opened CallbackMaps
  import opened Envelope
  import opened Timeouts
  import opened Dispatch

  // ---------------------------------------------------------------- one dispatch

  /** The calls one dispatch makes: the permanent callbacks in registry order, then the front consumable one. */
  lemma TriggerTrace(e: Engine, r: Container, p: Payload)
    requires OpenReq(r) == Some(p)
    ensures var q := Consumables(e, p.typeName);
            TriggerCallbacksForMsg(e, r, p).trace
              == e.trace + Calls(Values(Permanents(e, p.typeName)), Message(p))
                         + (if q != [] then [Call(q[0], Message(p))] else [])
  {
  }

  /**
   * One dispatch invokes every permanent callback of the message's type once,
   * in registry order (by tier: FIRST, then ASAP, then NORMAL; by ascending name
   * within a tier), and then the front consumable callback, if any. Earlier entries of the trace are kept.
   */
  lemma TriggerInvocationOrder(e: Engine, r: Container, p: Payload)
    requires Valid(e) && OpenReq(r) == Some(p)
    ensures var e' := TriggerCallbacksForMsg(e, r, p);
            var perms := Permanents(e, p.typeName);
            var q := Consumables(e, p.typeName);
            && |e'.trace| == |e.trace| + |perms| + (if q != [] then 1 else 0)
            && e'.trace[..|e.trace|] == e.trace
            && (forall i :: 0 <= i < |perms| ==> e'.trace[|e.trace| + i] == Call(perms[i].callback, Message(p)))
            && (q != [] ==> e'.trace[|e'.trace| - 1] == Call(q[0], Message(p)))
    ensures var perms := Permanents(e, p.typeName);
            && (forall i, j :: 0 <= i < j < |perms| ==> Rank(perms[i].key.priority) <= Rank(perms[j].key.priority))
            && (forall i, j :: 0 <= i < j < |perms| && perms[i].key.priority == perms[j].key.priority
                  ==> StrLess(perms[i].key.name, perms[j].key.name))
  {
    TriggerTrace(e, r, p);
    PermanentsOrder(e, p.typeName);
  }

  /** A type's permanent callbacks are ordered by tier, and by ascending name within a tier. */
  lemma PermanentsOrder(e: Engine, t: TypeKey)
    requires Valid(e)
    ensures var perms := Permanents(e, t);
            && (forall i, j :: 0 <= i < j < |perms| ==> Rank(perms[i].key.priority) <= Rank(perms[j].key.priority))
            && (forall i, j :: 0 <= i < j < |perms| && perms[i].key.priority == perms[j].key.priority
                  ==> StrLess(perms[i].key.name, perms[j].key.name))
  {
    var perms := Permanents(e, t);
    PermanentsSorted(e, t);
    forall i, j | 0 <= i < j < |perms|
      ensures Rank(perms[i].key.priority) <= Rank(perms[j].key.priority)
      ensures perms[i].key.priority == perms[j].key.priority ==> StrLess(perms[i].key.name, perms[j].key.name)
    {
      SortedTierOrder(perms, i, j);
    }
  }

  /**
   * The unhandled policy sees a message only when nobody listened to it: t's
   * retained messages change exactly when t has neither permanent nor
   * consumable callbacks and its policy is Enqueue, and then r is appended.
   */
  lemma TriggerUnhandledOnlyWhenUnheard(e: Engine, r: Container, p: Payload)
    requires OpenReq(r) == Some(p)
    ensures var e' := TriggerCallbacksForMsg(e, r, p); var t := p.typeName;
            var unheard := Permanents(e, t) == [] && Consumables(e, t) == [];
            && (Queued(e', t) != Queued(e, t) <==> unheard && UnhandledBehaviourFor(e, t) == Enqueue)
            && (unheard && UnhandledBehaviourFor(e, t) == Enqueue ==> Queued(e', t) == Queued(e, t) + [r])
            && (forall t' :: t' != t ==> Queued(e', t') == Queued(e, t'))
            && (unheard ==> e'.trace == e.trace)
  {
    var t := p.typeName;
    if Permanents(e, t) == [] && Consumables(e, t) == [] {
      assert Values(Permanents(e, t)) == [];
      assert TriggerCallbacksForMsg(e, r, p) == DealWithUnhandledMessage(e, r, t);
      assert Queued(e, t) + [r] != Queued(e, t) by { assert |Queued(e, t) + [r]| != |Queued(e, t)|; }
    } else {
      assert TriggerCallbacksForMsg(e, r, p).unhandledMessageQueue == e.unhandledMessageQueue;
    }
  }

  // ---------------------------------------------------------------- registries

  /** Under the invariant every type's permanent registry is ordered; a type with none has the empty one. */
  lemma PermanentsSorted(e: Engine, t: TypeKey)
    requires Valid(e)
    ensures Sorted(Permanents(e, t))
  {
    if t !in e.permanentObserverMap {
      EmptyAndSingletonSorted(ObserverKey([], FIRST), 0);
    }
  }

  /** Registering (k, cb) for t: k now finds cb, every other key finds what it found before. */
  lemma RegisterPermanentCallbackFind(e: Engine, t: TypeKey, k: ObserverKey, cb: CallbackId, k': ObserverKey)
    ensures var e' := RegisterPermanentCallback(e, t, k, cb);
            Find(Permanents(e', t), k') == if k' == k then Some(cb) else Find(Permanents(e, t), k')
  {
    InsertFind(Permanents(e, t), k, cb, k');
  }

  /** Re-registering an existing key replaces its callback; a new key adds exactly one entry. */
  lemma RegisterPermanentCallbackSize(e: Engine, t: TypeKey, k: ObserverKey, cb: CallbackId)
    requires Valid(e)
    ensures var e' := RegisterPermanentCallback(e, t, k, cb);
            |Permanents(e', t)| == |Permanents(e, t)| + (if Find(Permanents(e, t), k).Some? then 0 else 1)
  {
    PermanentsSorted(e, t);
    InsertSize(Permanents(e, t), k, cb);
  }

  /** Clearing k for t: k finds nothing, every other key finds what it found before. */
  lemma ClearPermanentCallbackFind(e: Engine, t: TypeKey, k: ObserverKey, k': ObserverKey)
    ensures var e' := ClearPermanentCallback(e, t, k);
            Find(Permanents(e', t), k') == if k' == k then None else Find(Permanents(e, t), k')
  {
    EraseFind(Permanents(e, t), k, k');
  }

  /** The transport observer registries behave as keyed upsert/erase. */
  lemma TransportObserverRegistriesFind(e: Engine, k: ObserverKey, cb: CallbackId, k': ObserverKey)
    ensures Find(RegisterForTransportClosedCallback(e, k, cb).transportClosedObserverMap, k')
              == if k' == k then Some(cb) else Find(e.transportClosedObserverMap, k')
    ensures Find(ClearTransportClosedCallback(e, k).transportClosedObserverMap, k')
              == if k' == k then None else Find(e.transportClosedObserverMap, k')
    ensures Find(RegisterForTransportOpenedCallback(e, k, cb).transportOpenedObserverMap, k')
              == if k' == k then Some(cb) else Find(e.transportOpenedObserverMap, k')
    ensures Find(ClearTransportOpenedCallback(e, k).transportOpenedObserverMap, k')
              == if k' == k then None else Find(e.transportOpenedObserverMap, k')
  {
    InsertFind(e.transportClosedObserverMap, k, cb, k');
    EraseFind(e.transportClosedObserverMap, k, k');
    InsertFind(e.transportOpenedObserverMap, k, cb, k');
    EraseFind(e.transportOpenedObserverMap, k, k');
  }

  // ---------------------------------------------------------------- timeouts

  /** A scheduled timeout gets an id no live entry of any type carries, and can then be found by it. */
  lemma ScheduleTimeoutFreshId(e: Engine, t: TypeKey, cb: CallbackId)
    requires Valid(e)
    ensures forall t', x :: x in TimeoutsFor(e, t') ==> x.id != e.timeoutIds
    ensures EntryWithId(TimeoutsFor(ScheduleTimeout(e, t, cb), t), e.timeoutIds) == Some(TimeoutData(e.timeoutIds, true, cb))
  {
    var l := TimeoutsFor(e, t);
    var l' := l + [TimeoutData(e.timeoutIds, true, cb)];
    EntryWithIdLast(l, TimeoutData(e.timeoutIds, true, cb));
  }

  lemma {:induction false} EntryWithIdLast(l: TimeoutList, x: TimeoutData)
    requires forall y :: y in l ==> y.id != x.id
    ensures EntryWithId(l + [x], x.id) == Some(x)
    decreases |l|
  {
    if l != [] {
      assert (l + [x])[1..] == l[1..] + [x];
      EntryWithIdLast(l[1..], x);
    }
  }

  // ---------------------------------------------------------------- invariant preservation

  /** Operations on the consumable queues, dispatch settings, suppression and dispatch queue keep the invariant. */
  lemma SettingsPreserveValid(e: Engine, t: TypeKey, cb: CallbackId, d: InboundDispatching, c: Deferred)
    requires Valid(e)
    ensures Valid(PushConsumable(e, t, cb))
    ensures Valid(ClearCallbacksForMsg(e, t))
    ensures Valid(SetInboundDispatchingForMsg(e, t, d))
    ensures Valid(CallOnMainThread(e, c))
  {
  }

  /** The transport settings and the suppression controls keep the invariant. */
  lemma TransportSettingsPreserveValid(e: Engine, t: TypeKey, d: InboundDispatching)
    requires Valid(e)
    ensures Valid(SetInboundDispatchingForTransportOpen(e, d))
    ensures Valid(SetInboundDispatchingForTransportClosed(e, d))
    ensures Valid(SupressTransportClosedAfterMsgOfType(e, t))
    ensures Valid(ClearSupressionTransportClosed(e))
    ensures Valid(ConnectTransport(e))
  {
  }

  lemma OnTransportConnectPreservesValid(e: Engine)
    requires Valid(e)
    ensures Valid(OnTransportConnect(e))
  {
  }

  lemma OnTransportDisconnectPreservesValid(e: Engine, err: string)
    requires Valid(e)
    ensures Valid(OnTransportDisconnect(e, err))
  {
  }

  lemma ClearPermanentCallbackPreservesValid(e: Engine, t: TypeKey, k: ObserverKey)
    requires Valid(e)
    ensures Valid(ClearPermanentCallback(e, t, k))
  {
    PermanentsSorted(e, t);
    EraseSorted(Permanents(e, t), k);
  }

  lemma TransportObserverUpdatesPreserveValid(e: Engine, k: ObserverKey, cb: CallbackId)
    requires Valid(e)
    ensures Valid(RegisterForTransportClosedCallback(e, k, cb))
    ensures Valid(ClearTransportClosedCallback(e, k))
    ensures Valid(RegisterForTransportOpenedCallback(e, k, cb))
    ensures Valid(ClearTransportOpenedCallback(e, k))
  {
    InsertSorted(e.transportClosedObserverMap, k, cb);
    EraseSorted(e.transportClosedObserverMap, k);
    InsertSorted(e.transportOpenedObserverMap, k, cb);
    EraseSorted(e.transportOpenedObserverMap, k);
  }

  lemma SetUnhandledBehaviourPreservesValid(e: Engine, t: TypeKey, b: UnhandledMessageBehaviour)
    requires Valid(e)
    ensures Valid(SetUnhandledBehaviourForMsg(e, t, b))
  {
  }

  lemma ScheduleTimeoutPreservesValid(e: Engine, t: TypeKey, cb: CallbackId)
    requires Valid(e)
    ensures Valid(ScheduleTimeout(e, t, cb))
  {
    AppendFreshKeepsWellFormed(e.timeoutCallbackMap, e.timeoutIds, t, cb);
  }

  lemma InvalidateFirstTimeoutPreservesValid(e: Engine, t: TypeKey)
    requires Valid(e)
    ensures Valid(InvalidateFirstTimeout(e, t))
  {
    InvalidateFirstKeepsIds(TimeoutsFor(e, t));
    ReplaceKeepsWellFormed(e.timeoutCallbackMap, e.timeoutIds, t, InvalidateFirst(TimeoutsFor(e, t)));
  }

  lemma InvalidateAllTimeoutsPreservesValid(e: Engine)
    requires Valid(e)
    ensures Valid(InvalidateAllTimeouts(e))
  {
    var m := InvalidateAllTimeouts(e).timeoutCallbackMap;
    forall t | t in e.timeoutCallbackMap ensures IdSet(m[t]) == IdSet(e.timeoutCallbackMap[t]) && Increasing(m[t]) {
      InvalidateAllKeepsIds(e.timeoutCallbackMap[t]);
    }
    forall t, x: TimeoutData | t in m && x in m[t] ensures x.id < e.timeoutIds {
      assert x.id in IdSet(m[t]);
      var y :| y in e.timeoutCallbackMap[t] && y.id == x.id;
    }
  }

  lemma FireTimeoutPreservesValid(e: Engine, t: TypeKey, id: nat)
    requires Valid(e) && EntryWithId(TimeoutsFor(e, t), id).Some?
    ensures Valid(FireTimeout(e, t, id))
  {
    var l := TimeoutsFor(e, t);
    RemoveIdDropsId(l, id);
    RemoveIdKeepsOrder(l, id);
    ReplaceKeepsWellFormed(e.timeoutCallbackMap, e.timeoutIds, t, RemoveId(l, id));
    var e' := FireTimeout(e, t, id);
    assert WellFormed(e'.timeoutCallbackMap, e'.timeoutIds);
    assert RegistriesOrdered(e'.permanentObserverMap, e'.transportClosedObserverMap, e'.transportOpenedObserverMap);
    assert QueueConsistent(e'.unhandledMessageQueue, e'.unhandledBehaviourSettings, e'.defaultUnhandledBehaviour);
  }

  /**
   * The helper that applies a given policy keeps the invariant exactly when it
   * drops the message or t's own policy is Enqueue. Its one caller applies t's
   * own policy; enqueueing for a type whose policy is Ignore would break it.
   */
  lemma UnhandledMessagePreservesValid(e: Engine, r: Container, t: TypeKey, b: UnhandledMessageBehaviour)
    requires Valid(e) && OpensAs(r, t)
    ensures Valid(UnhandledMessage(e, r, t, b)) <==> (b == Ignore || UnhandledBehaviourFor(e, t) == Enqueue)
  {
    var e' := UnhandledMessage(e, r, t, b);
    if b == Enqueue && UnhandledBehaviourFor(e, t) == Ignore {
      assert t in e'.unhandledMessageQueue && e'.unhandledMessageQueue[t] != [];
    }
  }

  lemma DealWithUnhandledPreservesValid(e: Engine, r: Container, t: TypeKey)
    requires Valid(e) && OpensAs(r, t)
    ensures Valid(DealWithUnhandledMessage(e, r, t))
  {
  }

  lemma TriggerPreservesValid(e: Engine, r: Container, p: Payload)
    requires Valid(e) && OpenReq(r) == Some(p)
    ensures Valid(TriggerCallbacksForMsg(e, r, p))
  {
    var t := p.typeName;
    if Permanents(e, t) == [] && Consumables(e, t) == [] {
      DealWithUnhandledPreservesValid(e, r, t);
    }
  }

  lemma ReceiveMessagePreservesValid(e: Engine, r: Container, p: Payload)
    requires Valid(e) && OpenReq(r) == Some(p)
    ensures Valid(ReceiveMessage(e, r, p))
  {
    var t := p.typeName;
    var e1 := InvalidateFirstTimeout(e, t);
    InvalidateFirstTimeoutPreservesValid(e, t);
    var e2 := if IsSuppressor(e1, t) then e1.(supressNextTransportClosed := true) else e1;
    if GetInboundDispatchingForMsg(e2, t) == Immediate {
      TriggerPreservesValid(e2, r, p);
    }
  }

  lemma OnTransportDataPreservesValid(e: Engine, r: Container)
    requires Valid(e)
    ensures Valid(OnTransportData(e, r))
  {
    if !IsEmpty(r) {
      ReceiveMessagePreservesValid(e, r, OpenReq(r).value);
    }
  }

  lemma {:induction false} ReplayPreservesValid(e: Engine, msgs: seq<Container>)
    requires Valid(e)
    ensures Valid(Replay(e, msgs))
    decreases |msgs|
  {
    if msgs != [] {
      OnTransportDataPreservesValid(e, msgs[0]);
      ReplayPreservesValid(OnTransportData(e, msgs[0]), msgs[1..]);
    }
  }

  lemma TreatQueuedMessagesPreservesValid(e: Engine, t: TypeKey)
    requires Valid(e)
    ensures Valid(TreatQueuedMessagesForType(e, t))
  {
    ReplayPreservesValid(e.(unhandledMessageQueue := e.unhandledMessageQueue[t := []]), Queued(e, t));
  }

  lemma RegisterPermanentCallbackPreservesValid(e: Engine, t: TypeKey, k: ObserverKey, cb: CallbackId)
    requires Valid(e)
    ensures Valid(RegisterPermanentCallback(e, t, k, cb))
  {
    PermanentsSorted(e, t);
    InsertSorted(Permanents(e, t), k, cb);
    var e1 := e.(permanentObserverMap := e.permanentObserverMap[t := Insert(Permanents(e, t), k, cb)]);
    TreatQueuedMessagesPreservesValid(e1, t);
  }

  lemma RunDeferredPreservesValid(e: Engine, d: Deferred)
    requires Valid(e)
    ensures Valid(RunDeferred(e, d))
  {
    if d.DispatchContainer? && !IsEmpty(d.container) {
      TriggerPreservesValid(e, d.container, OpenReq(d.container).value);
    }
  }

  lemma {:induction false} RunAllPreservesValid(e: Engine, ds: seq<Deferred>)
    requires Valid(e)
    ensures Valid(RunAll(e, ds))
    decreases |ds|
  {
    if ds != [] {
      RunDeferredPreservesValid(e, ds[0]);
      RunAllPreservesValid(RunDeferred(e, ds[0]), ds[1..]);
    }
  }

  lemma DispatchQueuedCallbacksPreservesValid(e: Engine)
    requires Valid(e)
    ensures Valid(DispatchQueuedCallbacks(e))
  {
    RunAllPreservesValid(e.(mainThreadCallbacks := []), e.mainThreadCallbacks);
  }
}
