/** What the GattRequest transitions guarantee: the order of the checks in
    each callback, the invariant that ties the promise chain to its cleanup,
    first-settlement-wins for the operation promise over any sequence of
    events, and whole scenarios. */
module GattProperties {
  import opened Ble
  import opened Promises
  import E = Errors
  import Events
  import opened Gatt

  // ---------------------------------------------------------------------------
  // events a started request receives

  datatype Event =
    | ServicesFound(peripheral: Peripheral, error: Option<string>)
    | CharacteristicsFound(peripheral: Peripheral, service: Service, error: Option<string>)
    | ValueUpdated(peripheral: Peripheral, characteristic: Characteristic, error: Option<string>)
    | ValueWritten(peripheral: Peripheral, characteristic: Characteristic, error: Option<string>)
    | NotificationStateUpdated(peripheral: Peripheral, characteristic: Characteristic, error: Option<string>)
    | TimerFires
    | DisconnectReported(device: Events.DeviceId)

  /** An event together with the state of the target device when it arrives. */
  datatype Step = Step(env: Env, event: Event)

  /** The disconnect handler is still registered on the bus. */
  predicate HandlerRegistered(s: Sys, prm: Params) {
    s.disconnectSubKey.Some? &&
    Events.Directive(s.disconnectSubKey.value, prm.handler, None) in Events.Entry(s.registry, Events.Disconnected)
  }

  /** One event: a delegate callback, the timer (only while armed) or the bus
      calling the disconnect handler (only while registered); the chain reacts
      afterwards. */
  function Deliver(s: Sys, env: Env, prm: Params, e: Event): Sys {
    match e
    case ServicesFound(p, err) => Propagate(OnServices(s, env, prm, p, err), env)
    case CharacteristicsFound(p, service, err) => Propagate(OnCharacteristics(s, env, prm, p, service, err), env)
    case ValueUpdated(p, c, err) => Propagate(OnValue(s, env, prm, p, c, err), env)
    case ValueWritten(p, c, err) => Propagate(OnWrite(s, env, prm, p, c, err), env)
    case NotificationStateUpdated(p, _, err) => Propagate(OnNotificationState(s, env, p, err), env)
    case TimerFires => if s.timerArmed then Propagate(OnTimerAsWritten(s), env) else s
    case DisconnectReported(d) => if HandlerRegistered(s, prm) then Propagate(OnDisconnect(s, env, d), env) else s
  }

  function Run(s: Sys, prm: Params, steps: seq<Step>): Sys
    decreases |steps|
  {
    if steps == [] then s else Run(Deliver(s, steps[0].env, prm, steps[0].event), prm, steps[1..])
  }

  // ---------------------------------------------------------------------------
  // the invariant

  /** No trace of the request is left: timer dropped, delegate removed, disconnect
      handler no longer on the bus. */
  predicate Clean(s: Sys)
    requires s.startKey.Some?
  {
    !s.timerArmed && s.startKey.value !in s.delegates &&
    (s.disconnectSubKey.Some? ==>
       forall x :: x in Events.Entry(s.registry, Events.Disconnected) ==> x.referenceKey != s.disconnectSubKey.value)
  }

  /** What holds between any two steps, whether or not the chain has reacted yet. */
  predicate Weak(s: Sys) {
    (s.startKey.Some? ==> s.operation.Some? && s.attached) &&
    (s.actionStarted ==> s.startKey.Some? && s.characteristicSlot.Fulfilled?) &&
    (s.chainDone ==> s.startKey.Some? && ChainOutcome(s).Settled() && s.operationSlot.Settled() && Clean(s))
  }

  /** The request invariant: the action runs as soon as the characteristic is
      located, and the chain has settled and cleaned up exactly when its
      outcome is known. */
  predicate Inv(s: Sys) {
    Weak(s) &&
    (s.startKey.Some? && s.characteristicSlot.Fulfilled? ==> s.actionStarted) &&
    (s.startKey.Some? && ChainOutcome(s).Settled() ==> s.chainDone)
  }

  /** Every promise settled in `s` keeps its outcome in `t`. */
  predicate Frozen(s: Sys, t: Sys) {
    (s.characteristicSlot.Settled() ==> t.characteristicSlot == s.characteristicSlot) &&
    (s.readSlot.Settled() ==> t.readSlot == s.readSlot) &&
    (s.writeSlot.Settled() ==> t.writeSlot == s.writeSlot) &&
    (s.notifySlot.Settled() ==> t.notifySlot == s.notifySlot) &&
    (s.operationSlot.Settled() ==> t.operationSlot == s.operationSlot)
  }

  /** A callback or handler body: slots only settle, the chain's bookkeeping is
      untouched, the timer is never re-armed and the bus only loses directives. */
  predicate Grows(s: Sys, t: Sys) {
    Frozen(s, t) &&
    t.startKey == s.startKey && t.operation == s.operation && t.attached == s.attached &&
    t.actionStarted == s.actionStarted && t.chainDone == s.chainDone && t.delegates == s.delegates &&
    t.disconnectSubKey == s.disconnectSubKey && (!s.timerArmed ==> !t.timerArmed) &&
    forall x :: x in Events.Entry(t.registry, Events.Disconnected) ==> x in Events.Entry(s.registry, Events.Disconnected)
  }

  lemma {:induction false} GrowsKeepsWeak(s: Sys, t: Sys)
    requires Weak(s) && Grows(s, t)
    ensures Weak(t)
  {
    if s.chainDone {
      assert ChainOutcome(t) == ChainOutcome(s);
    }
  }

  /** Unsubscribing the handler removes every directive with its key and adds none. */
  lemma {:induction false} UnsubscribedRemovesHandler(s: Sys)
    ensures forall x :: x in Events.Entry(Unsubscribed(s).registry, Events.Disconnected) ==>
              x in Events.Entry(s.registry, Events.Disconnected) &&
              (s.disconnectSubKey.Some? ==> x.referenceKey != s.disconnectSubKey.value)
  {
    if s.disconnectSubKey.Some? {
      Events.RemovedEntry(s.registry, [Events.Disconnected], s.disconnectSubKey.value, Events.Disconnected);
      Events.WithoutMembers(Events.Entry(s.registry, Events.Disconnected), s.disconnectSubKey.value);
    }
  }

  /** The `then` step runs the action only while the chain is open, and keeps
      the weak invariant. */
  lemma {:induction false} ContinueKeepsWeak(s: Sys, env: Env)
    requires Weak(s)
    ensures Weak(Continue(s, env)) && Frozen(s, Continue(s, env))
    ensures var c := Continue(s, env); c.startKey.Some? && c.characteristicSlot.Fulfilled? ==> c.actionStarted
    ensures Continue(s, env).chainDone == s.chainDone
  {
    if s.startKey.Some? && s.operation.Some? && s.characteristicSlot.Fulfilled? && !s.actionStarted {
      assert ChainOutcome(s) == Pending;
      var t := s.(actionStarted := true);
      assert Frozen(s, Act(t, env, s.operation.value));
    }
  }

  /** The cleanup leaves no trace of the request. */
  lemma {:induction false} CleanupIsClean(s: Sys)
    requires s.startKey.Some?
    ensures Clean(Cleanup(s))
  {
    UnsubscribedRemovesHandler(s.(delegates := s.delegates - {s.startKey.value}, timerArmed := false));
  }

  /** The `always` step closes the chain exactly when its outcome is known. */
  lemma {:induction false} ResolveRestores(c: Sys)
    requires Weak(c)
    requires c.startKey.Some? && c.characteristicSlot.Fulfilled? ==> c.actionStarted
    ensures Inv(Resolve(c)) && Frozen(c, Resolve(c))
  {
    if !c.chainDone && ChainOutcome(c).Settled() {
      var d := c.(chainDone := true, operationSlot := Adopt(c.operationSlot, ChainOutcome(c)));
      CleanupIsClean(d);
      assert ChainOutcome(Resolve(c)) == ChainOutcome(c);
    }
  }

  /** The chain's reaction turns the weak invariant into the full one, and
      changes no settled outcome. */
  lemma {:induction false} PropagateRestores(s: Sys, env: Env)
    requires Weak(s)
    ensures Inv(Propagate(s, env))
    ensures Frozen(s, Propagate(s, env))
  {
    ContinueKeepsWeak(s, env);
    ResolveRestores(Continue(s, env));
  }

  /** With the invariant in place the chain has nothing to react to. */
  lemma {:induction false} PropagateIdle(s: Sys, env: Env)
    requires Inv(s)
    ensures Propagate(s, env) == s
  {
  }

  /** A body that only settles the slots and leaves the bus alone grows the state. */
  lemma {:induction false} SettlingGrows(s: Sys, t: Sys)
    requires Frozen(s, t) && t.registry == s.registry
    requires t.startKey == s.startKey && t.operation == s.operation && t.attached == s.attached
    requires t.actionStarted == s.actionStarted && t.chainDone == s.chainDone && t.delegates == s.delegates
    requires t.disconnectSubKey == s.disconnectSubKey && t.timerArmed == s.timerArmed
    ensures Grows(s, t)
  {
  }

  lemma {:induction false} ServicesGrow(s: Sys, env: Env, prm: Params, p: Peripheral, err: Option<string>)
    ensures Grows(s, OnServices(s, env, prm, p, err))
  {
    var t := OnServices(s, env, prm, p, err);
    var service := FirstService(p.services, prm.sc.serviceUuid);
    if err.None? && SamePeripheral(s, env, p) && service.Some? {
      ServicesFoundGrows(s, t, p, prm, service.value);
    } else {
      assert t == s.(characteristicSlot := t.characteristicSlot);
      SettlingGrows(s, t);
    }
  }

  /** The success branch of the services callback only moves the status and the command log. */
  lemma {:induction false} ServicesFoundGrows(s: Sys, t: Sys, p: Peripheral, prm: Params, service: Service)
    requires t == s.(status := DiscoveringCharacteristics,
                     commands := s.commands + [DiscoverCharacteristics(p.identifier, [prm.sc.characteristicUuid], service.uuid)])
    ensures Grows(s, t)
  {
    SettlingGrows(s, t);
  }

  lemma {:induction false} CharacteristicsGrow(s: Sys, env: Env, prm: Params, p: Peripheral, service: Service,
                                               err: Option<string>)
    ensures Grows(s, OnCharacteristics(s, env, prm, p, service, err))
  {
    var t := OnCharacteristics(s, env, prm, p, service, err);
    if err.Some? || !SamePeripheral(s, env, p) ||
       FirstCharacteristic(service.characteristics, prm.sc.characteristicUuid).None? {
      assert t == s.(characteristicSlot := t.characteristicSlot);
    } else {
      assert t == s.(characteristic := t.characteristic, characteristicSlot := Fulfil(s.characteristicSlot, ()));
    }
    SettlingGrows(s, t);
  }

  lemma {:induction false} ValueGrows(s: Sys, env: Env, prm: Params, p: Peripheral, c: Characteristic,
                                      err: Option<string>)
    ensures Grows(s, OnValue(s, env, prm, p, c, err))
  {
    var t := OnValue(s, env, prm, p, c, err);
    if err.Some? || !SamePeripheral(s, env, p) || c.uuid != prm.sc.characteristicUuid || c.value.None? {
      assert t == s.(readSlot := t.readSlot);
    } else {
      assert t == s.(status := Completed, readSlot := Fulfil(s.readSlot, c.value));
    }
    SettlingGrows(s, t);
  }

  lemma {:induction false} WriteGrows(s: Sys, env: Env, prm: Params, p: Peripheral, c: Characteristic,
                                      err: Option<string>)
    ensures Grows(s, OnWrite(s, env, prm, p, c, err))
  {
    var t := OnWrite(s, env, prm, p, c, err);
    if err.Some? || !SamePeripheral(s, env, p) || c.uuid != prm.sc.characteristicUuid {
      assert t == s.(writeSlot := t.writeSlot);
    } else {
      assert t == s.(writeSlot := Fulfil(s.writeSlot, ()));
    }
    SettlingGrows(s, t);
  }

  lemma {:induction false} NotificationStateGrows(s: Sys, env: Env, p: Peripheral, err: Option<string>)
    ensures Grows(s, OnNotificationState(s, env, p, err))
  {
    var t := OnNotificationState(s, env, p, err);
    assert t == s.(notifySlot := t.notifySlot);
    SettlingGrows(s, t);
  }

  lemma {:induction false} RejectActionFrozen(s: Sys, error: E.XYBluetoothError)
    ensures Frozen(s, RejectAction(s, error))
    ensures RejectAction(s, error) == s.(readSlot := RejectAction(s, error).readSlot,
                                         writeSlot := RejectAction(s, error).writeSlot,
                                         notifySlot := RejectAction(s, error).notifySlot)
  {
  }

  lemma {:induction false} TimerGrows(s: Sys)
    ensures Grows(s, OnTimerAsWritten(s))
  {
    var s0 := s.(timerArmed := false, status := Status.TimedOut);
    RejectActionFrozen(s0, E.TimedOut);
    assert Frozen(s, RejectAction(s0, E.TimedOut));
  }

  lemma {:induction false} DisconnectGrows(s: Sys, env: Env, d: Events.DeviceId)
    ensures Grows(s, OnDisconnect(s, env, d))
  {
    UnsubscribedRemovesHandler(s);
    var s1 := Unsubscribed(s);
    if s.attached && env.isFinder && env.deviceId == d {
      var s0 := s1.(timerArmed := false, status := Status.Disconnected);
      RejectActionFrozen(s0, E.PeripheralDisconected(LastState(env)));
    }
  }

  /** The body of the handler or callback an event runs. */
  function Body(s: Sys, env: Env, prm: Params, e: Event): Sys {
    match e
    case ServicesFound(p, err) => OnServices(s, env, prm, p, err)
    case CharacteristicsFound(p, service, err) => OnCharacteristics(s, env, prm, p, service, err)
    case ValueUpdated(p, c, err) => OnValue(s, env, prm, p, c, err)
    case ValueWritten(p, c, err) => OnWrite(s, env, prm, p, c, err)
    case NotificationStateUpdated(p, _, err) => OnNotificationState(s, env, p, err)
    case TimerFires => OnTimerAsWritten(s)
    case DisconnectReported(d) => OnDisconnect(s, env, d)
  }

  lemma {:induction false} BodyGrows(s: Sys, env: Env, prm: Params, e: Event)
    ensures Grows(s, Body(s, env, prm, e))
  {
    match e
    case ServicesFound(p, err) => ServicesGrow(s, env, prm, p, err);
    case CharacteristicsFound(p, service, err) => CharacteristicsGrow(s, env, prm, p, service, err);
    case ValueUpdated(p, c, err) => ValueGrows(s, env, prm, p, c, err);
    case ValueWritten(p, c, err) => WriteGrows(s, env, prm, p, c, err);
    case NotificationStateUpdated(_, _, err) => NotificationStateGrows(s, env, e.peripheral, err);
    case TimerFires => TimerGrows(s);
    case DisconnectReported(d) => DisconnectGrows(s, env, d);
  }

  /** Every event keeps the invariant and the outcome of every settled promise. */
  lemma {:induction false} DeliverKeepsInv(s: Sys, env: Env, prm: Params, e: Event)
    requires Inv(s)
    ensures Inv(Deliver(s, env, prm, e))
    ensures Frozen(s, Deliver(s, env, prm, e))
  {
    if (e.TimerFires? && !s.timerArmed) || (e.DisconnectReported? && !HandlerRegistered(s, prm)) {
      return;
    }
    var body := Body(s, env, prm, e);
    BodyGrows(s, env, prm, e);
    GrowsKeepsWeak(s, body);
    PropagateRestores(body, env);
    assert Deliver(s, env, prm, e) == Propagate(body, env);
  }

  /** A started request keeps the invariant through any sequence of events, and
      an outcome once settled is never replaced: first settlement wins. */
  lemma {:induction false} RunKeepsInv(s: Sys, prm: Params, steps: seq<Step>)
    requires Inv(s)
    ensures Inv(Run(s, prm, steps))
    ensures Frozen(s, Run(s, prm, steps))
    decreases |steps|
  {
    if steps != [] {
      var next := Deliver(s, steps[0].env, prm, steps[0].event);
      DeliverKeepsInv(s, steps[0].env, prm, steps[0].event);
      RunKeepsInv(next, prm, steps[1..]);
    }
  }

  /** Starting a fresh request establishes the invariant. */
  lemma {:induction false} BeginEstablishesInv(s: Sys, env: Env, prm: Params, op: Operation)
    requires Fresh(s)
    ensures Inv(Begin(s, env, prm, op))
  {
    if IsConnected(env.peripheral) {
      var l := Locate(Armed(s, env, prm, op), env, prm);
      assert Weak(l);
      PropagateRestores(l, env);
    }
  }

  /** Whatever happens after the start, the operation promise of a request
      settles at most once, and once the chain's outcome is known the operation
      is settled and the request has left no timer, delegate or bus handler. */
  lemma {:induction false} SettlesOnceAndCleansUp(s: Sys, env: Env, prm: Params, op: Operation, steps: seq<Step>)
    requires Fresh(s)
    ensures var r := Run(Begin(s, env, prm, op), prm, steps);
            r.startKey.Some? && ChainOutcome(r).Settled() ==> r.operationSlot.Settled() && Clean(r)
    ensures var b := Begin(s, env, prm, op);
            b.operationSlot.Settled() ==> Run(b, prm, steps).operationSlot == b.operationSlot
  {
    BeginEstablishesInv(s, env, prm, op);
    RunKeepsInv(Begin(s, env, prm, op), prm, steps);
  }
}
