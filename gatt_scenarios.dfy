/** What one request does from start to finish: the connection guard, how
    each handler settles the operation, a whole successful read, and the
    timeout, as written and as intended. */
module GattScenarios {
  import opened Ble
  import opened Promises
  import E = Errors
  import Events
  import opened Gatt
  import opened GattProperties

  // ---------------------------------------------------------------------------
  // starting a request

  /** Without a connected peripheral the operation fails at once with
      `notConnected`: no timer, no delegate, no bus subscription, no command. */
  lemma NotConnectedRejectsAtOnce(s: Sys, env: Env, prm: Params, op: Operation)
    requires Fresh(s) && !IsConnected(env.peripheral)
    ensures var r := Begin(s, env, prm, op);
            r.operationSlot == Rejected(E.NotConnected) && !r.timerArmed && r.startKey.None? &&
            r.commands == [] && r.delegates == s.delegates && r.registry == s.registry
  {
  }

  /** A connected request registers itself as the device's delegate under its
      key (keeping a delegate already registered there), subscribes its
      disconnect handler under the bus's next key and arms the timer; then it
      either uses the characteristic cached on the peripheral or asks the
      peripheral to discover the service. */
  lemma {:induction false} BeginConnected(s: Sys, env: Env, prm: Params, op: Operation)
    requires Fresh(s) && IsConnected(env.peripheral)
    ensures var r := Begin(s, env, prm, op);
            var key := DelegateKey(env.peripheral.value.identifier, prm.sc.characteristicUuid);
            r.startKey == Some(key) && r.attached && r.operation == Some(op) &&
            r.disconnectSubKey == Some(s.nextKey) && r.nextKey == s.nextKey + 1
    ensures var r := Begin(s, env, prm, op);
            var key := DelegateKey(env.peripheral.value.identifier, prm.sc.characteristicUuid);
            Cached(env.peripheral.value, prm.sc).None? ==>
              r.delegates == (if key in s.delegates then s.delegates else s.delegates[key := prm.handle]) &&
              r.registry == Events.Appended(s.registry, [Events.Disconnected], Events.Directive(s.nextKey, prm.handler, None)) &&
              r.timerArmed && r.operationSlot.Pending? &&
              r.status == DiscoveringServices && r.characteristicSlot.Pending? &&
              r.commands == [DiscoverServices(env.peripheral.value.identifier, Some([prm.sc.serviceUuid]))]
    ensures var r := Begin(s, env, prm, op);
            Cached(env.peripheral.value, prm.sc).Some? ==>
              r.characteristic == Cached(env.peripheral.value, prm.sc) && r.characteristicSlot == Fulfilled(()) &&
              r.actionStarted
  {
    var a := Armed(s, env, prm, op);
    var key := DelegateKey(env.peripheral.value.identifier, prm.sc.characteristicUuid);
    var l := Locate(a, env, prm);
    if Cached(env.peripheral.value, prm.sc).None? {
      assert l == Attached(a, key, prm.handle).(status := DiscoveringServices,
        commands := [DiscoverServices(env.peripheral.value.identifier, Some([prm.sc.serviceUuid]))]);
      assert Continue(l, env) == l;
      assert ChainOutcome(l) == Pending;
      assert Begin(s, env, prm, op) == l;
    } else {
      var c := Continue(l, env);
      assert c == Act(l.(actionStarted := true), env, op);
      assert c.startKey == l.startKey && c.characteristic == l.characteristic && c.characteristicSlot == Fulfilled(());
    }
  }

  // ---------------------------------------------------------------------------
  // the handlers, each followed by the chain's reaction

  /** The timer closure as written, at any stage: it records the timeout,
      drops the timer and rejects the promise of the operation's own action
      (when still pending); only for notify does it reject the operation
      promise too. Nothing else changes. */
  lemma {:induction false} TimerAsWrittenEffect(s: Sys)
    ensures var r := OnTimerAsWritten(s);
            var op := s.operation;
            r == s.(status := Status.TimedOut, timerArmed := false, readSlot := r.readSlot,
                    writeSlot := r.writeSlot, notifySlot := r.notifySlot, operationSlot := r.operationSlot) &&
            r.readSlot == (if op == Some(GetValue) then Reject(s.readSlot, E.TimedOut) else s.readSlot) &&
            r.writeSlot == (if op.Some? && op.value.SetValue? then Reject(s.writeSlot, E.TimedOut) else s.writeSlot) &&
            r.notifySlot == (if op.Some? && op.value.SetNotify? then Reject(s.notifySlot, E.TimedOut) else s.notifySlot) &&
            r.operationSlot == (if op.Some? && op.value.SetNotify? then Reject(s.operationSlot, E.TimedOut) else s.operationSlot)
  {
    var s0 := s.(timerArmed := false, status := Status.TimedOut);
    RejectActionFrozen(s0, E.TimedOut);
  }

  /** As written, a timeout once the action has started does settle the
      request: the action promise's rejection reaches the end of the chain,
      which fails the operation with `timedOut` and cleans up. */
  lemma {:induction false} TimerAfterActionSettles(s: Sys, env: Env, prm: Params)
    requires Inv(s) && s.startKey.Some? && s.timerArmed && s.actionStarted
    ensures var r := Deliver(s, env, prm, TimerFires);
            r.operationSlot == Reject(s.operationSlot, E.TimedOut) && r.status == Status.TimedOut &&
            r.chainDone && Clean(r)
  {
    var s0 := s.(timerArmed := false, status := Status.TimedOut);
    var t := OnTimerAsWritten(s);
    TimerAsWrittenEffect(s);
    assert !s.chainDone;
    assert ChainOutcome(s) == ActionOutcome(s, s.operation.value) && ChainOutcome(s).Pending?;
    assert Continue(t, env) == t;
    assert ChainOutcome(t) == ActionOutcome(t, s.operation.value);
    assert ChainOutcome(t) == Rejected(E.TimedOut);
    var d := t.(chainDone := true, operationSlot := Adopt(t.operationSlot, ChainOutcome(t)));
    assert Propagate(t, env) == Cleanup(d);
    CleanupIsClean(d);
  }

  /** The intended timer body leaves a request whose chain outcome is known
      and whose `then` step has nothing left to run. */
  lemma {:induction false} TimerSettlesChain(s: Sys, env: Env)
    requires Inv(s) && s.startKey.Some? && s.timerArmed
    ensures var t := OnTimer(s);
            Weak(t) && !t.chainDone && Continue(t, env) == t && ChainOutcome(t).Settled() &&
            t.operationSlot == Reject(s.operationSlot, E.TimedOut) && t.status == Status.TimedOut &&
            t.startKey == s.startKey && (t.characteristicSlot.Fulfilled? ==> t.actionStarted)
  {
    var s0 := s.(timerArmed := false, status := Status.TimedOut);
    var s1 := RejectAction(s0, E.TimedOut);
    RejectActionFrozen(s0, E.TimedOut);
    assert OnTimerAsWritten(s) ==
           (if s.operation.value.SetNotify? then s1.(operationSlot := Reject(s1.operationSlot, E.TimedOut)) else s1);
    var t := s1.(characteristicSlot := Reject(s1.characteristicSlot, E.TimedOut),
                 operationSlot := Reject(s1.operationSlot, E.TimedOut));
    assert t == OnTimer(s);
    assert !s.chainDone;
    assert t.actionStarted ==> t.characteristicSlot == s.characteristicSlot;
    assert Weak(t);
    assert Continue(t, env) == t;
    if s.actionStarted {
      assert ChainOutcome(t) == ActionOutcome(t, s.operation.value);
      assert ActionOutcome(t, s.operation.value).Settled();
    } else {
      assert t.characteristicSlot.Rejected?;
    }
  }

  /** The intended timer: whatever stage the request is in, the status
      becomes `timedOut`, the operation fails with `timedOut` (unless it had
      settled already) and the request leaves no timer, delegate or disconnect
      handler behind. */
  lemma {:induction false} TimerOutcome(s: Sys, env: Env)
    requires Inv(s) && s.startKey.Some? && s.timerArmed
    ensures var r := Propagate(OnTimer(s), env);
            r.operationSlot == Reject(s.operationSlot, E.TimedOut) && r.status == Status.TimedOut &&
            r.chainDone && r.startKey == s.startKey && Clean(r)
  {
    TimerSettlesChain(s, env);
    ChainSettles(OnTimer(s), env);
  }

  /** The disconnect handler always takes itself off the bus. A disconnect of
      another device, or when the request's device is not a finder, changes
      nothing else. */
  lemma {:induction false} DisconnectOfAnotherDevice(s: Sys, env: Env, prm: Params, d: Events.DeviceId)
    requires Inv(s) && HandlerRegistered(s, prm)
    requires !(s.attached && env.isFinder && env.deviceId == d)
    ensures var r := Deliver(s, env, prm, DisconnectReported(d));
            !HandlerRegistered(r, prm) &&
            r == s.(registry := r.registry) &&
            forall x :: x in Events.Entry(r.registry, Events.Disconnected) ==> x.referenceKey != s.disconnectSubKey.value
  {
    var t := OnDisconnect(s, env, d);
    UnsubscribedRemovesHandler(s);
    assert t == Unsubscribed(s);
    DisconnectGrows(s, env, d);
    GrowsKeepsWeak(s, t);
    assert ChainOutcome(t) == ChainOutcome(s);
    assert Propagate(t, env) == t;
  }

  /** The `always` step never changes the status, a settled operation or a
      dropped timer, and only takes directives off the bus. */
  lemma {:induction false} ResolveKeeps(t: Sys)
    ensures Resolve(t).status == t.status
    ensures t.operationSlot.Settled() ==> Resolve(t).operationSlot == t.operationSlot
    ensures !t.timerArmed ==> !Resolve(t).timerArmed
    ensures forall x :: x in Events.Entry(Resolve(t).registry, Events.Disconnected) ==>
              x in Events.Entry(t.registry, Events.Disconnected)
  {
    if !t.chainDone && ChainOutcome(t).Settled() {
      var d := t.(chainDone := true, operationSlot := Adopt(t.operationSlot, ChainOutcome(t)));
      UnsubscribedRemovesHandler(d.(delegates := d.delegates - {d.startKey.value}, timerArmed := false));
    }
  }

  /** A disconnect of the request's own finder device stops the timer and fails
      the operation with `peripheralDisconected`, carrying the peripheral's
      last state. */
  lemma {:induction false} DisconnectOfOwnDevice(s: Sys, env: Env, prm: Params, d: Events.DeviceId)
    requires Inv(s) && HandlerRegistered(s, prm)
    requires s.attached && env.isFinder && env.deviceId == d
    ensures var r := Deliver(s, env, prm, DisconnectReported(d));
            r.status == Status.Disconnected && !r.timerArmed && !HandlerRegistered(r, prm) &&
            r.operationSlot == Reject(s.operationSlot, E.PeripheralDisconected(LastState(env)))
  {
    var error := E.PeripheralDisconected(LastState(env));
    var s1 := Unsubscribed(s);
    UnsubscribedRemovesHandler(s);
    var s0 := s1.(timerArmed := false, status := Status.Disconnected);
    var s2 := RejectAction(s0, error);
    RejectActionFrozen(s0, error);
    var t := s2.(operationSlot := Reject(s2.operationSlot, error));
    assert t == OnDisconnect(s, env, d);
    assert t.characteristicSlot == s.characteristicSlot && t.actionStarted == s.actionStarted;
    assert Continue(t, env) == t;
    ResolveKeeps(t);
  }

  /** Once the chain has an outcome, its reaction settles the operation with it
      (unless already settled) and cleans up. */
  lemma {:induction false} ChainSettles(t: Sys, env: Env)
    requires Weak(t) && t.startKey.Some? && !t.chainDone && ChainOutcome(t).Settled()
    requires t.characteristicSlot.Fulfilled? ==> t.actionStarted
    ensures var r := Propagate(t, env);
            r.operationSlot == Adopt(t.operationSlot, ChainOutcome(t)) && r.chainDone &&
            r.startKey == t.startKey && Clean(r) && r.status == t.status && r.commands == t.commands
  {
    assert Continue(t, env) == t;
    var d := t.(chainDone := true, operationSlot := Adopt(t.operationSlot, ChainOutcome(t)));
    CleanupIsClean(d);
  }

  /** The reply to service discovery: a reported error, another peripheral or
      a missing service each fail the operation with their own error, checked
      in that order; otherwise the characteristic is discovered next. */
  lemma {:induction false} ServicesReply(s: Sys, env: Env, prm: Params, p: Peripheral, err: Option<string>)
    requires Inv(s) && s.startKey.Some? && s.characteristicSlot.Pending?
    ensures var r := Deliver(s, env, prm, ServicesFound(p, err));
            err.Some? ==> r.operationSlot == Reject(s.operationSlot, E.CbPeripheralDelegateError(err.value)) && Clean(r)
    ensures var r := Deliver(s, env, prm, ServicesFound(p, err));
            err.None? && !SamePeripheral(s, env, p) ==>
              r.operationSlot == Reject(s.operationSlot, E.MismatchedPeripheral) && Clean(r)
    ensures var r := Deliver(s, env, prm, ServicesFound(p, err));
            err.None? && SamePeripheral(s, env, p) && FirstService(p.services, prm.sc.serviceUuid).None? ==>
              r.operationSlot == Reject(s.operationSlot, E.ServiceNotFound) && Clean(r)
    ensures var r := Deliver(s, env, prm, ServicesFound(p, err));
            err.None? && SamePeripheral(s, env, p) && FirstService(p.services, prm.sc.serviceUuid).Some? ==>
              r.operationSlot == s.operationSlot && r.status == DiscoveringCharacteristics &&
              r.commands == s.commands + [DiscoverCharacteristics(p.identifier, [prm.sc.characteristicUuid], prm.sc.serviceUuid)]
  {
    var t := OnServices(s, env, prm, p, err);
    ServicesGrow(s, env, prm, p, err);
    GrowsKeepsWeak(s, t);
    assert !s.actionStarted && !s.chainDone;
    if t.characteristicSlot.Rejected? {
      ChainSettles(t, env);
    } else {
      assert Propagate(t, env) == t;
    }
  }

  /** The reply to characteristic discovery: the same checks in the same order,
      then a missing characteristic; once found, the operation's action runs at
      once. */
  lemma {:induction false} CharacteristicsReply(s: Sys, env: Env, prm: Params, p: Peripheral, service: Service,
                                                err: Option<string>)
    requires Inv(s) && s.startKey.Some? && s.characteristicSlot.Pending?
    ensures var r := Deliver(s, env, prm, CharacteristicsFound(p, service, err));
            err.Some? ==> r.operationSlot == Reject(s.operationSlot, E.CbPeripheralDelegateError(err.value)) && Clean(r)
    ensures var r := Deliver(s, env, prm, CharacteristicsFound(p, service, err));
            err.None? && !SamePeripheral(s, env, p) ==>
              r.operationSlot == Reject(s.operationSlot, E.MismatchedPeripheral) && Clean(r)
    ensures var r := Deliver(s, env, prm, CharacteristicsFound(p, service, err));
            err.None? && SamePeripheral(s, env, p) &&
            FirstCharacteristic(service.characteristics, prm.sc.characteristicUuid).None? ==>
              r.operationSlot == Reject(s.operationSlot, E.CharacteristicNotFound) && Clean(r)
    ensures var r := Deliver(s, env, prm, CharacteristicsFound(p, service, err));
            err.None? && SamePeripheral(s, env, p) &&
            FirstCharacteristic(service.characteristics, prm.sc.characteristicUuid).Some? ==>
              r.characteristic == FirstCharacteristic(service.characteristics, prm.sc.characteristicUuid) &&
              r.characteristic.value.uuid == prm.sc.characteristicUuid &&
              r.characteristicSlot == Fulfilled(()) && r.actionStarted
  {
    var t := OnCharacteristics(s, env, prm, p, service, err);
    CharacteristicsGrow(s, env, prm, p, service, err);
    GrowsKeepsWeak(s, t);
    assert !s.actionStarted && !s.chainDone;
    if t.characteristicSlot.Rejected? {
      ChainSettles(t, env);
    } else {
      ActionRuns(t, env);
    }
  }

  lemma {:induction false} ReadKeepsCharacteristic(u: Sys, env: Env)
    ensures var c := ReadStep(u, env);
            c.characteristic == u.characteristic && c.characteristicSlot == u.characteristicSlot &&
            c.actionStarted == u.actionStarted
  {
  }

  lemma {:induction false} WriteKeepsCharacteristic(u: Sys, env: Env, data: Option<Bytes>, w: bool)
    ensures var c := WriteStep(u, env, data, w);
            c.characteristic == u.characteristic && c.characteristicSlot == u.characteristicSlot &&
            c.actionStarted == u.actionStarted
  {
  }

  lemma {:induction false} NotifyKeepsCharacteristic(u: Sys, env: Env, e: bool)
    ensures var c := NotifyStep(u, env, e);
            c.characteristic == u.characteristic && c.characteristicSlot == u.characteristicSlot &&
            c.actionStarted == u.actionStarted
  {
  }

  /** The actions change neither the characteristic nor the chain's bookkeeping. */
  lemma {:induction false} ActKeepsCharacteristic(u: Sys, env: Env, op: Operation)
    ensures var c := Act(u, env, op);
            c.characteristic == u.characteristic && c.characteristicSlot == u.characteristicSlot &&
            c.actionStarted == u.actionStarted
  {
    match op
    case GetValue => ReadKeepsCharacteristic(u, env);
    case SetValue(data, w) => WriteKeepsCharacteristic(u, env, data, w);
    case SetNotify(e) => NotifyKeepsCharacteristic(u, env, e);
  }

  /** Nor does the cleanup. */
  lemma {:induction false} ResolveKeepsCharacteristic(c: Sys)
    ensures var r := Resolve(c);
            r.characteristic == c.characteristic && r.characteristicSlot == c.characteristicSlot &&
            r.actionStarted == c.actionStarted
  {
    if !c.chainDone && ChainOutcome(c).Settled() {
      var d := c.(chainDone := true, operationSlot := Adopt(c.operationSlot, ChainOutcome(c)));
      var e := d.(delegates := d.delegates - {d.startKey.value}, timerArmed := false);
      assert Cleanup(d) == Unsubscribed(e);
      assert Unsubscribed(e) == e.(registry := Unsubscribed(e).registry);
    }
  }

  /** With the characteristic located, the chain's reaction runs the action and
      keeps the characteristic. */
  lemma {:induction false} ActionRuns(t: Sys, env: Env)
    requires t.startKey.Some? && t.operation.Some? && t.characteristicSlot.Fulfilled? && !t.actionStarted
    ensures var r := Propagate(t, env);
            r.characteristic == t.characteristic && r.characteristicSlot == t.characteristicSlot && r.actionStarted
  {
    var u := t.(actionStarted := true);
    var c := Continue(t, env);
    assert c == Act(u, env, t.operation.value);
    ActKeepsCharacteristic(u, env, t.operation.value);
    ResolveKeepsCharacteristic(c);
  }

  /** The reply to a read: a reported error, another peripheral, another
      characteristic and a missing value each fail the get with their own
      error, in that order; otherwise the get is fulfilled with the value and
      the status becomes `completed`. Either way the request cleans up. */
  lemma {:induction false} ValueReply(s: Sys, env: Env, prm: Params, p: Peripheral, c: Characteristic,
                                      err: Option<string>)
    requires Inv(s) && s.startKey.Some? && s.actionStarted && !s.chainDone && s.operation == Some(GetValue)
    ensures var r := Deliver(s, env, prm, ValueUpdated(p, c, err));
            r.chainDone && Clean(r) &&
            r.operationSlot == Adopt(s.operationSlot,
                                     if err.Some? then Rejected(E.CbPeripheralDelegateError(err.value))
                                     else if !SamePeripheral(s, env, p) then Rejected(E.MismatchedPeripheral)
                                     else if c.uuid != prm.sc.characteristicUuid then Rejected(E.CharacteristicNotFound)
                                     else if c.value.None? then Rejected(E.DataNotPresent)
                                     else Fulfilled(Data(c.value)))
    ensures var r := Deliver(s, env, prm, ValueUpdated(p, c, err));
            r.status == Completed <==>
              s.status == Completed ||
              (err.None? && SamePeripheral(s, env, p) && c.uuid == prm.sc.characteristicUuid && c.value.Some?)
  {
    var t := OnValue(s, env, prm, p, c, err);
    ValueGrows(s, env, prm, p, c, err);
    GrowsKeepsWeak(s, t);
    assert s.readSlot.Pending? by { assert ChainOutcome(s) == LiftData(s.readSlot); }
    assert ChainOutcome(t) == LiftData(t.readSlot);
    ChainSettles(t, env);
  }

  /** The reply to a write with response: the same checks as a read except the
      value; success completes the set. The status is left as it was. */
  lemma {:induction false} WriteReply(s: Sys, env: Env, prm: Params, p: Peripheral, c: Characteristic,
                                      err: Option<string>)
    requires Inv(s) && s.startKey.Some? && s.actionStarted && !s.chainDone && s.operation.value.SetValue?
    ensures var r := Deliver(s, env, prm, ValueWritten(p, c, err));
            r.chainDone && Clean(r) && r.status == s.status &&
            r.operationSlot == Adopt(s.operationSlot,
                                     if err.Some? then Rejected(E.CbPeripheralDelegateError(err.value))
                                     else if !SamePeripheral(s, env, p) then Rejected(E.MismatchedPeripheral)
                                     else if c.uuid != prm.sc.characteristicUuid then Rejected(E.CharacteristicNotFound)
                                     else Fulfilled(Done))
  {
    var t := OnWrite(s, env, prm, p, c, err);
    WriteGrows(s, env, prm, p, c, err);
    GrowsKeepsWeak(s, t);
    assert s.writeSlot.Pending? by { assert ChainOutcome(s) == LiftDone(s.writeSlot); }
    assert ChainOutcome(t) == LiftDone(t.writeSlot);
    ChainSettles(t, env);
  }

  /** The reply to a change of notification state: an error or another
      peripheral fail the notify; the characteristic the reply names is not
      looked at, so a reply for any characteristic of the peripheral completes
      it. The status is left as it was. */
  lemma {:induction false} NotificationStateReply(s: Sys, env: Env, prm: Params, p: Peripheral, c: Characteristic,
                                                  c': Characteristic, err: Option<string>)
    requires Inv(s) && s.startKey.Some? && s.actionStarted && !s.chainDone && s.operation.value.SetNotify?
    ensures var r := Deliver(s, env, prm, NotificationStateUpdated(p, c, err));
            r.chainDone && Clean(r) && r.status == s.status &&
            r.operationSlot == Adopt(s.operationSlot,
                                     if err.Some? then Rejected(E.CbPeripheralDelegateError(err.value))
                                     else if !SamePeripheral(s, env, p) then Rejected(E.MismatchedPeripheral)
                                     else Fulfilled(Done))
    ensures Deliver(s, env, prm, NotificationStateUpdated(p, c, err)) ==
            Deliver(s, env, prm, NotificationStateUpdated(p, c', err))
  {
    var t := OnNotificationState(s, env, p, err);
    NotificationStateGrows(s, env, p, err);
    GrowsKeepsWeak(s, t);
    assert s.notifySlot.Pending? by { assert ChainOutcome(s) == LiftDone(s.notifySlot); }
    assert ChainOutcome(t) == LiftDone(t.notifySlot);
    ChainSettles(t, env);
  }

  /** read rejects with `notConnected` exactly when the request timed out, no
      characteristic is known or the link is down; otherwise it reads the
      request's characteristic. */
  lemma ReadGuard(s: Sys, env: Env)
    requires s.readSlot.Pending?
    ensures var ok := s.status != Status.TimedOut && s.characteristic.Some? && IsConnected(env.peripheral);
            (ReadStep(s, env).readSlot == Rejected(E.NotConnected) <==> !ok) &&
            (ok ==> ReadStep(s, env).status == Reading &&
                    ReadStep(s, env).commands == s.commands + [ReadValue(env.peripheral.value.identifier, s.characteristic.value.uuid)])
  {
  }

  /** write has the same guard plus a payload; a write without response is
      done as soon as it is issued, one with response waits for the reply. */
  lemma WriteGuard(s: Sys, env: Env, data: Option<Bytes>, withResponse: bool)
    requires s.writeSlot.Pending?
    ensures var ok := s.status != Status.TimedOut && s.characteristic.Some? && IsConnected(env.peripheral) && data.Some?;
            (WriteStep(s, env, data, withResponse).writeSlot == Rejected(E.NotConnected) <==> !ok) &&
            (ok ==> WriteStep(s, env, data, withResponse).status == Writing &&
                    WriteStep(s, env, data, withResponse).commands ==
                      s.commands + [WriteValue(env.peripheral.value.identifier, s.characteristic.value.uuid, data.value, withResponse)] &&
                    (WriteStep(s, env, data, withResponse).writeSlot == Fulfilled(()) <==> !withResponse))
  {
  }

  /** setNotify has the guard of read. */
  lemma NotifyGuard(s: Sys, env: Env, enabled: bool)
    requires s.notifySlot.Pending?
    ensures var ok := s.status != Status.TimedOut && s.characteristic.Some? && IsConnected(env.peripheral);
            (NotifyStep(s, env, enabled).notifySlot == Rejected(E.NotConnected) <==> !ok) &&
            (ok ==> NotifyStep(s, env, enabled).status == Notifying &&
                    NotifyStep(s, env, enabled).commands ==
                      s.commands + [SetNotifyValue(env.peripheral.value.identifier, enabled, s.characteristic.value.uuid)])
  {
  }

  /** A write without response is complete as soon as it is issued: with the
      characteristic cached, the set is fulfilled by the start alone. */
  lemma {:induction false} WriteWithoutResponseCompletesAtOnce(s: Sys, env: Env, prm: Params, data: Bytes)
    requires Fresh(s) && IsConnected(env.peripheral) && Cached(env.peripheral.value, prm.sc).Some?
    ensures var r := Begin(s, env, prm, SetValue(Some(data), false));
            r.operationSlot == Fulfilled(Done) && r.chainDone && Clean(r) && r.status == Writing &&
            r.commands == [WriteValue(env.peripheral.value.identifier, prm.sc.characteristicUuid, data, false)]
  {
    var op := SetValue(Some(data), false);
    var l := Locate(Armed(s, env, prm, op), env, prm);
    assert l.characteristic == Cached(env.peripheral.value, prm.sc) && l.characteristicSlot == Fulfilled(());
    assert l.commands == [] && l.status == s.status && Weak(l);
    var t := Continue(l, env);
    assert t == WriteStep(l.(actionStarted := true), env, Some(data), false);
    assert t.writeSlot == Fulfilled(());
    assert ChainOutcome(t) == Fulfilled(Done);
    ChainSettles(t, env);
  }

  // ---------------------------------------------------------------------------
  // a whole get

  /** The events of a get that discovers the service and characteristic and
      reads the value `v`. */
  function GetReplies(env: Env, q: Peripheral, service: Service, c: Characteristic): seq<Step> {
    [Step(env, ServicesFound(q, None)), Step(env, CharacteristicsFound(q, service, None)), Step(env, ValueUpdated(q, c, None))]
  }

  lemma {:induction false} RunThree(s: Sys, prm: Params, steps: seq<Step>)
    requires |steps| == 3
    ensures Run(s, prm, steps) ==
            Deliver(Deliver(Deliver(s, steps[0].env, prm, steps[0].event), steps[1].env, prm, steps[1].event),
                    steps[2].env, prm, steps[2].event)
  {
    var s1 := Deliver(s, steps[0].env, prm, steps[0].event);
    var s2 := Deliver(s1, steps[1].env, prm, steps[1].event);
    var s3 := Deliver(s2, steps[2].env, prm, steps[2].event);
    var rest1, rest2 := steps[1..], steps[2..];
    assert rest1[0] == steps[1] && rest1[1..] == rest2;
    assert rest2[0] == steps[2] && rest2[1..] == [];
    assert Run(s, prm, steps) == Run(s1, prm, rest1);
    assert Run(s1, prm, rest1) == Run(s2, prm, rest2);
    assert Run(s2, prm, rest2) == Run(s3, prm, []);
  }

  /** The services reply of a get: characteristic discovery for the one characteristic. */
  lemma {:induction false} GetServicesStep(s: Sys, env: Env, prm: Params, q: Peripheral, service: Service)
    requires Fresh(s) && IsConnected(env.peripheral) && Cached(env.peripheral.value, prm.sc).None?
    requires q.identifier == env.peripheral.value.identifier
    requires FirstService(q.services, prm.sc.serviceUuid) == Some(service)
    ensures var b := Begin(s, env, prm, GetValue);
            Deliver(b, env, prm, ServicesFound(q, None)) ==
            b.(status := DiscoveringCharacteristics,
               commands := b.commands + [DiscoverCharacteristics(q.identifier, [prm.sc.characteristicUuid], prm.sc.serviceUuid)])
  {
    BeginConnected(s, env, prm, GetValue);
    var b := Begin(s, env, prm, GetValue);
    assert OnServices(b, env, prm, q, None) ==
           b.(status := DiscoveringCharacteristics,
              commands := b.commands + [DiscoverCharacteristics(q.identifier, [prm.sc.characteristicUuid], prm.sc.serviceUuid)]);
  }

  /** The characteristics reply of a get: the characteristic is stored and the read issued. */
  lemma {:induction false} GetCharacteristicsStep(s: Sys, env: Env, prm: Params, q: Peripheral, service: Service)
    requires Fresh(s) && IsConnected(env.peripheral) && Cached(env.peripheral.value, prm.sc).None?
    requires q.identifier == env.peripheral.value.identifier
    requires FirstService(q.services, prm.sc.serviceUuid) == Some(service)
    requires FirstCharacteristic(service.characteristics, prm.sc.characteristicUuid).Some?
    ensures var s1 := Deliver(Begin(s, env, prm, GetValue), env, prm, ServicesFound(q, None));
            var found := FirstCharacteristic(service.characteristics, prm.sc.characteristicUuid);
            Deliver(s1, env, prm, CharacteristicsFound(q, service, None)) ==
            s1.(characteristic := found, characteristicSlot := Fulfilled(()), actionStarted := true, status := Reading,
                commands := s1.commands + [ReadValue(q.identifier, prm.sc.characteristicUuid)])
  {
    BeginConnected(s, env, prm, GetValue);
    GetServicesStep(s, env, prm, q, service);
    var s1 := Deliver(Begin(s, env, prm, GetValue), env, prm, ServicesFound(q, None));
    var found := FirstCharacteristic(service.characteristics, prm.sc.characteristicUuid);
    var t2 := OnCharacteristics(s1, env, prm, q, service, None);
    assert t2 == s1.(characteristic := found, characteristicSlot := Fulfilled(()));
    assert Deliver(s1, env, prm, CharacteristicsFound(q, service, None)) == Continue(t2, env);
  }

  /** A get on a connected peripheral without a cached characteristic: the
      services reply leads to characteristic discovery, the characteristics
      reply to the read, and the value reply fulfils the operation with the
      value. Afterwards the request has no timer, the device's delegates are
      what they were, and the bus calls exactly the handlers it called before. */
  lemma {:induction false} GetEndToEnd(s: Sys, env: Env, prm: Params, q: Peripheral, service: Service,
                                       c: Characteristic, v: Bytes)
    requires Fresh(s) && IsConnected(env.peripheral) && Cached(env.peripheral.value, prm.sc).None?
    requires Events.KeysBelow(s.registry, s.nextKey)
    requires DelegateKey(env.peripheral.value.identifier, prm.sc.characteristicUuid) !in s.delegates
    requires q.identifier == env.peripheral.value.identifier
    requires FirstService(q.services, prm.sc.serviceUuid) == Some(service)
    requires FirstCharacteristic(service.characteristics, prm.sc.characteristicUuid).Some?
    requires c.uuid == prm.sc.characteristicUuid && c.value == Some(v)
    ensures var r := Run(Begin(s, env, prm, GetValue), prm, GetReplies(env, q, service, c));
            var id := env.peripheral.value.identifier;
            r.operationSlot == Fulfilled(Data(Some(v))) && r.status == Completed && !r.timerArmed &&
            r.commands == [DiscoverServices(id, Some([prm.sc.serviceUuid])),
                           DiscoverCharacteristics(id, [prm.sc.characteristicUuid], prm.sc.serviceUuid),
                           ReadValue(id, prm.sc.characteristicUuid)] &&
            r.delegates == s.delegates
    ensures var r := Run(Begin(s, env, prm, GetValue), prm, GetReplies(env, q, service, c));
            forall events :: Events.Dispatch(r.registry, events) == Events.Dispatch(s.registry, events)
  {
    var id := env.peripheral.value.identifier;
    var key := DelegateKey(id, prm.sc.characteristicUuid);
    var d := Events.Directive(s.nextKey, prm.handler, None);
    BeginConnected(s, env, prm, GetValue);
    var b := Begin(s, env, prm, GetValue);
    RunThree(b, prm, GetReplies(env, q, service, c));
    GetServicesStep(s, env, prm, q, service);
    GetCharacteristicsStep(s, env, prm, q, service);
    var s1 := Deliver(b, env, prm, ServicesFound(q, None));
    var s2 := Deliver(s1, env, prm, CharacteristicsFound(q, service, None));

    var t3 := OnValue(s2, env, prm, q, c, None);
    assert t3 == s2.(status := Completed, readSlot := Fulfilled(Some(v)));
    assert ChainOutcome(t3) == Fulfilled(Data(Some(v)));
    var r := Deliver(s2, env, prm, ValueUpdated(q, c, None));
    assert r == Cleanup(t3.(chainDone := true, operationSlot := Fulfilled(Data(Some(v)))));
    assert r.delegates == s.delegates[key := prm.handle] - {key};
    assert r.registry == Events.Removed(Events.Appended(s.registry, [Events.Disconnected], d), [Events.Disconnected], s.nextKey);
    forall events
      ensures Events.Dispatch(r.registry, events) == Events.Dispatch(s.registry, events)
    {
      Events.SubscribeUnsubscribeRoundTrip(s.registry, [Events.Disconnected], d, events);
    }
  }

  // ---------------------------------------------------------------------------
  // the timeout during discovery

  /** As written: a request whose peripheral never answers discovery is never
      cleaned up. The timer fires, rejects the action promise the chain is not
      waiting on yet (and, for notify, the operation promise) and drops itself;
      a get or set stays pending, and for every operation the delegate and the
      disconnect handler stay registered, with no timer left to change that. */
  lemma {:induction false} TimeoutDuringDiscoveryLeavesResidue(s: Sys, env: Env, prm: Params, op: Operation)
    requires Fresh(s) && IsConnected(env.peripheral) && Cached(env.peripheral.value, prm.sc).None?
    ensures var r := Deliver(Begin(s, env, prm, op), env, prm, TimerFires);
            r.status == Status.TimedOut && !r.timerArmed && !r.chainDone &&
            r.operationSlot == (if op.SetNotify? then Rejected(E.TimedOut) else Pending) &&
            r.startKey.value in r.delegates && HandlerRegistered(r, prm) &&
            Deliver(r, env, prm, TimerFires) == r
  {
    BeginConnected(s, env, prm, op);
    var b := Begin(s, env, prm, op);
    BeginEstablishesInv(s, env, prm, op);
    TimerAsWrittenEffect(b);
    var t := OnTimerAsWritten(b);
    assert t.characteristicSlot.Pending? && !t.actionStarted;
    assert Continue(t, env) == t;
    assert ChainOutcome(t) == Pending;
    assert Propagate(t, env) == t;
    Events.AppendedEntry(s.registry, [Events.Disconnected], Events.Directive(s.nextKey, prm.handler, None), Events.Disconnected);
    assert Events.Count([Events.Disconnected], Events.Disconnected) == 1;
    assert Events.Directive(s.nextKey, prm.handler, None) in Events.Entry(b.registry, Events.Disconnected);
  }
}
