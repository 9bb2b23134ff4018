/** What the sample GattClient's transitions guarantee, and where it differs
    from the SDK's request engine. */
module SampleGattProperties {
  import opened Ble
  import opened SampleGatt
  import Gatt

  // ---------------------------------------------------------------------------
  // the delegate key

  /** Unlike the SDK's key, the sample's names the service: two clients on one
      device share a key exactly when they address the same service and
      characteristic (device and service UUIDs contain no ':'). */
  lemma {:induction false} DelegateKeyNamesService(u: string, sc: ServiceCharacteristic, sc': ServiceCharacteristic)
    requires ':' !in u && ':' !in sc.serviceUuid && ':' !in sc'.serviceUuid
    ensures DelegateKey(u, sc) == DelegateKey(u, sc') <==> sc == sc'
  {
    var k, k' := DelegateKey(u, sc), DelegateKey(u, sc');
    if k == k' {
      var n := 4 + |u|;
      assert k[n..] == sc.serviceUuid + ":" + sc.characteristicUuid;
      assert k'[n..] == sc'.serviceUuid + ":" + sc'.characteristicUuid;
      Gatt.FieldOf(sc.serviceUuid, sc.characteristicUuid);
      Gatt.FieldOf(sc'.serviceUuid, sc'.characteristicUuid);
      assert sc.serviceUuid == sc'.serviceUuid;
      var m := n + |sc.serviceUuid| + 1;
      assert sc.characteristicUuid == k[m..];
      assert sc'.characteristicUuid == k'[m..];
    }
  }

  /** The SDK's key does not: two requests for characteristics with the same
      UUID in different services of one peripheral share a delegate slot. */
  lemma SdkKeyIgnoresService(u: string, sc: ServiceCharacteristic, sc': ServiceCharacteristic)
    requires ':' !in u && ':' !in sc.serviceUuid && ':' !in sc'.serviceUuid
    requires sc.characteristicUuid == sc'.characteristicUuid && sc.serviceUuid != sc'.serviceUuid
    ensures Gatt.DelegateKey(u, sc.characteristicUuid) == Gatt.DelegateKey(u, sc'.characteristicUuid)
    ensures DelegateKey(u, sc) != DelegateKey(u, sc')
  {
    DelegateKeyNamesService(u, sc, sc');
  }

  /** read and write fail with `notConnected` exactly when no characteristic is
      known, the link is down or (for write) there is no payload; otherwise they
      issue their command and wait on the operation promise, which neither of
      them touches, so a write without response waits like any other. */
  lemma ActionGuards(c: Client, env: Env, data: Option<Bytes>, withResponse: bool)
    ensures var ok := c.characteristic.Some? && IsConnected(env.peripheral);
            (ReadAction(c, env).action == Refused <==> !ok) &&
            (ok ==> ReadAction(c, env).action == AwaitsOperation &&
                    ReadAction(c, env).commands ==
                      c.commands + [ReadValue(env.peripheral.value.identifier, c.characteristic.value.uuid)])
    ensures var ok := c.characteristic.Some? && IsConnected(env.peripheral) && data.Some?;
            var w := WriteActionAsWritten(c, env, data, withResponse);
            (w.action == Refused <==> !ok) &&
            w.operationSeal == c.operationSeal &&
            (ok ==> w.action == AwaitsOperation &&
                    w.commands ==
                      c.commands + [WriteValue(env.peripheral.value.identifier, c.characteristic.value.uuid, data.value, withResponse)])
  {
  }

  // ---------------------------------------------------------------------------
  // events

  datatype Event =
    | ServicesFound(peripheral: Peripheral, error: Option<string>)
    | CharacteristicsFound(peripheral: Peripheral, service: Service, error: Option<string>)
    | ValueUpdated(peripheral: Peripheral, characteristic: Characteristic, error: Option<string>)
    | ValueWritten(peripheral: Peripheral, characteristic: Characteristic, error: Option<string>)

  datatype Step = Step(env: Env, event: Event)

  /** The body of the callback an event runs. */
  function Body(c: Client, env: Env, prm: Params, e: Event): Client {
    match e
    case ServicesFound(p, err) => OnServices(c, env, prm, p, err)
    case CharacteristicsFound(p, service, err) => OnCharacteristics(c, env, prm, p, service, err)
    case ValueUpdated(p, ch, err) => OnValue(c, env, prm, p, ch, err)
    case ValueWritten(p, _, err) => OnWrite(c, env, p, err)
  }

  /** One callback, then the chain's reaction. */
  function Deliver(c: Client, env: Env, prm: Params, e: Event): Client {
    React(Body(c, env, prm, e), env, prm)
  }

  function Run(c: Client, prm: Params, steps: seq<Step>): Client
    decreases |steps|
  {
    if steps == [] then c else Run(Deliver(c, steps[0].env, prm, steps[0].event), prm, steps[1..])
  }

  /** The error a callback is handed never changes what it does, and the write
      callback does not look at the characteristic either. */
  lemma CallbacksIgnoreError(c: Client, env: Env, prm: Params, e: Event, error: Option<string>,
                             ch: Characteristic)
    ensures Deliver(c, env, prm, e) == Deliver(c, env, prm, e.(error := error))
    ensures e.ValueWritten? ==> Deliver(c, env, prm, e) == Deliver(c, env, prm, e.(characteristic := ch))
  {
  }

  // ---------------------------------------------------------------------------
  // the invariant

  /** The `ensure` step has run exactly when the chain has an outcome; it settled
      the result and took the client's key off an attached device. */
  predicate Inv(c: Client, prm: Params) {
    (c.ensured <==> c.operation.Some? && ChainOutcome(c).Settled()) &&
    (c.ensured ==> c.result.Settled() && (c.attached ==> Key(prm) !in c.delegates)) &&
    (c.result.Settled() ==> c.ensured)
  }

  /** A callback body never touches the chain's bookkeeping, the result or the
      delegate table, and only settles promises. */
  predicate Grows(c: Client, t: Client) {
    t.operation == c.operation && t.locateRefused == c.locateRefused && t.action == c.action &&
    t.attached == c.attached && t.result == c.result && t.ensured == c.ensured && t.delegates == c.delegates &&
    (c.characteristicSeal.Settled() ==> t.characteristicSeal == c.characteristicSeal) &&
    (c.operationSeal.Settled() ==> t.operationSeal == c.operationSeal)
  }

  lemma {:induction false} BodyGrows(c: Client, env: Env, prm: Params, e: Event)
    ensures Grows(c, Body(c, env, prm, e))
  {
    var t := Body(c, env, prm, e);
    match e
    case ServicesFound(p, err) =>
      assert t == c.(characteristicSeal := t.characteristicSeal, commands := t.commands);
    case CharacteristicsFound(p, service, err) =>
      assert t == c.(characteristicSeal := t.characteristicSeal, characteristic := t.characteristic);
    case ValueUpdated(p, ch, err) =>
      assert t == c.(operationSeal := t.operationSeal);
    case ValueWritten(p, _, err) =>
      assert t == c.(operationSeal := t.operationSeal);
  }

  /** A settled chain outcome stays settled while promises only settle. */
  lemma {:induction false} OutcomeStaysSettled(c: Client, t: Client)
    requires Grows(c, t)
    requires ChainOutcome(c).Settled()
    ensures ChainOutcome(t) == ChainOutcome(c)
  {
  }

  /** The chain's reaction turns a state whose `ensure` bookkeeping is sound
      into one satisfying the invariant. */
  lemma {:induction false} ReactRestores(t: Client, env: Env, prm: Params)
    requires t.ensured ==> t.result.Settled() && (t.attached ==> Key(prm) !in t.delegates)
    requires t.result.Settled() ==> t.ensured
    requires t.ensured ==> t.operation.Some? && ChainOutcome(t).Settled()
    ensures Inv(React(t, env, prm), prm)
  {
    var u := Continue(t, env);
    assert u == t.(action := u.action, commands := u.commands, operationSeal := u.operationSeal);
    if !u.ensured && ChainOutcome(u).Settled() {
      assert u.operation.Some?;
    }
  }

  /** Every callback keeps the invariant, and a settled result keeps its outcome. */
  lemma {:induction false} DeliverKeepsInv(c: Client, env: Env, prm: Params, e: Event)
    requires Inv(c, prm)
    ensures Inv(Deliver(c, env, prm, e), prm)
    ensures c.result.Settled() ==> Deliver(c, env, prm, e).result == c.result
  {
    var t := Body(c, env, prm, e);
    BodyGrows(c, env, prm, e);
    if c.ensured {
      OutcomeStaysSettled(c, t);
    }
    ReactRestores(t, env, prm);
    if c.ensured {
      var u := Continue(t, env);
      assert u.result == c.result && u.ensured;
    }
  }

  /** Through any sequence of callbacks the invariant holds and the result,
      once settled, never changes. */
  lemma {:induction false} RunKeepsInv(c: Client, prm: Params, steps: seq<Step>)
    requires Inv(c, prm)
    ensures Inv(Run(c, prm, steps), prm)
    ensures c.result.Settled() ==> Run(c, prm, steps).result == c.result
    decreases |steps|
  {
    if steps != [] {
      DeliverKeepsInv(c, steps[0].env, prm, steps[0].event);
      RunKeepsInv(Deliver(c, steps[0].env, prm, steps[0].event), prm, steps[1..]);
    }
  }

  /** Starting a get or set establishes the invariant. Without a connected
      peripheral it fails at once with `notConnected` and leaves the device's
      delegates alone. */
  lemma {:induction false} BeginEstablishesInv(c: Client, env: Env, prm: Params, op: Operation)
    requires Fresh(c)
    ensures Inv(Begin(c, env, prm, op), prm)
    ensures !IsConnected(env.peripheral) ==>
              Begin(c, env, prm, op).result == Rejected(NotConnected) &&
              Begin(c, env, prm, op).delegates == c.delegates && Begin(c, env, prm, op).commands == []
    ensures IsConnected(env.peripheral) ==>
              Begin(c, env, prm, op).result.Pending? && Key(prm) in Begin(c, env, prm, op).delegates &&
              Begin(c, env, prm, op).commands == [DiscoverServices(env.peripheral.value.identifier, None)]
  {
    var l := Locate(c.(operation := Some(op)), env, prm);
    ReactRestores(l, env, prm);
    if IsConnected(env.peripheral) {
      assert Continue(l, env) == l;
      assert ChainOutcome(l) == Pending;
    }
  }

  /** Whatever callbacks follow, the result of a get or set settles at most once,
      and once it is settled the device no longer holds the client's key. */
  lemma {:induction false} SettlesOnceAndUnsubscribes(c: Client, env: Env, prm: Params, op: Operation,
                                                      steps: seq<Step>)
    requires Fresh(c)
    ensures var r := Run(Begin(c, env, prm, op), prm, steps);
            r.result.Settled() ==> Key(prm) !in r.delegates || !r.attached
    ensures var b := Begin(c, env, prm, op);
            b.result.Settled() ==> Run(b, prm, steps).result == b.result
  {
    BeginEstablishesInv(c, env, prm, op);
    RunKeepsInv(Begin(c, env, prm, op), prm, steps);
  }

  // ---------------------------------------------------------------------------
  // each callback, branch by branch

  /** The chain ended: the `ensure` step ran and an attached device lost the
      client's key. */
  predicate Unsubscribed(c: Client, r: Client, prm: Params) {
    r.ensured && r.delegates == (if c.attached then c.delegates - {Key(prm)} else c.delegates)
  }

  /** `didDiscoverServices` while the characteristic is being located: another
      peripheral fails the get or set with `mismatchedPeripheral`, a missing
      service with `serviceNotFound`; otherwise only the requested
      characteristic of the first matching service is discovered. */
  lemma {:induction false} ServicesReply(c: Client, env: Env, prm: Params, p: Peripheral, err: Option<string>)
    requires Inv(c, prm) && c.operation.Some? && !c.locateRefused && c.characteristicSeal.Pending?
    ensures var r := Deliver(c, env, prm, ServicesFound(p, err));
            !SamePeripheral(c, env, p) ==> r.result == Rejected(MismatchedPeripheral) && Unsubscribed(c, r, prm)
    ensures var r := Deliver(c, env, prm, ServicesFound(p, err));
            SamePeripheral(c, env, p) && FirstService(p.services, prm.sc.serviceUuid).None? ==>
              r.result == Rejected(ServiceNotFound) && Unsubscribed(c, r, prm)
    ensures var r := Deliver(c, env, prm, ServicesFound(p, err));
            var service := FirstService(p.services, prm.sc.serviceUuid);
            SamePeripheral(c, env, p) && service.Some? ==>
              r == c.(commands := c.commands + [DiscoverCharacteristics(p.identifier, [prm.sc.characteristicUuid],
                                                                        service.value.uuid)])
  {
    assert ChainOutcome(c) == Pending;
  }

  /** `didDiscoverCharacteristicsFor` while the characteristic is being located:
      another peripheral or a missing characteristic fails the get or set;
      otherwise the characteristic is kept and the read or write runs at once,
      failing with `notConnected` when the link is down or a set has no payload. */
  lemma {:induction false} CharacteristicsReply(c: Client, env: Env, prm: Params, p: Peripheral, service: Service,
                                                err: Option<string>)
    requires Inv(c, prm) && c.operation.Some? && !c.locateRefused && c.characteristicSeal.Pending?
    requires c.action.NotRun?
    ensures var r := Deliver(c, env, prm, CharacteristicsFound(p, service, err));
            !SamePeripheral(c, env, p) ==> r.result == Rejected(MismatchedPeripheral) && Unsubscribed(c, r, prm)
    ensures var r := Deliver(c, env, prm, CharacteristicsFound(p, service, err));
            SamePeripheral(c, env, p) && FirstCharacteristic(service.characteristics, prm.sc.characteristicUuid).None? ==>
              r.result == Rejected(CharacteristicNotFound) && Unsubscribed(c, r, prm)
    ensures var r := Deliver(c, env, prm, CharacteristicsFound(p, service, err));
            var found := FirstCharacteristic(service.characteristics, prm.sc.characteristicUuid);
            SamePeripheral(c, env, p) && found.Some? ==>
              r.characteristic == found && r.characteristicSeal == Fulfilled(()) && !r.action.NotRun?
    ensures var r := Deliver(c, env, prm, CharacteristicsFound(p, service, err));
            var found := FirstCharacteristic(service.characteristics, prm.sc.characteristicUuid);
            var op := c.operation.value;
            SamePeripheral(c, env, p) && found.Some? && (!IsConnected(env.peripheral) || (op.Set? && op.data.None?)) ==>
              r.result == Rejected(NotConnected) && Unsubscribed(c, r, prm)
    ensures var r := Deliver(c, env, prm, CharacteristicsFound(p, service, err));
            var found := FirstCharacteristic(service.characteristics, prm.sc.characteristicUuid);
            SamePeripheral(c, env, p) && found.Some? && IsConnected(env.peripheral) && c.operation.value.Get? &&
            c.operationSeal.Pending? ==>
              r.action == AwaitsOperation && r.result.Pending? && !r.ensured && r.delegates == c.delegates &&
              r.commands == c.commands + [ReadValue(p.identifier, found.value.uuid)]
    ensures var r := Deliver(c, env, prm, CharacteristicsFound(p, service, err));
            var found := FirstCharacteristic(service.characteristics, prm.sc.characteristicUuid);
            var op := c.operation.value;
            SamePeripheral(c, env, p) && found.Some? && IsConnected(env.peripheral) && op.Set? && op.data.Some? &&
            c.operationSeal.Pending? ==>
              r.action == AwaitsOperation && r.result.Pending? && !r.ensured && r.delegates == c.delegates &&
              r.commands == c.commands + [WriteValue(p.identifier, found.value.uuid, op.data.value, op.withResponse)]
  {
    assert ChainOutcome(c) == Pending;
  }

  /** `didUpdateValueFor` while a read or write waits on the operation promise:
      checked in order, another peripheral, another characteristic and a missing
      value fail it with `mismatchedPeripheral`, `characteristicNotFound` and
      `dataNotPresent`; otherwise it succeeds, and a get stores the value. The
      callback does not know which operation is waiting, so a value update also
      completes a pending set. */
  lemma {:induction false} ValueReply(c: Client, env: Env, prm: Params, p: Peripheral, ch: Characteristic,
                                      err: Option<string>)
    requires Inv(c, prm) && c.operation.Some? && !c.locateRefused && c.characteristicSeal.Fulfilled?
    requires c.action == AwaitsOperation && c.operationSeal.Pending?
    ensures var r := Deliver(c, env, prm, ValueUpdated(p, ch, err));
            !SamePeripheral(c, env, p) ==>
              r.result == Rejected(MismatchedPeripheral) && r.stored == c.stored && Unsubscribed(c, r, prm)
    ensures var r := Deliver(c, env, prm, ValueUpdated(p, ch, err));
            SamePeripheral(c, env, p) && ch.uuid != prm.sc.characteristicUuid ==>
              r.result == Rejected(CharacteristicNotFound) && r.stored == c.stored && Unsubscribed(c, r, prm)
    ensures var r := Deliver(c, env, prm, ValueUpdated(p, ch, err));
            SamePeripheral(c, env, p) && ch.uuid == prm.sc.characteristicUuid && ch.value.None? ==>
              r.result == Rejected(DataNotPresent) && r.stored == c.stored && Unsubscribed(c, r, prm)
    ensures var r := Deliver(c, env, prm, ValueUpdated(p, ch, err));
            SamePeripheral(c, env, p) && ch.uuid == prm.sc.characteristicUuid && ch.value.Some? ==>
              r.result == Fulfilled(()) && Unsubscribed(c, r, prm) &&
              r.stored == (if c.operation.value.Get? then Some(ch.value) else c.stored)
  {
    assert ChainOutcome(c) == Pending;
  }

  /** `didWriteValueFor` while a read or write waits on the operation promise:
      another peripheral fails it with `mismatchedPeripheral`; otherwise it
      succeeds whatever the characteristic, and a get waiting for its value
      stores no data. */
  lemma {:induction false} WriteReply(c: Client, env: Env, prm: Params, p: Peripheral, ch: Characteristic,
                                      err: Option<string>)
    requires Inv(c, prm) && c.operation.Some? && !c.locateRefused && c.characteristicSeal.Fulfilled?
    requires c.action == AwaitsOperation && c.operationSeal.Pending?
    ensures var r := Deliver(c, env, prm, ValueWritten(p, ch, err));
            !SamePeripheral(c, env, p) ==>
              r.result == Rejected(MismatchedPeripheral) && r.stored == c.stored && Unsubscribed(c, r, prm)
    ensures var r := Deliver(c, env, prm, ValueWritten(p, ch, err));
            SamePeripheral(c, env, p) ==>
              r.result == Fulfilled(()) && Unsubscribed(c, r, prm) &&
              r.stored == (if c.operation.value.Get? then Some(None) else c.stored)
  {
    assert ChainOutcome(c) == Pending;
  }

  // ---------------------------------------------------------------------------
  // a whole get, and a write without response

  /** A get on a connected peripheral: every service is discovered, then the
      requested characteristic, then the value is read; the data is stored,
      the get succeeds and the device's delegates are what they were. */
  lemma {:induction false} GetEndToEnd(c: Client, env: Env, prm: Params, q: Peripheral, service: Service,
                                       ch: Characteristic, v: Bytes)
    requires Fresh(c) && IsConnected(env.peripheral) && Key(prm) !in c.delegates
    requires q.identifier == env.peripheral.value.identifier
    requires FirstService(q.services, prm.sc.serviceUuid) == Some(service)
    requires FirstCharacteristic(service.characteristics, prm.sc.characteristicUuid).Some?
    requires ch.uuid == prm.sc.characteristicUuid && ch.value == Some(v)
    ensures var r := Run(Begin(c, env, prm, Get), prm,
                         [Step(env, ServicesFound(q, None)), Step(env, CharacteristicsFound(q, service, None)),
                          Step(env, ValueUpdated(q, ch, None))]);
            var id := env.peripheral.value.identifier;
            r.result == Fulfilled(()) && r.stored == Some(Some(v)) && r.delegates == c.delegates &&
            r.commands == [DiscoverServices(id, None),
                           DiscoverCharacteristics(id, [prm.sc.characteristicUuid], prm.sc.serviceUuid),
                           ReadValue(id, prm.sc.characteristicUuid)]
  {
    var id := env.peripheral.value.identifier;
    var steps := [Step(env, ServicesFound(q, None)), Step(env, CharacteristicsFound(q, service, None)),
                  Step(env, ValueUpdated(q, ch, None))];
    var b := Begin(c, env, prm, Get);
    BeginEstablishesInv(c, env, prm, Get);
    assert b == Locate(c.(operation := Some(Get)), env, prm);
    var s1 := Deliver(b, env, prm, ServicesFound(q, None));
    assert s1 == b.(commands := b.commands + [DiscoverCharacteristics(id, [prm.sc.characteristicUuid], prm.sc.serviceUuid)]);
    var found := FirstCharacteristic(service.characteristics, prm.sc.characteristicUuid);
    var t2 := OnCharacteristics(s1, env, prm, q, service, None);
    assert t2 == s1.(characteristic := found, characteristicSeal := Fulfilled(()));
    var s2 := Deliver(s1, env, prm, CharacteristicsFound(q, service, None));
    assert s2 == t2.(action := AwaitsOperation, commands := t2.commands + [ReadValue(id, found.value.uuid)]);
    var t3 := OnValue(s2, env, prm, q, ch, None);
    assert t3 == s2.(operationSeal := Fulfilled(Some(v)));
    var r := Deliver(s2, env, prm, ValueUpdated(q, ch, None));
    assert r == t3.(ensured := true, result := Fulfilled(()), stored := Some(Some(v)), delegates := t3.delegates - {Key(prm)});
    assert c.delegates[Key(prm) := prm.handle] - {Key(prm)} == c.delegates;
    assert steps[1..][0] == steps[1] && steps[1..][1..][0] == steps[2] && steps[1..][1..][1..] == [];
    assert Run(b, prm, steps) == Run(s1, prm, steps[1..]);
    assert Run(s1, prm, steps[1..]) == Run(s2, prm, steps[1..][1..]);
    assert Run(s2, prm, steps[1..][1..]) == Run(r, prm, []);
  }

  /** As written, a set without response issues the write and then waits for a
      write reply, which a peripheral does not send for such a write: the set
      stays pending and the device keeps the client's key. */
  lemma {:induction false} WriteWithoutResponseWaits(t: Client, env: Env, prm: Params, data: Bytes)
    requires t.operation == Some(Set(Some(data), false)) && !t.locateRefused && !t.ensured && t.attached
    requires t.characteristicSeal.Fulfilled? && t.characteristic.Some? && t.action.NotRun? && t.operationSeal.Pending?
    requires IsConnected(env.peripheral) && Key(prm) in t.delegates && t.result.Pending?
    ensures var r := React(t, env, prm);
            r.result.Pending? && !r.ensured && Key(prm) in r.delegates &&
            r.commands == t.commands + [WriteValue(env.peripheral.value.identifier, t.characteristic.value.uuid, data, false)]
  {
    var w := WriteActionAsWritten(t, env, Some(data), false);
    assert Continue(t, env) == w;
    assert w.action == AwaitsOperation && w.operationSeal.Pending?;
    assert ChainOutcome(w) == Pending;
  }

  /** With the intended write, the same set succeeds on the spot and
      unsubscribes, with no write reply. */
  lemma {:induction false} CorrectedWriteWithoutResponseSettles(t: Client, env: Env, prm: Params, data: Bytes)
    requires t.operation == Some(Set(Some(data), false)) && !t.locateRefused && !t.ensured && t.attached
    requires t.characteristicSeal.Fulfilled? && t.characteristic.Some? && t.action.NotRun? && t.operationSeal.Pending?
    requires IsConnected(env.peripheral)
    ensures var r := Settle(WriteAction(t, env, Some(data), false), prm);
            r.ensured && Key(prm) !in r.delegates && r.result == Fulfil(t.result, ()) &&
            r.commands == t.commands + [WriteValue(env.peripheral.value.identifier, t.characteristic.value.uuid, data, false)]
  {
    var w := WriteAction(t, env, Some(data), false);
    assert w.action == AwaitsOperation && w.operationSeal == Fulfilled(None);
    assert ChainOutcome(w) == Fulfilled(());
  }
}
