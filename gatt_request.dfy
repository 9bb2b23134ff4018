/** GattRequest: a single-use request that locates one characteristic of a
    connected peripheral (service discovery, then characteristic discovery),
    then reads it, writes it or switches its notifications, and settles its
    operation promise once with the result.

    The request's whole observable state is the `Sys` value below: its own
    fields, the delegate map of the target device and the event bus registry.
    Each entry point is a pure transition on `Sys`; the class `GattRequest`
    performs the same steps in place, and each of its methods is proved to
    produce exactly the state the transition describes. */
module Gatt {
  import opened Ble
  import opened Promises
  import E = Errors
  import Events
  import Devices

  /** GattRequestStatus */
  datatype Status =
    | Disconnected
    | DiscoveringServices
    | DiscoveringCharacteristics
    | Reading
    | Writing
    | Notifying
    | TimedOut
    | Completed

  /** Which of get, set and notify the request was started for. */
  datatype Operation =
    | GetValue
    | SetValue(data: Option<Bytes>, withResponse: bool)
    | SetNotify(enabled: bool)

  /** The value the operation promise settles with: the data read, or Void. */
  datatype Outcome = Data(data: Option<Bytes>) | Done

  /** `GattRequest.callTimeout`, in seconds. */
  const CallTimeout: nat := 18

  /** The guard `status != .disconnected || status != .timedOut` that opens
      every delegate callback. No status equals both, so it never fails. */
  function StatusGuard(status: Status): (r: bool)
    ensures r
  {
    status != Status.Disconnected || status != Status.TimedOut
  }

  /** `delegateKey(deviceUuid:)`: "GC", the peripheral identifier and the
      characteristic UUID joined with ":". */
  function DelegateKey(deviceUuid: Uuid, characteristicUuid: Uuid): string {
    "GC:" + deviceUuid + ":" + characteristicUuid
  }

  /** The text before the first ':'. */
  function Field(s: string): string
    decreases |s|
  {
    if s == [] || s[0] == ':' then [] else [s[0]] + Field(s[1..])
  }

  lemma {:induction false} FieldOf(x: string, rest: string)
    requires ':' !in x
    ensures Field(x + ":" + rest) == x
    decreases |x|
  {
    if x == [] {
      assert x + ":" + rest == ":" + rest;
    } else {
      assert (x + ":" + rest)[0] == x[0];
      assert (x + ":" + rest)[1..] == x[1..] + ":" + rest;
      FieldOf(x[1..], rest);
      assert [x[0]] + x[1..] == x;
    }
  }

  /** Delegate keys of two requests coincide exactly when they address the same
      characteristic on the same peripheral (peripheral identifiers contain no ':'). */
  lemma {:induction false} DelegateKeyInjective(a: Uuid, c: Uuid, a': Uuid, c': Uuid)
    requires ':' !in a && ':' !in a'
    ensures DelegateKey(a, c) == DelegateKey(a', c') <==> a == a' && c == c'
  {
    var k, k' := DelegateKey(a, c), DelegateKey(a', c');
    assert k[3..] == a + ":" + c;
    assert k'[3..] == a' + ":" + c';
    if k == k' {
      FieldOf(a, c);
      FieldOf(a', c');
      assert a == a';
      assert c == k[4 + |a|..];
      assert c' == k'[4 + |a'|..];
    }
  }

  // ---------------------------------------------------------------------------
  // The state

  /** What a request knows about its target device: its peripheral, its id and
      whether it is an XYFinderDevice. */
  datatype Env = Env(peripheral: Option<Peripheral>, deviceId: Events.DeviceId, isFinder: bool)

  /** The fixed parameters of a request: the attribute it addresses, its identity
      as a peripheral delegate and its disconnect handler on the event bus. */
  datatype Params = Params(sc: ServiceCharacteristic, handle: Devices.DelegateId, handler: Events.HandlerId)

  /** A request together with the parts of the world it changes.
      - `startKey`: the delegate key the cleanup step removes, known once the
        request passed its connection guard (this is also when the promise
        chain exists);
      - `attached`: `self.device` has been set;
      - `actionStarted`: the chain has run the read, write or setNotify step;
      - `chainDone`: the chain has settled and run its cleanup. */
  datatype Sys = Sys(
    status: Status,
    characteristicSlot: Slot<()>,
    readSlot: Slot<Option<Bytes>>,
    writeSlot: Slot<()>,
    notifySlot: Slot<()>,
    operationSlot: Slot<Outcome>,
    operation: Option<Operation>,
    startKey: Option<string>,
    attached: bool,
    characteristic: Option<Characteristic>,
    timerArmed: bool,
    disconnectSubKey: Option<Events.Key>,
    actionStarted: bool,
    chainDone: bool,
    commands: seq<Command>,
    delegates: map<string, Devices.DelegateId>,
    registry: Events.Registry,
    nextKey: Events.Key)

  /** A request as constructed: nothing started, every promise pending. */
  predicate Fresh(s: Sys) {
    s.status == Status.Disconnected && s.characteristicSlot.Pending? && s.readSlot.Pending? &&
    s.writeSlot.Pending? && s.notifySlot.Pending? && s.operationSlot.Pending? && s.operation.None? &&
    s.startKey.None? && !s.attached && s.characteristic.None? && !s.timerArmed &&
    s.disconnectSubKey.None? && !s.actionStarted && !s.chainDone && s.commands == []
  }

  // ---------------------------------------------------------------------------
  // get / set / notify and getCharacteristic

  /** `get(from:)`, `set(to:valueObj:withResponse:)` and `notify(for:enabled:)`:
      reject at once when not connected; otherwise subscribe to disconnect
      events, arm the timer, locate the characteristic and build the chain. */
  function Begin(s: Sys, env: Env, prm: Params, op: Operation): Sys {
    if !IsConnected(env.peripheral) then
      s.(operation := Some(op), operationSlot := Reject(s.operationSlot, E.NotConnected))
    else
      Propagate(Locate(Armed(s, env, prm, op), env, prm), env)
  }

  /** The request once past the connection guard: subscribed to disconnect
      events under a fresh key, timer armed, cleanup key fixed. */
  function Armed(s: Sys, env: Env, prm: Params, op: Operation): Sys
    requires env.peripheral.Some?
  {
    s.(operation := Some(op),
       disconnectSubKey := Some(s.nextKey),
       registry := Events.Appended(s.registry, [Events.Disconnected], Events.Directive(s.nextKey, prm.handler, None)),
       nextKey := s.nextKey + 1,
       timerArmed := true,
       startKey := Some(DelegateKey(env.peripheral.value.identifier, prm.sc.characteristicUuid)))
  }

  /** The characteristic already cached on the peripheral, if any. */
  function Cached(p: Peripheral, sc: ServiceCharacteristic): (r: Option<Characteristic>)
    ensures r.Some? ==> r.value.uuid == sc.characteristicUuid
  {
    var service := FirstService(p.services, sc.serviceUuid);
    if service.Some? then FirstCharacteristic(service.value.characteristics, sc.characteristicUuid) else None
  }

  /** `device.subscribe(self, key:)`: an entry already under the key is kept. */
  function Attached(s: Sys, key: string, handle: Devices.DelegateId): Sys {
    s.(attached := true, delegates := if key in s.delegates then s.delegates else s.delegates[key := handle])
  }

  /** `getCharacteristic(_:)` */
  function Locate(s: Sys, env: Env, prm: Params): Sys {
    if s.status == Status.TimedOut || !IsConnected(env.peripheral) then
      s.(characteristicSlot := Reject(s.characteristicSlot, E.NotConnected))
    else
      var p := env.peripheral.value;
      var s1 := Attached(s, DelegateKey(p.identifier, prm.sc.characteristicUuid), prm.handle);
      var cached := Cached(p, prm.sc);
      if cached.Some? then
        s1.(characteristic := cached, characteristicSlot := Fulfil(s1.characteristicSlot, ()))
      else
        s1.(status := DiscoveringServices,
            commands := s1.commands + [DiscoverServices(p.identifier, Some([prm.sc.serviceUuid]))])
  }

  // ---------------------------------------------------------------------------
  // read / write / setNotify

  /** The guard shared by the three actions. */
  predicate CanAct(s: Sys, env: Env) {
    s.status != Status.TimedOut && s.characteristic.Some? && IsConnected(env.peripheral)
  }

  /** `read(_:)` */
  function ReadStep(s: Sys, env: Env): Sys {
    if CanAct(s, env) then
      s.(status := Reading,
         commands := s.commands + [ReadValue(env.peripheral.value.identifier, s.characteristic.value.uuid)])
    else
      s.(readSlot := Reject(s.readSlot, E.NotConnected))
  }

  /** `write(_:data:withResponse:)`: a write without response is done once issued. */
  function WriteStep(s: Sys, env: Env, data: Option<Bytes>, withResponse: bool): Sys {
    if CanAct(s, env) && data.Some? then
      var s1 := s.(status := Writing,
                   commands := s.commands + [WriteValue(env.peripheral.value.identifier, s.characteristic.value.uuid,
                                                        data.value, withResponse)]);
      if withResponse then s1 else s1.(writeSlot := Fulfil(s1.writeSlot, ()))
    else
      s.(writeSlot := Reject(s.writeSlot, E.NotConnected))
  }

  /** `setNotify(_:enabled:)` */
  function NotifyStep(s: Sys, env: Env, enabled: bool): Sys {
    if CanAct(s, env) then
      s.(status := Notifying,
         commands := s.commands + [SetNotifyValue(env.peripheral.value.identifier, enabled, s.characteristic.value.uuid)])
    else
      s.(notifySlot := Reject(s.notifySlot, E.NotConnected))
  }

  /** The action the operation's `then` step runs. */
  function Act(s: Sys, env: Env, op: Operation): Sys {
    match op
    case GetValue => ReadStep(s, env)
    case SetValue(data, withResponse) => WriteStep(s, env, data, withResponse)
    case SetNotify(enabled) => NotifyStep(s, env, enabled)
  }

  // ---------------------------------------------------------------------------
  // the promise chain: getCharacteristic().then(action).always(cleanup).catch(...)

  function LiftData(slot: Slot<Option<Bytes>>): Slot<Outcome> {
    match slot
    case Pending => Pending
    case Fulfilled(v) => Fulfilled(Data(v))
    case Rejected(e) => Rejected(e)
  }

  function LiftDone(slot: Slot<()>): Slot<Outcome> {
    match slot
    case Pending => Pending
    case Fulfilled(_) => Fulfilled(Done)
    case Rejected(e) => Rejected(e)
  }

  /** The action promise of an operation, as the chain sees it. */
  function ActionOutcome(s: Sys, op: Operation): Slot<Outcome> {
    match op
    case GetValue => LiftData(s.readSlot)
    case SetValue(_, _) => LiftDone(s.writeSlot)
    case SetNotify(_) => LiftDone(s.notifySlot)
  }

  /** The outcome of the chain before its cleanup step: the characteristic
      promise's rejection, or once the action has run, the action promise's. */
  function ChainOutcome(s: Sys): Slot<Outcome> {
    if s.startKey.None? || s.operation.None? then Pending
    else
      match s.characteristicSlot
      case Pending => Pending
      case Rejected(e) => Rejected(e)
      case Fulfilled(_) => if s.actionStarted then ActionOutcome(s, s.operation.value) else Pending
  }

  /** The `then` step: once the characteristic is located, run the action. */
  function Continue(s: Sys, env: Env): Sys {
    if s.startKey.Some? && s.operation.Some? && s.characteristicSlot.Fulfilled? && !s.actionStarted then
      Act(s.(actionStarted := true), env, s.operation.value)
    else s
  }

  /** `unsubscribe(to: [.disconnected], referenceKey: disconnectSubKey)` */
  function Unsubscribed(s: Sys): Sys {
    s.(registry := if s.disconnectSubKey.Some?
                   then Events.Removed(s.registry, [Events.Disconnected], s.disconnectSubKey.value)
                   else s.registry)
  }

  /** The `always` step: unsubscribe the delegate, drop the timer, unsubscribe
      from disconnect events. */
  function Cleanup(s: Sys): Sys
    requires s.startKey.Some?
  {
    Unsubscribed(s.(delegates := s.delegates - {s.startKey.value}, timerArmed := false))
  }

  /** Once the chain has an outcome: clean up, and settle the operation promise with it. */
  function Resolve(s: Sys): Sys {
    if !s.chainDone && ChainOutcome(s).Settled() then
      Cleanup(s.(chainDone := true, operationSlot := Adopt(s.operationSlot, ChainOutcome(s))))
    else s
  }

  /** The chain's reaction to whatever was just settled. */
  function Propagate(s: Sys, env: Env): Sys {
    Resolve(Continue(s, env))
  }

  // ---------------------------------------------------------------------------
  // delegate callbacks (their bodies; the chain reacts afterwards)

  /** `self.device?.peripheral == peripheral` */
  predicate SamePeripheral(s: Sys, env: Env, p: Peripheral) {
    s.attached && env.peripheral.Some? && env.peripheral.value.identifier == p.identifier
  }

  /** `peripheral(_:didDiscoverServices:)` */
  function OnServices(s: Sys, env: Env, prm: Params, p: Peripheral, error: Option<string>): Sys {
    if !StatusGuard(s.status) then s
    else if error.Some? then
      s.(characteristicSlot := Reject(s.characteristicSlot, E.CbPeripheralDelegateError(error.value)))
    else if !SamePeripheral(s, env, p) then
      s.(characteristicSlot := Reject(s.characteristicSlot, E.MismatchedPeripheral))
    else
      var service := FirstService(p.services, prm.sc.serviceUuid);
      if service.None? then
        s.(characteristicSlot := Reject(s.characteristicSlot, E.ServiceNotFound))
      else
        s.(status := DiscoveringCharacteristics,
           commands := s.commands + [DiscoverCharacteristics(p.identifier, [prm.sc.characteristicUuid], service.value.uuid)])
  }

  /** `peripheral(_:didDiscoverCharacteristicsFor:error:)` */
  function OnCharacteristics(s: Sys, env: Env, prm: Params, p: Peripheral, service: Service, error: Option<string>): Sys {
    if !StatusGuard(s.status) then s
    else if error.Some? then
      s.(characteristicSlot := Reject(s.characteristicSlot, E.CbPeripheralDelegateError(error.value)))
    else if !SamePeripheral(s, env, p) then
      s.(characteristicSlot := Reject(s.characteristicSlot, E.MismatchedPeripheral))
    else
      var found := FirstCharacteristic(service.characteristics, prm.sc.characteristicUuid);
      if found.None? then
        s.(characteristicSlot := Reject(s.characteristicSlot, E.CharacteristicNotFound))
      else
        s.(characteristic := found, characteristicSlot := Fulfil(s.characteristicSlot, ()))
  }

  /** `peripheral(_:didUpdateValueFor:error:)` */
  function OnValue(s: Sys, env: Env, prm: Params, p: Peripheral, c: Characteristic, error: Option<string>): Sys {
    if !StatusGuard(s.status) then s
    else if error.Some? then s.(readSlot := Reject(s.readSlot, E.CbPeripheralDelegateError(error.value)))
    else if !SamePeripheral(s, env, p) then s.(readSlot := Reject(s.readSlot, E.MismatchedPeripheral))
    else if c.uuid != prm.sc.characteristicUuid then s.(readSlot := Reject(s.readSlot, E.CharacteristicNotFound))
    else if c.value.None? then s.(readSlot := Reject(s.readSlot, E.DataNotPresent))
    else s.(status := Completed, readSlot := Fulfil(s.readSlot, c.value))
  }

  /** `peripheral(_:didWriteValueFor:error:)` */
  function OnWrite(s: Sys, env: Env, prm: Params, p: Peripheral, c: Characteristic, error: Option<string>): Sys {
    if !StatusGuard(s.status) then s
    else if error.Some? then s.(writeSlot := Reject(s.writeSlot, E.CbPeripheralDelegateError(error.value)))
    else if !SamePeripheral(s, env, p) then s.(writeSlot := Reject(s.writeSlot, E.MismatchedPeripheral))
    else if c.uuid != prm.sc.characteristicUuid then s.(writeSlot := Reject(s.writeSlot, E.CharacteristicNotFound))
    else s.(writeSlot := Fulfil(s.writeSlot, ()))
  }

  /** `peripheral(_:didUpdateNotificationStateFor:error:)`: the characteristic is not checked. */
  function OnNotificationState(s: Sys, env: Env, p: Peripheral, error: Option<string>): Sys {
    if !StatusGuard(s.status) then s
    else if error.Some? then s.(notifySlot := Reject(s.notifySlot, E.CbPeripheralDelegateError(error.value)))
    else if !SamePeripheral(s, env, p) then s.(notifySlot := Reject(s.notifySlot, E.MismatchedPeripheral))
    else s.(notifySlot := Fulfil(s.notifySlot, ()))
  }

  // ---------------------------------------------------------------------------
  // timer and disconnect handlers

  /** Rejects the promise of the operation's action. */
  function RejectAction(s: Sys, error: E.XYBluetoothError): Sys {
    match s.operation
    case None => s
    case Some(GetValue) => s.(readSlot := Reject(s.readSlot, error))
    case Some(SetValue(_, _)) => s.(writeSlot := Reject(s.writeSlot, error))
    case Some(SetNotify(_)) => s.(notifySlot := Reject(s.notifySlot, error))
  }

  /** The timer handler as written: records the timeout and rejects the action
      promise; for notify it rejects the operation promise as well. The chain
      waits on the characteristic promise until the action has started, so a
      request still locating its characteristic is never cleaned up, and a get
      or set is never settled (see OnTimer for the intended handler). */
  function OnTimerAsWritten(s: Sys): Sys {
    var s1 := RejectAction(s.(timerArmed := false, status := Status.TimedOut), E.TimedOut);
    if s.operation.Some? && s.operation.value.SetNotify? then
      s1.(operationSlot := Reject(s1.operationSlot, E.TimedOut))
    else s1
  }

  /** The timer handler with its evident intent ("self-cleaning if we
      timeout"): besides the above it rejects the characteristic promise and,
      for every operation, the operation promise, so the chain settles and
      cleans up whatever stage the request is in. */
  function OnTimer(s: Sys): Sys {
    var s1 := OnTimerAsWritten(s);
    s1.(characteristicSlot := Reject(s1.characteristicSlot, E.TimedOut),
        operationSlot := Reject(s1.operationSlot, E.TimedOut))
  }

  /** `self as? XYFinderDevice` in the timer handler: `self` is the request,
      which is not a device. */
  const RequestIsFinderDevice: bool := false

  function OperationKind(op: Operation): Events.OperationKind {
    match op
    case GetValue => Events.GetOperation
    case SetValue(_, _) => Events.SetOperation
    case SetNotify(_) => Events.NotifyOperation
  }

  /** The events the timer handler reports: none, since its cast never succeeds. */
  function TimeoutReports(op: Operation, device: Events.DeviceId): (r: seq<Events.Notification>)
    ensures r == []
  {
    if RequestIsFinderDevice then [Events.Notification(Events.TimedOut, device, Some(OperationKind(op)))] else []
  }

  /** The peripheral state carried by a disconnect rejection. */
  function LastState(env: Env): Option<PeripheralState> {
    if env.peripheral.Some? then Some(env.peripheral.value.state) else None
  }

  /** The disconnect handler: always unsubscribes itself; only a disconnect of
      the request's own finder device stops the timer and rejects. */
  function OnDisconnect(s: Sys, env: Env, eventDevice: Events.DeviceId): Sys {
    var s1 := Unsubscribed(s);
    if !(s.attached && env.isFinder && env.deviceId == eventDevice) then s1
    else
      var error := E.PeripheralDisconected(LastState(env));
      var s2 := RejectAction(s1.(timerArmed := false, status := Status.Disconnected), error);
      s2.(operationSlot := Reject(s2.operationSlot, error))
  }

  // ---------------------------------------------------------------------------
  // the class

  class GattRequest {
    const serviceCharacteristic: ServiceCharacteristic
    /** `specifiedTimeout`, in seconds. */
    const specifiedTimeout: nat
    /** This request as a delegate of the device. */
    const handle: Devices.DelegateId
    /** This request's disconnect handler on the event bus. */
    const handler: Events.HandlerId
    /** The device the request is made for. */
    const target: Devices.BluetoothDevice
    const bus: Events.EventManager

    var status: Status
    var characteristicSlot: Slot<()>
    var readSlot: Slot<Option<Bytes>>
    var writeSlot: Slot<()>
    var notifySlot: Slot<()>
    /** The promise `get`, `set` or `notify` returned. */
    var operationSlot: Slot<Outcome>
    var operation: Option<Operation>
    var startKey: Option<string>
    var attached: bool
    var characteristic: Option<Characteristic>
    var timerArmed: bool
    var disconnectSubKey: Option<Events.Key>
    var actionStarted: bool
    var chainDone: bool
    /** Commands issued to the peripheral, oldest first. */
    var commands: seq<Command>

    function Parameters(): Params {
      Params(serviceCharacteristic, handle, handler)
    }

    function Environment(): Env
      reads target
    {
      Env(target.peripheral, target.id, target.connectableServices.Some?)
    }

    function State(): Sys
      reads this, target, bus
    {
      Sys(status, characteristicSlot, readSlot, writeSlot, notifySlot, operationSlot, operation, startKey,
          attached, characteristic, timerArmed, disconnectSubKey, actionStarted, chainDone, commands,
          target.delegates, bus.registry, bus.nextKey)
    }

    /** `init(_:timeout:)`: the timeout defaults to `callTimeout`. */
    constructor (serviceCharacteristic: ServiceCharacteristic, timeout: Option<nat>, handle: Devices.DelegateId,
                 handler: Events.HandlerId, target: Devices.BluetoothDevice, bus: Events.EventManager)
      ensures this.serviceCharacteristic == serviceCharacteristic && this.handle == handle && this.handler == handler
      ensures this.target == target && this.bus == bus
      ensures specifiedTimeout == if timeout.Some? then timeout.value else CallTimeout
      ensures Fresh(State())
    {
      this.serviceCharacteristic := serviceCharacteristic;
      this.specifiedTimeout := if timeout.Some? then timeout.value else CallTimeout;
      this.handle, this.handler, this.target, this.bus := handle, handler, target, bus;
      status := Status.Disconnected;
      characteristicSlot, readSlot, writeSlot, notifySlot, operationSlot := Pending, Pending, Pending, Pending, Pending;
      operation, startKey, attached, characteristic := None, None, false, None;
      timerArmed, disconnectSubKey, actionStarted, chainDone := false, None, false, false;
      commands := [];
    }

    /** `get(from:)` */
    method Get()
      requires Fresh(State())
      modifies this, target`delegates, bus
      ensures State() == Begin(old(State()), Environment(), Parameters(), GetValue)
    {
      Start(GetValue);
    }

    /** `set(to:valueObj:withResponse:)`, with a response unless asked otherwise. */
    method Set(data: Option<Bytes>, withResponse: bool := true)
      requires Fresh(State())
      modifies this, target`delegates, bus
      ensures State() == Begin(old(State()), Environment(), Parameters(), SetValue(data, withResponse))
    {
      Start(SetValue(data, withResponse));
    }

    /** `notify(for:enabled:)` */
    method Notify(enabled: bool)
      requires Fresh(State())
      modifies this, target`delegates, bus
      ensures State() == Begin(old(State()), Environment(), Parameters(), SetNotify(enabled))
    {
      Start(SetNotify(enabled));
    }

    /** The body shared by `get`, `set` and `notify`. */
    method Start(op: Operation)
      requires Fresh(State())
      modifies this, target`delegates, bus
      ensures State() == Begin(old(State()), Environment(), Parameters(), op)
    {
      if !IsConnected(target.peripheral) {
        operation := Some(op);
        operationSlot := Reject(operationSlot, E.NotConnected);
        return;
      }
      ghost var env := Environment();
      Arm(op);
      ghost var s1 := State();
      GetCharacteristic();
      assert State() == Locate(s1, env, Parameters());
      RunChain();
    }

    /** Past the connection guard: subscribe to disconnects, arm the timer, fix the cleanup key. */
    method Arm(op: Operation)
      requires IsConnected(target.peripheral)
      modifies this, bus
      ensures State() == Armed(old(State()), Environment(), Parameters(), op)
    {
      operation := Some(op);
      var sub := bus.Subscribe([Events.Disconnected], None, handler);
      disconnectSubKey := Some(sub);
      timerArmed := true;
      startKey := Some(DelegateKey(target.peripheral.value.identifier, serviceCharacteristic.characteristicUuid));
    }

    /** `getCharacteristic(_:)` */
    method GetCharacteristic()
      modifies this, target`delegates
      ensures State() == Locate(old(State()), Environment(), Parameters())
    {
      if status == Status.TimedOut || !IsConnected(target.peripheral) {
        characteristicSlot := Reject(characteristicSlot, E.NotConnected);
        return;
      }
      var p := target.peripheral.value;
      Attach(DelegateKey(p.identifier, serviceCharacteristic.characteristicUuid));
      ghost var s1 := State();
      var cached := Cached(p, serviceCharacteristic);
      if cached.Some? {
        characteristic := cached;
        characteristicSlot := Fulfil(characteristicSlot, ());
        assert State() == s1.(characteristic := cached, characteristicSlot := Fulfil(s1.characteristicSlot, ()));
      } else {
        status := DiscoveringServices;
        commands := commands + [DiscoverServices(p.identifier, Some([serviceCharacteristic.serviceUuid]))];
        assert State() == s1.(status := DiscoveringServices,
                              commands := s1.commands + [DiscoverServices(p.identifier, Some([serviceCharacteristic.serviceUuid]))]);
      }
    }

    /** Registers the request as the device's delegate under the key. */
    method Attach(key: string)
      modifies this, target`delegates
      ensures State() == Attached(old(State()), key, handle)
    {
      attached := true;
      target.Subscribe(handle, key);
    }

    /** `read(_:)` */
    method Read()
      modifies this
      ensures State() == ReadStep(old(State()), Environment())
    {
      if !(status != Status.TimedOut && characteristic.Some? && IsConnected(target.peripheral)) {
        readSlot := Reject(readSlot, E.NotConnected);
        return;
      }
      status := Reading;
      commands := commands + [ReadValue(target.peripheral.value.identifier, characteristic.value.uuid)];
    }

    /** `write(_:data:withResponse:)` */
    method Write(data: Option<Bytes>, withResponse: bool)
      modifies this
      ensures State() == WriteStep(old(State()), Environment(), data, withResponse)
    {
      if !(status != Status.TimedOut && characteristic.Some? && IsConnected(target.peripheral) && data.Some?) {
        writeSlot := Reject(writeSlot, E.NotConnected);
        return;
      }
      status := Writing;
      commands := commands + [WriteValue(target.peripheral.value.identifier, characteristic.value.uuid,
                                         data.value, withResponse)];
      if !withResponse {
        writeSlot := Fulfil(writeSlot, ());
      }
    }

    /** `setNotify(_:enabled:)` */
    method SetNotifyState(enabled: bool)
      modifies this
      ensures State() == NotifyStep(old(State()), Environment(), enabled)
    {
      if !(status != Status.TimedOut && characteristic.Some? && IsConnected(target.peripheral)) {
        notifySlot := Reject(notifySlot, E.NotConnected);
        return;
      }
      status := Notifying;
      commands := commands + [SetNotifyValue(target.peripheral.value.identifier, enabled, characteristic.value.uuid)];
    }

    /** The chain's `then`, `always` and `catch` steps, run after anything settles. */
    method RunChain()
      modifies this, target`delegates, bus
      ensures State() == Propagate(old(State()), Environment())
    {
      ThenStep();
      AlwaysStep();
    }

    /** `.then { action }`: runs the action once the characteristic is located. */
    method ThenStep()
      modifies this
      ensures State() == Continue(old(State()), Environment())
    {
      if startKey.Some? && operation.Some? && characteristicSlot.Fulfilled? && !actionStarted {
        actionStarted := true;
        match operation.value
        case GetValue => Read();
        case SetValue(data, withResponse) => Write(data, withResponse);
        case SetNotify(enabled) => SetNotifyState(enabled);
      }
    }

    /** `.always { cleanup }.catch { ... }`: once the chain has an outcome. */
    method AlwaysStep()
      modifies this, target`delegates, bus
      ensures State() == Resolve(old(State()))
    {
      var outcome := ChainOutcome(State());
      if !chainDone && outcome.Settled() {
        ghost var s0 := State();
        chainDone := true;
        operationSlot := Adopt(operationSlot, outcome);
        ghost var s1 := State();
        assert s1 == s0.(chainDone := true, operationSlot := Adopt(s0.operationSlot, outcome));
        target.Unsubscribe(startKey.value);
        timerArmed := false;
        UnsubscribeFromDisconnects();
        assert State() == Cleanup(s1);
      }
    }

    /** `peripheral(_:didDiscoverServices:)` */
    method DidDiscoverServices(p: Peripheral, error: Option<string>)
      modifies this, target`delegates, bus
      ensures State() == Propagate(OnServices(old(State()), Environment(), Parameters(), p, error), Environment())
    {
      if !StatusGuard(status) {
        return;
      }
      if error.Some? {
        characteristicSlot := Reject(characteristicSlot, E.CbPeripheralDelegateError(error.value));
      } else if !(attached && target.peripheral.Some? && target.peripheral.value.identifier == p.identifier) {
        characteristicSlot := Reject(characteristicSlot, E.MismatchedPeripheral);
      } else {
        var service := FirstService(p.services, serviceCharacteristic.serviceUuid);
        if service.None? {
          characteristicSlot := Reject(characteristicSlot, E.ServiceNotFound);
        } else {
          status := DiscoveringCharacteristics;
          commands := commands + [DiscoverCharacteristics(p.identifier, [serviceCharacteristic.characteristicUuid],
                                                          service.value.uuid)];
        }
      }
      RunChain();
    }

    /** `peripheral(_:didDiscoverCharacteristicsFor:error:)` */
    method DidDiscoverCharacteristics(p: Peripheral, service: Service, error: Option<string>)
      modifies this, target`delegates, bus
      ensures State() == Propagate(OnCharacteristics(old(State()), Environment(), Parameters(), p, service, error),
                                   Environment())
    {
      if !StatusGuard(status) {
        return;
      }
      if error.Some? {
        characteristicSlot := Reject(characteristicSlot, E.CbPeripheralDelegateError(error.value));
      } else if !(attached && target.peripheral.Some? && target.peripheral.value.identifier == p.identifier) {
        characteristicSlot := Reject(characteristicSlot, E.MismatchedPeripheral);
      } else {
        var found := FirstCharacteristic(service.characteristics, serviceCharacteristic.characteristicUuid);
        if found.None? {
          characteristicSlot := Reject(characteristicSlot, E.CharacteristicNotFound);
        } else {
          characteristic := found;
          characteristicSlot := Fulfil(characteristicSlot, ());
        }
      }
      RunChain();
    }

    /** `peripheral(_:didUpdateValueFor:error:)` */
    method DidUpdateValue(p: Peripheral, c: Characteristic, error: Option<string>)
      modifies this, target`delegates, bus
      ensures State() == Propagate(OnValue(old(State()), Environment(), Parameters(), p, c, error), Environment())
    {
      if !StatusGuard(status) {
        return;
      }
      if error.Some? {
        readSlot := Reject(readSlot, E.CbPeripheralDelegateError(error.value));
      } else if !(attached && target.peripheral.Some? && target.peripheral.value.identifier == p.identifier) {
        readSlot := Reject(readSlot, E.MismatchedPeripheral);
      } else if c.uuid != serviceCharacteristic.characteristicUuid {
        readSlot := Reject(readSlot, E.CharacteristicNotFound);
      } else if c.value.None? {
        readSlot := Reject(readSlot, E.DataNotPresent);
      } else {
        status := Completed;
        readSlot := Fulfil(readSlot, c.value);
      }
      RunChain();
    }

    /** `peripheral(_:didWriteValueFor:error:)` */
    method DidWriteValue(p: Peripheral, c: Characteristic, error: Option<string>)
      modifies this, target`delegates, bus
      ensures State() == Propagate(OnWrite(old(State()), Environment(), Parameters(), p, c, error), Environment())
    {
      if !StatusGuard(status) {
        return;
      }
      if error.Some? {
        writeSlot := Reject(writeSlot, E.CbPeripheralDelegateError(error.value));
      } else if !(attached && target.peripheral.Some? && target.peripheral.value.identifier == p.identifier) {
        writeSlot := Reject(writeSlot, E.MismatchedPeripheral);
      } else if c.uuid != serviceCharacteristic.characteristicUuid {
        writeSlot := Reject(writeSlot, E.CharacteristicNotFound);
      } else {
        writeSlot := Fulfil(writeSlot, ());
      }
      RunChain();
    }

    /** `peripheral(_:didUpdateNotificationStateFor:error:)` */
    method DidUpdateNotificationState(p: Peripheral, c: Characteristic, error: Option<string>)
      modifies this, target`delegates, bus
      ensures State() == Propagate(OnNotificationState(old(State()), Environment(), p, error), Environment())
    {
      if !StatusGuard(status) {
        return;
      }
      if error.Some? {
        notifySlot := Reject(notifySlot, E.CbPeripheralDelegateError(error.value));
      } else if !(attached && target.peripheral.Some? && target.peripheral.value.identifier == p.identifier) {
        notifySlot := Reject(notifySlot, E.MismatchedPeripheral);
      } else {
        notifySlot := Fulfil(notifySlot, ());
      }
      RunChain();
    }

    /** Rejects the promise of the operation's action. */
    method RejectActionSlot(error: E.XYBluetoothError)
      modifies this
      ensures State() == RejectAction(old(State()), error)
    {
      match operation
      case None =>
      case Some(GetValue) => readSlot := Reject(readSlot, error);
      case Some(SetValue(_, _)) => writeSlot := Reject(writeSlot, error);
      case Some(SetNotify(_)) => notifySlot := Reject(notifySlot, error);
    }

    method UnsubscribeFromDisconnects()
      modifies bus
      ensures State() == Unsubscribed(old(State()))
    {
      bus.Unsubscribe([Events.Disconnected], disconnectSubKey);
    }

    /** The timer fires (only while it is armed); returns the events it reports.
        The closure runs as written, then the chain reacts. */
    method TimerFires() returns (reported: seq<Events.Notification>)
      requires timerArmed
      modifies this, target`delegates, bus
      ensures State() == Propagate(OnTimerAsWritten(old(State())), Environment())
      ensures reported == []
    {
      reported := TimerBody();
      RunChain();
    }

    /** The body of the timer closure as written. */
    method TimerBody() returns (reported: seq<Events.Notification>)
      modifies this
      ensures State() == OnTimerAsWritten(old(State()))
      ensures reported == []
    {
      ghost var s0 := State();
      reported := if operation.Some? then TimeoutReports(operation.value, target.id) else [];
      timerArmed := false;
      status := Status.TimedOut;
      RejectActionSlot(E.TimedOut);
      ghost var s1 := State();
      assert s1 == RejectAction(s0.(timerArmed := false, status := Status.TimedOut), E.TimedOut);
      if operation.Some? && operation.value.SetNotify? {
        operationSlot := Reject(operationSlot, E.TimedOut);
      }
    }

    /** The disconnect handler, called by the event bus with the event's device. */
    method DisconnectHandler(eventDevice: Events.DeviceId)
      modifies this, target`delegates, bus
      ensures State() == Propagate(OnDisconnect(old(State()), Environment(), eventDevice), Environment())
    {
      ghost var s0 := State();
      ghost var env := Environment();
      UnsubscribeFromDisconnects();
      ghost var s1 := State();
      if !(attached && target.connectableServices.Some? && target.id == eventDevice) {
        assert s1 == OnDisconnect(s0, env, eventDevice);
        RunChain();
        return;
      }
      var error := E.PeripheralDisconected(if target.peripheral.Some? then Some(target.peripheral.value.state) else None);
      timerArmed := false;
      status := Status.Disconnected;
      RejectActionSlot(error);
      ghost var s2 := State();
      assert s2 == RejectAction(s1.(timerArmed := false, status := Status.Disconnected), error);
      operationSlot := Reject(operationSlot, error);
      assert State() == OnDisconnect(s0, env, eventDevice);
      RunChain();
    }
  }
}
