/** The sample application's GattClient: an earlier, simpler form of the
    request engine. It locates a characteristic, then reads or writes it,
    settling PromiseKit promises from the peripheral's delegate callbacks; it
    has no timer, no status and no disconnect handling, and its callbacks never
    look at the error they are given.

    As for the request engine, the client and the parts of the world it
    changes are described by a value (`Client`) with one function per event,
    and the class performs the same steps in place. */
module SampleGatt {
  import opened Ble
  import Devices

  /** `GattError` */
  datatype GattError = NotConnected | MismatchedPeripheral | ServiceNotFound | CharacteristicNotFound | DataNotPresent

  /** A PromiseKit promise with its seal: pending until settled once. */
  datatype Seal<+T> = Pending | Fulfilled(value: T) | Rejected(error: GattError)
  {
    predicate Settled() { !Pending? }
  }

  /** `seal.fulfill(v)` */
  function Fulfil<T>(s: Seal<T>, v: T): (r: Seal<T>)
    ensures s.Settled() ==> r == s
    ensures s.Pending? ==> r == Fulfilled(v)
  {
    if s.Pending? then Fulfilled(v) else s
  }

  /** `seal.reject(e)` */
  function Reject<T>(s: Seal<T>, e: GattError): (r: Seal<T>)
    ensures s.Settled() ==> r == s
    ensures s.Pending? ==> r == Rejected(e)
  {
    if s.Pending? then Rejected(e) else s
  }

  /** `delegateKey(deviceUuid:)`: "GC", the device UUID, the service UUID and the
      characteristic UUID joined with ":". */
  function DelegateKey(deviceUuid: string, sc: ServiceCharacteristic): string {
    "GC:" + deviceUuid + ":" + sc.serviceUuid + ":" + sc.characteristicUuid
  }

  datatype Operation = Get | Set(data: Option<Bytes>, withResponse: bool)

  /** The promise the chain's `then` step returned: not run yet, a promise the
      action's guard rejected with `notConnected`, or the shared operation
      promise. */
  datatype Action = NotRun | Refused | AwaitsOperation

  /** What the client sees of the device when an event arrives: its peripheral. */
  datatype Env = Env(peripheral: Option<Peripheral>)

  /** The attribute addressed, the client's identity as a delegate and the
      device's UUID. */
  datatype Params = Params(sc: ServiceCharacteristic, handle: Devices.DelegateId, deviceUuid: string)

  /** The key the client subscribes and unsubscribes under. */
  function Key(prm: Params): string {
    DelegateKey(prm.deviceUuid, prm.sc)
  }

  /** A client together with the device's delegate table.
      - `attached`: `self.device` has been set;
      - `locateRefused`: `getCharacteristic` returned a promise already rejected
        with `notConnected`;
      - `result`: the promise `get` or `set` returned;
      - `stored`: the data `get`'s `done` step handed to the value object;
      - `ensured`: the `ensure` step has run. */
  datatype Client = Client(
    characteristicSeal: Seal<()>,
    operationSeal: Seal<Option<Bytes>>,
    attached: bool,
    characteristic: Option<Characteristic>,
    operation: Option<Operation>,
    locateRefused: bool,
    action: Action,
    result: Seal<()>,
    stored: Option<Option<Bytes>>,
    ensured: bool,
    commands: seq<Command>,
    delegates: map<string, Devices.DelegateId>)

  /** A client as constructed. */
  predicate Fresh(c: Client) {
    c.characteristicSeal.Pending? && c.operationSeal.Pending? && !c.attached && c.characteristic.None? &&
    c.operation.None? && !c.locateRefused && c.action.NotRun? && c.result.Pending? && c.stored.None? &&
    !c.ensured && c.commands == []
  }

  // ---------------------------------------------------------------------------
  // get / set and getCharacteristic

  /** `get(from:valueObj:)` and `set(to:valueObj:withResponse:)`. */
  function Begin(c: Client, env: Env, prm: Params, op: Operation): Client {
    React(Locate(c.(operation := Some(op)), env, prm), env, prm)
  }

  /** `getCharacteristic(_:)`: discovers every service of the peripheral. */
  function Locate(c: Client, env: Env, prm: Params): Client {
    if !IsConnected(env.peripheral) then c.(locateRefused := true)
    else
      var key := Key(prm);
      c.(attached := true,
         delegates := if key in c.delegates then c.delegates else c.delegates[key := prm.handle],
         commands := c.commands + [DiscoverServices(env.peripheral.value.identifier, None)])
  }

  /** `read(_:)` */
  function ReadAction(c: Client, env: Env): Client {
    if c.characteristic.Some? && IsConnected(env.peripheral) then
      c.(action := AwaitsOperation,
         commands := c.commands + [ReadValue(env.peripheral.value.identifier, c.characteristic.value.uuid)])
    else c.(action := Refused)
  }

  /** `write(_:data:withResponse:)` as written: every write waits for a write reply. */
  function WriteActionAsWritten(c: Client, env: Env, data: Option<Bytes>, withResponse: bool): Client {
    if c.characteristic.Some? && IsConnected(env.peripheral) && data.Some? then
      c.(action := AwaitsOperation,
         commands := c.commands + [WriteValue(env.peripheral.value.identifier, c.characteristic.value.uuid,
                                              data.value, withResponse)])
    else c.(action := Refused)
  }

  /** `write(_:data:withResponse:)` with its evident intent, as the SDK's request
      engine has it: a peripheral sends no reply to a write without response,
      so such a write is done once issued. */
  function WriteAction(c: Client, env: Env, data: Option<Bytes>, withResponse: bool): Client {
    var w := WriteActionAsWritten(c, env, data, withResponse);
    if w.action.AwaitsOperation? && !withResponse then w.(operationSeal := Fulfil(w.operationSeal, None)) else w
  }

  // ---------------------------------------------------------------------------
  // the chain: firstly { getCharacteristic } .then { action } [.done { store }] .ensure { unsubscribe }

  /** The outcome of the chain before its `ensure` step. */
  function ChainOutcome(c: Client): Seal<()> {
    if c.operation.None? then Pending
    else if c.locateRefused then Rejected(NotConnected)
    else
      match c.characteristicSeal
      case Pending => Pending
      case Rejected(e) => Rejected(e)
      case Fulfilled(_) =>
        match c.action
        case NotRun => Pending
        case Refused => Rejected(NotConnected)
        case AwaitsOperation =>
          match c.operationSeal
          case Pending => Pending
          case Rejected(e) => Rejected(e)
          case Fulfilled(_) => Fulfilled(())
  }

  /** The `then` step: once the characteristic is located, run the action. */
  function Continue(c: Client, env: Env): Client {
    if c.operation.Some? && !c.locateRefused && c.characteristicSeal.Fulfilled? && c.action.NotRun? then
      match c.operation.value
      case Get => ReadAction(c, env)
      case Set(data, withResponse) => WriteActionAsWritten(c, env, data, withResponse)
    else c
  }

  /** The `done` and `ensure` steps, once the chain has an outcome: a get stores
      the data read, and `self.device?` loses the delegate key. */
  function Settle(c: Client, prm: Params): Client {
    var outcome := ChainOutcome(c);
    if c.ensured || !outcome.Settled() then c
    else
      c.(ensured := true,
         result := if c.result.Pending? then outcome else c.result,
         stored := if outcome.Fulfilled? && c.operation.value.Get? then Some(c.operationSeal.value) else c.stored,
         delegates := if c.attached then c.delegates - {Key(prm)} else c.delegates)
  }

  /** The chain's reaction to whatever was just settled. */
  function React(c: Client, env: Env, prm: Params): Client {
    Settle(Continue(c, env), prm)
  }

  // ---------------------------------------------------------------------------
  // delegate callbacks (their bodies; the chain reacts afterwards). None of
  // them looks at its error argument.

  /** `self.device?.getPeripheral() == peripheral` */
  predicate SamePeripheral(c: Client, env: Env, p: Peripheral) {
    c.attached && env.peripheral.Some? && env.peripheral.value.identifier == p.identifier
  }

  /** `peripheral(_:didDiscoverServices:)` */
  function OnServices(c: Client, env: Env, prm: Params, p: Peripheral, error: Option<string>): Client {
    if !SamePeripheral(c, env, p) then c.(characteristicSeal := Reject(c.characteristicSeal, MismatchedPeripheral))
    else
      var service := FirstService(p.services, prm.sc.serviceUuid);
      if service.None? then c.(characteristicSeal := Reject(c.characteristicSeal, ServiceNotFound))
      else c.(commands := c.commands + [DiscoverCharacteristics(p.identifier, [prm.sc.characteristicUuid], service.value.uuid)])
  }

  /** `peripheral(_:didDiscoverCharacteristicsFor:error:)` */
  function OnCharacteristics(c: Client, env: Env, prm: Params, p: Peripheral, service: Service,
                             error: Option<string>): Client {
    if !SamePeripheral(c, env, p) then c.(characteristicSeal := Reject(c.characteristicSeal, MismatchedPeripheral))
    else
      var found := FirstCharacteristic(service.characteristics, prm.sc.characteristicUuid);
      if found.None? then c.(characteristicSeal := Reject(c.characteristicSeal, CharacteristicNotFound))
      else c.(characteristic := found, characteristicSeal := Fulfil(c.characteristicSeal, ()))
  }

  /** `peripheral(_:didUpdateValueFor:error:)` */
  function OnValue(c: Client, env: Env, prm: Params, p: Peripheral, ch: Characteristic, error: Option<string>): Client {
    if !SamePeripheral(c, env, p) then c.(operationSeal := Reject(c.operationSeal, MismatchedPeripheral))
    else if ch.uuid != prm.sc.characteristicUuid then c.(operationSeal := Reject(c.operationSeal, CharacteristicNotFound))
    else if ch.value.None? then c.(operationSeal := Reject(c.operationSeal, DataNotPresent))
    else c.(operationSeal := Fulfil(c.operationSeal, ch.value))
  }

  /** `peripheral(_:didWriteValueFor:error:)`: the characteristic is not checked. */
  function OnWrite(c: Client, env: Env, p: Peripheral, error: Option<string>): Client {
    if !SamePeripheral(c, env, p) then c.(operationSeal := Reject(c.operationSeal, MismatchedPeripheral))
    else c.(operationSeal := Fulfil(c.operationSeal, None))
  }

  // ---------------------------------------------------------------------------
  // the class

  class GattClient {
    const serviceCharacteristic: ServiceCharacteristic
    /** This client as a delegate of the device. */
    const handle: Devices.DelegateId
    /** The device the client's get or set is made for. */
    const target: Devices.BluetoothDevice

    var characteristicSeal: Seal<()>
    var operationSeal: Seal<Option<Bytes>>
    var attached: bool
    var characteristic: Option<Characteristic>
    var operation: Option<Operation>
    var locateRefused: bool
    var action: Action
    var result: Seal<()>
    var stored: Option<Option<Bytes>>
    var ensured: bool
    /** Commands issued to the peripheral, oldest first. */
    var commands: seq<Command>

    function Parameters(): Params
      reads target
    {
      Params(serviceCharacteristic, handle, target.id)
    }

    function Environment(): Env
      reads target
    {
      Env(target.peripheral)
    }

    function State(): Client
      reads this, target
    {
      Client(characteristicSeal, operationSeal, attached, characteristic, operation, locateRefused, action,
             result, stored, ensured, commands, target.delegates)
    }

    /** `init(_:)` */
    constructor (serviceCharacteristic: ServiceCharacteristic, handle: Devices.DelegateId, target: Devices.BluetoothDevice)
      ensures this.serviceCharacteristic == serviceCharacteristic && this.handle == handle && this.target == target
      ensures Fresh(State())
    {
      this.serviceCharacteristic, this.handle, this.target := serviceCharacteristic, handle, target;
      characteristicSeal, operationSeal, result := Pending, Pending, Pending;
      attached, characteristic, operation, locateRefused := false, None, None, false;
      action, stored, ensured, commands := NotRun, None, false, [];
    }

    /** `get(from:valueObj:)` */
    method Get()
      requires Fresh(State())
      modifies this, target`delegates
      ensures State() == Begin(old(State()), Environment(), Parameters(), Operation.Get)
    {
      operation := Some(Operation.Get);
      GetCharacteristic();
      RunChain();
    }

    /** `set(to:valueObj:withResponse:)`, with a response unless asked otherwise. */
    method Set(data: Option<Bytes>, withResponse: bool := true)
      requires Fresh(State())
      modifies this, target`delegates
      ensures State() == Begin(old(State()), Environment(), Parameters(), Operation.Set(data, withResponse))
    {
      operation := Some(Operation.Set(data, withResponse));
      GetCharacteristic();
      RunChain();
    }

    /** `getCharacteristic(_:)` */
    method GetCharacteristic()
      modifies this, target`delegates
      ensures State() == Locate(old(State()), Environment(), Parameters())
    {
      if !IsConnected(target.peripheral) {
        locateRefused := true;
        return;
      }
      attached := true;
      target.Subscribe(handle, DelegateKey(target.id, serviceCharacteristic));
      commands := commands + [DiscoverServices(target.peripheral.value.identifier, None)];
    }

    /** `read(_:)` */
    method Read()
      modifies this
      ensures State() == ReadAction(old(State()), Environment())
    {
      if characteristic.Some? && IsConnected(target.peripheral) {
        action := AwaitsOperation;
        commands := commands + [ReadValue(target.peripheral.value.identifier, characteristic.value.uuid)];
      } else {
        action := Refused;
      }
    }

    /** `write(_:data:withResponse:)`: waits on the operation promise whatever the write type. */
    method Write(data: Option<Bytes>, withResponse: bool)
      modifies this
      ensures State() == WriteActionAsWritten(old(State()), Environment(), data, withResponse)
    {
      if characteristic.Some? && IsConnected(target.peripheral) && data.Some? {
        action := AwaitsOperation;
        commands := commands + [WriteValue(target.peripheral.value.identifier, characteristic.value.uuid,
                                           data.value, withResponse)];
      } else {
        action := Refused;
      }
    }

    /** The chain's `then`, `done` and `ensure` steps, run after anything settles. */
    method RunChain()
      modifies this, target`delegates
      ensures State() == React(old(State()), Environment(), Parameters())
    {
      if operation.Some? && !locateRefused && characteristicSeal.Fulfilled? && action.NotRun? {
        match operation.value
        case Get => Read();
        case Set(data, withResponse) => Write(data, withResponse);
      }
      var outcome := ChainOutcome(State());
      if !ensured && outcome.Settled() {
        ensured := true;
        if result.Pending? {
          result := outcome;
        }
        if outcome.Fulfilled? && operation.value.Get? {
          stored := Some(operationSeal.value);
        }
        if attached {
          target.Unsubscribe(DelegateKey(target.id, serviceCharacteristic));
        }
      }
    }

    /** `peripheral(_:didDiscoverServices:)` */
    method DidDiscoverServices(p: Peripheral, error: Option<string>)
      modifies this, target`delegates
      ensures State() == React(OnServices(old(State()), Environment(), Parameters(), p, error), Environment(), Parameters())
    {
      if !(attached && target.peripheral.Some? && target.peripheral.value.identifier == p.identifier) {
        characteristicSeal := Reject(characteristicSeal, MismatchedPeripheral);
      } else {
        var service := FirstService(p.services, serviceCharacteristic.serviceUuid);
        if service.None? {
          characteristicSeal := Reject(characteristicSeal, ServiceNotFound);
        } else {
          commands := commands + [DiscoverCharacteristics(p.identifier, [serviceCharacteristic.characteristicUuid],
                                                          service.value.uuid)];
        }
      }
      RunChain();
    }

    /** `peripheral(_:didDiscoverCharacteristicsFor:error:)` */
    method DidDiscoverCharacteristics(p: Peripheral, service: Service, error: Option<string>)
      modifies this, target`delegates
      ensures State() == React(OnCharacteristics(old(State()), Environment(), Parameters(), p, service, error),
                               Environment(), Parameters())
    {
      if !(attached && target.peripheral.Some? && target.peripheral.value.identifier == p.identifier) {
        characteristicSeal := Reject(characteristicSeal, MismatchedPeripheral);
      } else {
        var found := FirstCharacteristic(service.characteristics, serviceCharacteristic.characteristicUuid);
        if found.None? {
          characteristicSeal := Reject(characteristicSeal, CharacteristicNotFound);
        } else {
          characteristic := found;
          characteristicSeal := Fulfil(characteristicSeal, ());
        }
      }
      RunChain();
    }

    /** `peripheral(_:didUpdateValueFor:error:)` */
    method DidUpdateValue(p: Peripheral, ch: Characteristic, error: Option<string>)
      modifies this, target`delegates
      ensures State() == React(OnValue(old(State()), Environment(), Parameters(), p, ch, error),
                               Environment(), Parameters())
    {
      if !(attached && target.peripheral.Some? && target.peripheral.value.identifier == p.identifier) {
        operationSeal := Reject(operationSeal, MismatchedPeripheral);
      } else if ch.uuid != serviceCharacteristic.characteristicUuid {
        operationSeal := Reject(operationSeal, CharacteristicNotFound);
      } else if ch.value.None? {
        operationSeal := Reject(operationSeal, DataNotPresent);
      } else {
        operationSeal := Fulfil(operationSeal, ch.value);
      }
      RunChain();
    }

    /** `peripheral(_:didWriteValueFor:error:)` */
    method DidWriteValue(p: Peripheral, ch: Characteristic, error: Option<string>)
      modifies this, target`delegates
      ensures State() == React(OnWrite(old(State()), Environment(), p, error), Environment(), Parameters())
    {
      if !(attached && target.peripheral.Some? && target.peripheral.value.identifier == p.identifier) {
        operationSeal := Reject(operationSeal, MismatchedPeripheral);
      } else {
        operationSeal := Fulfil(operationSeal, None);
      }
      RunChain();
    }
  }
}
