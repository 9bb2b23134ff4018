/** XYBluetoothDeviceBase: the state every BLE device object keeps (signal
    bookkeeping, the attached peripheral, connection intent) and the registry
    of peripheral delegates the device fans its CoreBluetooth callbacks out to. */
module Devices {
  import opened Ble
  import Constants
  import Errors

  /** A `Date()` reading, supplied by the caller. */
  type Time = int

  /** Identity of an object registered as a peripheral delegate. */
  type DelegateId = nat

  /** An entry of `notifyDelegates`: the attribute watched and who is told. */
  datatype NotifySubscription = NotifySubscription(serviceCharacteristic: ServiceCharacteristic, delegate: DelegateId)

  /** Calls into XYDeviceConnectionManager, which is not part of this model. */
  datatype ConnectionRequest = Add(device: string) | Remove(device: string)

  /** Calls of the device's own `notify(_:enabled:)`, which is not part of this model. */
  datatype NotifyRequest = NotifyRequest(serviceCharacteristic: ServiceCharacteristic, enabled: bool)

  /** The CoreBluetooth callbacks a device receives as its peripheral's delegate. */
  datatype PeripheralCallback =
    | DidDiscoverServices(peripheral: Uuid, error: Option<string>)
    | DidDiscoverCharacteristics(peripheral: Uuid, service: Service, error: Option<string>)
    | DidUpdateValue(peripheral: Uuid, characteristic: Characteristic, error: Option<string>)
    | DidWriteValue(peripheral: Uuid, characteristic: Characteristic, error: Option<string>)
    | DidUpdateNotificationState(peripheral: Uuid, characteristic: Characteristic, error: Option<string>)

  /** One hand-over of a callback to a registered receiver, with its registry key. */
  datatype Delivery<T> = Delivery(key: string, target: T)

  /** `out` hands the callback to every entry of `m` exactly once, and to nothing else. */
  ghost predicate FansOut<T>(out: seq<Delivery<T>>, m: map<string, T>) {
    && |out| == |m|
    && (forall i :: 0 <= i < |out| ==> out[i].key in m && m[out[i].key] == out[i].target)
    && (forall k :: k in m ==> exists i :: 0 <= i < |out| && out[i].key == k)
    && (forall i, j :: 0 <= i < j < |out| ==> out[i].key != out[j].key)
  }

  /** `dictionary.forEach`: visits every entry once, in an order the dictionary chooses. */
  method FanOut<T>(m: map<string, T>) returns (out: seq<Delivery<T>>)
    ensures FansOut(out, m)
  {
    out := [];
    var remaining := m.Keys;
    while remaining != {}
      invariant remaining <= m.Keys
      invariant |out| + |remaining| == |m.Keys|
      invariant forall i :: 0 <= i < |out| ==> out[i].key in m && out[i].key !in remaining && m[out[i].key] == out[i].target
      invariant forall k :: k in m && k !in remaining ==> exists i :: 0 <= i < |out| && out[i].key == k
      invariant forall i, j :: 0 <= i < j < |out| ==> out[i].key != out[j].key
      decreases |remaining|
    {
      var k :| k in remaining;
      ghost var before := out;
      out := out + [Delivery(k, m[k])];
      forall k' | k' in m && k' !in remaining - {k} ensures exists i :: 0 <= i < |out| && out[i].key == k' {
        if k' == k {
          assert out[|out| - 1].key == k';
        } else {
          var i :| 0 <= i < |before| && before[i].key == k';
          assert out[i].key == k';
        }
      }
      remaining := remaining - {k};
    }
    assert |m.Keys| == |m|;
  }

  /** The notify delegates watching a characteristic: `notifyDelegates.filter { ... == characteristic.uuid }`. */
  function Watching(m: map<string, NotifySubscription>, characteristicUuid: Uuid): (r: map<string, NotifySubscription>)
    ensures r.Keys <= m.Keys
    ensures forall k :: k in r ==> r[k] == m[k]
    ensures forall k :: k in m ==> (k in r <==> m[k].serviceCharacteristic.characteristicUuid == characteristicUuid)
  {
    map k | k in m && m[k].serviceCharacteristic.characteristicUuid == characteristicUuid :: m[k]
  }

  /** The SDK's `inRange` rule on a peripheral and an rssi reading. */
  function InRangeRule(peripheral: Option<Peripheral>, rssi: int): (r: bool)
    ensures r <==> IsConnected(peripheral) || (rssi != Constants.DefaultProximity && rssi >= -200)
  {
    if IsConnected(peripheral) then true
    else
      var strength := Constants.FromSignalStrength(rssi);
      !(strength == Constants.OutOfRange || strength == Constants.None)
  }

  /** The rssi a device starts with when its creator passes none:
      `XYDeviceProximity.none.rawValue`, which is 0, not the "no reading" -999. */
  function InitialRssiAsWritten(): int {
    Constants.RawValue(Constants.None)
  }

  /** As written, a device that has never been heard from and is not connected
      counts as touching, and so as in range. */
  lemma InitialRssiAsWrittenInRange()
    ensures InitialRssiAsWritten() == 0
    ensures Constants.FromSignalStrength(InitialRssiAsWritten()) == Constants.Touching
    ensures InRangeRule(Ble.None, InitialRssiAsWritten())
  {
  }

  /** The evidently intended starting rssi: the "no reading" value. */
  function InitialRssi(): (r: int)
    ensures Constants.FromSignalStrength(r) == Constants.None
  {
    Constants.DefaultProximity
  }

  /** With the intended starting value, a fresh unconnected device is out of range
      until its first reading, and in range from any reading of -200 or above. */
  lemma {:induction false} InitialRssiNotInRange(peripheral: Option<Peripheral>, reading: int)
    requires !IsConnected(peripheral)
    ensures !InRangeRule(peripheral, InitialRssi())
    ensures reading >= -200 ==> InRangeRule(peripheral, reading)
  {
    assert InitialRssi() == Constants.DefaultProximity;
  }

  class BluetoothDevice {
    const id: string
    /** `(self as? XYFinderDevice)?.connectableServices`: present exactly when the
        device is an XYFinderDevice. */
    const connectableServices: Option<seq<Uuid>>

    var rssi: int
    var powerLevel: Byte
    var totalPulseCount: nat
    var firstPulseTime: Option<Time>
    var lastPulseTime: Option<Time>
    var markedForDeletion: Option<bool>
    var peripheral: Option<Peripheral>
    var stayConnected: bool
    var supportedServices: seq<Uuid>
    var delegates: map<string, DelegateId>
    var notifyDelegates: map<string, NotifySubscription>
    /** Calls made to the connection manager, oldest first. */
    var connectionRequests: seq<ConnectionRequest>
    /** Calls made to `notify(_:enabled:)`, oldest first. */
    var notifyRequests: seq<NotifyRequest>

    /** `init(_ id:, rssi:)` */
    constructor (id: string, rssi: int, connectableServices: Option<seq<Uuid>>)
      ensures this.id == id && this.rssi == rssi && this.connectableServices == connectableServices
      ensures powerLevel == 0 && totalPulseCount == 0
      ensures firstPulseTime == None && lastPulseTime == None && markedForDeletion == None
      ensures peripheral == None && !stayConnected && supportedServices == []
      ensures delegates == map[] && notifyDelegates == map[]
      ensures connectionRequests == [] && notifyRequests == []
    {
      this.id := id;
      this.rssi := rssi;
      this.connectableServices := connectableServices;
      powerLevel := 0;
      totalPulseCount := 0;
      firstPulseTime, lastPulseTime, markedForDeletion := None, None, None;
      peripheral := None;
      stayConnected := false;
      supportedServices := [];
      delegates, notifyDelegates := map[], map[];
      connectionRequests, notifyRequests := [], [];
    }

    /** `init(_ id:)` with the rssi defaulted to `XYDeviceProximity.none.rawValue`:
        a device never heard from starts out touching, and so in range. */
    constructor Fresh(id: string, connectableServices: Option<seq<Uuid>>)
      ensures this.id == id && this.connectableServices == connectableServices
      ensures rssi == InitialRssiAsWritten() && InRange()
      ensures powerLevel == 0 && totalPulseCount == 0
      ensures firstPulseTime == None && lastPulseTime == None && markedForDeletion == None
      ensures peripheral == None && !stayConnected && supportedServices == []
      ensures delegates == map[] && notifyDelegates == map[]
      ensures connectionRequests == [] && notifyRequests == []
    {
      this.id := id;
      this.rssi := InitialRssiAsWritten();
      this.connectableServices := connectableServices;
      powerLevel := 0;
      totalPulseCount := 0;
      firstPulseTime, lastPulseTime, markedForDeletion := None, None, None;
      peripheral := None;
      stayConnected := false;
      supportedServices := [];
      delegates, notifyDelegates := map[], map[];
      connectionRequests, notifyRequests := [], [];
      InitialRssiAsWrittenInRange();
    }

    /** `update(_:powerLevel:)`: a new advertisement or rssi reading. */
    method Update(rssi: int, powerLevel: Byte, now: Time)
      modifies this
      ensures this.rssi == (if rssi != Constants.DefaultProximity then rssi else old(this.rssi))
      ensures this.powerLevel == powerLevel
      ensures totalPulseCount == old(totalPulseCount) + 1
      ensures firstPulseTime == (if old(firstPulseTime).None? then Some(now) else old(firstPulseTime))
      ensures lastPulseTime == Some(now)
      ensures markedForDeletion == old(markedForDeletion) && peripheral == old(peripheral)
      ensures stayConnected == old(stayConnected) && supportedServices == old(supportedServices)
      ensures delegates == old(delegates) && notifyDelegates == old(notifyDelegates)
      ensures connectionRequests == old(connectionRequests) && notifyRequests == old(notifyRequests)
    {
      if rssi != Constants.DefaultProximity {
        this.rssi := rssi;
      }
      this.powerLevel := powerLevel;
      totalPulseCount := totalPulseCount + 1;
      if firstPulseTime.None? {
        firstPulseTime := Some(now);
      }
      lastPulseTime := Some(now);
    }

    /** `resetRssi()` */
    method ResetRssi()
      modifies this`rssi
      ensures rssi == Constants.DefaultProximity
      ensures !IsConnected(peripheral) ==> !InRange()
    {
      rssi := Constants.DefaultProximity;
    }

    /** `inRange` */
    function InRange(): (r: bool)
      reads this
      ensures r <==> IsConnected(peripheral) || (rssi != Constants.DefaultProximity && rssi >= -200)
    {
      InRangeRule(peripheral, rssi)
    }

    /** `subscribe(_:key:)`: an existing entry for the key is never replaced. */
    method Subscribe(delegate: DelegateId, key: string)
      modifies this`delegates
      ensures key in old(delegates) ==> delegates == old(delegates)
      ensures key !in old(delegates) ==> delegates == old(delegates)[key := delegate]
    {
      if key in delegates {
        return;
      }
      delegates := delegates[key := delegate];
    }

    /** `unsubscribe(for:)` */
    method Unsubscribe(key: string)
      modifies this`delegates
      ensures delegates == old(delegates) - {key}
    {
      delegates := delegates - {key};
    }

    /** `subscribe(to:delegate:)`: asks the device to enable notification, and
        records the delegate only if that did not fail. `notifyFailed` is the
        `hasError` of the device's notify call. */
    method SubscribeNotify(serviceCharacteristic: ServiceCharacteristic, key: string, delegate: DelegateId, notifyFailed: bool)
      modifies this`notifyDelegates, this`notifyRequests
      ensures notifyRequests == old(notifyRequests) + [NotifyRequest(serviceCharacteristic, true)]
      ensures notifyDelegates == if notifyFailed then old(notifyDelegates)
                                 else old(notifyDelegates)[key := NotifySubscription(serviceCharacteristic, delegate)]
    {
      notifyRequests := notifyRequests + [NotifyRequest(serviceCharacteristic, true)];
      if !notifyFailed {
        notifyDelegates := notifyDelegates[key := NotifySubscription(serviceCharacteristic, delegate)];
      }
    }

    /** `unsubscribe(from:key:)`: drops the delegate first, then asks the device to
        disable notification and returns that call's outcome (`notifyOutcome`). */
    method UnsubscribeNotify(serviceCharacteristic: ServiceCharacteristic, key: string, notifyOutcome: Option<Errors.XYBluetoothError>)
      returns (result: Option<Errors.XYBluetoothError>)
      modifies this`notifyDelegates, this`notifyRequests
      ensures notifyDelegates == old(notifyDelegates) - {key}
      ensures notifyRequests == old(notifyRequests) + [NotifyRequest(serviceCharacteristic, false)]
      ensures result == notifyOutcome
    {
      notifyDelegates := notifyDelegates - {key};
      notifyRequests := notifyRequests + [NotifyRequest(serviceCharacteristic, false)];
      result := notifyOutcome;
    }

    /** `attachPeripheral(_:)`: accepts a discovered peripheral only if its
        advertisement lists services, the device is a finder device with exactly
        two connectable services, and one of those two is advertised. */
    method AttachPeripheral(advertisedServices: Option<seq<Uuid>>, discovered: Peripheral) returns (ok: bool)
      modifies this`peripheral, this`supportedServices
      ensures ok <==> advertisedServices.Some? && connectableServices.Some? && |connectableServices.value| == 2 &&
                      (connectableServices.value[0] in advertisedServices.value ||
                       connectableServices.value[1] in advertisedServices.value)
      ensures ok ==> peripheral == Some(discovered) && supportedServices == advertisedServices.value
      ensures !ok ==> peripheral == old(peripheral) && supportedServices == old(supportedServices)
    {
      if advertisedServices.None? {
        return false;
      }
      var services := advertisedServices.value;
      if connectableServices.None? {
        return false;
      }
      var connectable := connectableServices.value;
      if !(|connectable| == 2 && (connectable[0] in services || connectable[1] in services)) {
        return false;
      }
      peripheral := Some(discovered);
      supportedServices := services;
      return true;
    }

    /** `connect()` */
    method Connect()
      modifies this`connectionRequests
      ensures connectionRequests == old(connectionRequests) + [Add(id)]
    {
      connectionRequests := connectionRequests + [Add(id)];
    }

    /** `disconnect()`: marks the device for deletion and withdraws it from the
        connection manager. */
    method Disconnect()
      modifies this`markedForDeletion, this`connectionRequests
      ensures markedForDeletion == Some(true)
      ensures connectionRequests == old(connectionRequests) + [Remove(id)]
    {
      markedForDeletion := Some(true);
      connectionRequests := connectionRequests + [Remove(id)];
    }

    /** `stayConnected(_:)` */
    method StayConnected(value: bool)
      modifies this`stayConnected, this`markedForDeletion, this`connectionRequests
      ensures stayConnected == value
      ensures connectionRequests == old(connectionRequests) + [if value then Add(id) else Remove(id)]
      ensures markedForDeletion == if value then old(markedForDeletion) else Some(true)
    {
      stayConnected := value;
      if stayConnected {
        Connect();
      } else {
        Disconnect();
      }
    }

    /** The CBPeripheralDelegate methods: a value update first goes to the notify
        delegates watching that characteristic; every callback then goes to every
        registered delegate. */
    method Forward(callback: PeripheralCallback)
      returns (notified: seq<Delivery<NotifySubscription>>, forwarded: seq<Delivery<DelegateId>>)
      ensures callback.DidUpdateValue? ==> FansOut(notified, Watching(notifyDelegates, callback.characteristic.uuid))
      ensures !callback.DidUpdateValue? ==> notified == []
      ensures FansOut(forwarded, delegates)
    {
      notified := [];
      if callback.DidUpdateValue? {
        notified := FanOut(Watching(notifyDelegates, callback.characteristic.uuid));
      }
      forwarded := FanOut(delegates);
    }

    /** `peripheral(_:didReadRSSI:error:)`: records the reading with power level
        4 and forwards it to every delegate. */
    method DidReadRssi(reading: int, now: Time) returns (forwarded: seq<Delivery<DelegateId>>)
      modifies this
      ensures rssi == (if reading != Constants.DefaultProximity then reading else old(rssi))
      ensures powerLevel == 4 && totalPulseCount == old(totalPulseCount) + 1 && lastPulseTime == Some(now)
      ensures firstPulseTime == (if old(firstPulseTime).None? then Some(now) else old(firstPulseTime))
      ensures markedForDeletion == old(markedForDeletion) && peripheral == old(peripheral)
      ensures stayConnected == old(stayConnected) && supportedServices == old(supportedServices)
      ensures delegates == old(delegates) && notifyDelegates == old(notifyDelegates)
      ensures connectionRequests == old(connectionRequests) && notifyRequests == old(notifyRequests)
      ensures FansOut(forwarded, delegates)
    {
      Update(reading, 4, now);
      forwarded := FanOut(delegates);
    }
  }
}
