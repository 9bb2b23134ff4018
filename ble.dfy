/** Value types shared by the whole model: the CoreBluetooth objects the SDK
    inspects (peripherals, services, characteristics) reduced to the fields
    it reads, and the commands it issues to a peripheral. */
module Ble {

  datatype Option<+T> = None | Some(value: T)

  type Byte = x: int | 0 <= x < 256

  type Bytes = seq<Byte>

  /** A UUID rendered as text (`uuidString`). */
  type Uuid = string

  /** CBPeripheralState. */
  datatype PeripheralState = Disconnected | Connecting | Connected | Disconnecting

  /** A characteristic as seen in a callback: its UUID and its cached value. */
  datatype Characteristic = Characteristic(uuid: Uuid, value: Option<Bytes>)

  /** A service and the characteristics discovered on it so far (`nil` until discovered). */
  datatype Service = Service(uuid: Uuid, characteristics: Option<seq<Characteristic>>)

  /** A peripheral: its identity, link state and the services discovered so far. */
  datatype Peripheral = Peripheral(identifier: Uuid, state: PeripheralState, services: Option<seq<Service>>)

  /** XYServiceCharacteristic: which attribute a request addresses. */
  datatype ServiceCharacteristic = ServiceCharacteristic(serviceUuid: Uuid, characteristicUuid: Uuid)

  /** Commands handed to a peripheral; the transport is the log of these. */
  datatype Command =
    | DiscoverServices(peripheral: Uuid, filter: Option<seq<Uuid>>)
    | DiscoverCharacteristics(peripheral: Uuid, uuids: seq<Uuid>, service: Uuid)
    | ReadValue(peripheral: Uuid, characteristic: Uuid)
    | WriteValue(peripheral: Uuid, characteristic: Uuid, data: Bytes, withResponse: bool)
    | SetNotifyValue(peripheral: Uuid, enabled: bool, characteristic: Uuid)

  /** `peripheral?.state == .connected` */
  predicate IsConnected(p: Option<Peripheral>) {
    p.Some? && p.value.state == Connected
  }

  /** The first service with the given UUID, as `services?.first(where:)` finds it. */
  function FirstService(services: Option<seq<Service>>, uuid: Uuid): (r: Option<Service>)
    ensures r.Some? ==> r.value.uuid == uuid && services.Some? && r.value in services.value
    ensures r.None? <==> (services.None? || forall s :: s in services.value ==> s.uuid != uuid)
  {
    if services.None? then None else FirstServiceIn(services.value, uuid)
  }

  /** The first characteristic with the given UUID, as `characteristics?.first(where:)` finds it. */
  function FirstCharacteristic(cs: Option<seq<Characteristic>>, uuid: Uuid): (r: Option<Characteristic>)
    ensures r.Some? ==> r.value.uuid == uuid && cs.Some? && r.value in cs.value
    ensures r.None? <==> (cs.None? || forall c :: c in cs.value ==> c.uuid != uuid)
  {
    if cs.None? then None else FirstCharacteristicIn(cs.value, uuid)
  }

  /** `first(where:)` over the services of a peripheral. */
  function FirstServiceIn(s: seq<Service>, uuid: Uuid): (r: Option<Service>)
    ensures r.Some? ==> r.value.uuid == uuid && r.value in s
    ensures r.None? <==> forall x :: x in s ==> x.uuid != uuid
  {
    if s == [] then None
    else if s[0].uuid == uuid then Some(s[0])
    else
      assert forall x :: x in s[1..] ==> x in s;
      FirstServiceIn(s[1..], uuid)
  }

  /** `first(where:)` over the characteristics of a service. */
  function FirstCharacteristicIn(s: seq<Characteristic>, uuid: Uuid): (r: Option<Characteristic>)
    ensures r.Some? ==> r.value.uuid == uuid && r.value in s
    ensures r.None? <==> forall x :: x in s ==> x.uuid != uuid
  {
    if s == [] then None
    else if s[0].uuid == uuid then Some(s[0])
    else
      assert forall x :: x in s[1..] ==> x in s;
      FirstCharacteristicIn(s[1..], uuid)
  }

  /** `first(where:)` returns the earliest service with the UUID: when every
      service before position `i` has another UUID, the search finds `s[i]`. */
  lemma {:induction false} FirstServiceInIsFirst(s: seq<Service>, uuid: Uuid, i: int)
    requires 0 <= i < |s| && s[i].uuid == uuid
    requires forall j :: 0 <= j < i ==> s[j].uuid != uuid
    ensures FirstServiceIn(s, uuid) == Some(s[i])
    decreases i
  {
    if i > 0 {
      FirstServiceInIsFirst(s[1..], uuid, i - 1);
    }
  }

  /** The same for the services of a peripheral, which may not have been discovered. */
  lemma {:induction false} FirstServiceIsFirst(services: Option<seq<Service>>, uuid: Uuid, i: int)
    requires services.Some? && 0 <= i < |services.value| && services.value[i].uuid == uuid
    requires forall j :: 0 <= j < i ==> services.value[j].uuid != uuid
    ensures FirstService(services, uuid) == Some(services.value[i])
  {
    FirstServiceInIsFirst(services.value, uuid, i);
  }

  /** `first(where:)` returns the earliest characteristic with the UUID: when
      every characteristic before position `i` has another UUID, the search
      finds `s[i]`. */
  lemma {:induction false} FirstCharacteristicInIsFirst(s: seq<Characteristic>, uuid: Uuid, i: int)
    requires 0 <= i < |s| && s[i].uuid == uuid
    requires forall j :: 0 <= j < i ==> s[j].uuid != uuid
    ensures FirstCharacteristicIn(s, uuid) == Some(s[i])
    decreases i
  {
    if i > 0 {
      FirstCharacteristicInIsFirst(s[1..], uuid, i - 1);
    }
  }

  /** The same for the characteristics of a service, which may not have been discovered. */
  lemma {:induction false} FirstCharacteristicIsFirst(cs: Option<seq<Characteristic>>, uuid: Uuid, i: int)
    requires cs.Some? && 0 <= i < |cs.value| && cs.value[i].uuid == uuid
    requires forall j :: 0 <= j < i ==> cs.value[j].uuid != uuid
    ensures FirstCharacteristic(cs, uuid) == Some(cs.value[i])
  {
    FirstCharacteristicInIsFirst(cs.value, uuid, i);
  }
}
