/** XYBluetoothDeviceFactory: a table of device creators keyed by lower-cased
    beacon UUID, and a cache of the devices built so far keyed by device id. */
module Factory {
  import opened Ble
  import Devices
  import Constants

  function LowerChar(c: char): char {
    if 'A' <= c <= 'Z' then (c as int + 32) as char else c
  }

  function UpperChar(c: char): char {
    if 'a' <= c <= 'z' then (c as int - 32) as char else c
  }

  /** `lowercased()` on the ASCII text of a UUID. */
  function Lower(s: string): string
    decreases |s|
  {
    if s == [] then [] else [LowerChar(s[0])] + Lower(s[1..])
  }

  /** `uppercased()`, the form `uuidString` produces. */
  function Upper(s: string): string
    decreases |s|
  {
    if s == [] then [] else [UpperChar(s[0])] + Upper(s[1..])
  }

  /** Lower-casing twice is lower-casing once. */
  lemma {:induction false} LowerIdempotent(s: string)
    ensures Lower(Lower(s)) == Lower(s)
    decreases |s|
  {
    if s != [] {
      LowerIdempotent(s[1..]);
      assert Lower(s)[0] == LowerChar(s[0]) && Lower(s)[1..] == Lower(s[1..]);
    }
  }

  /** A key registered in upper case is found by its lower-case spelling and back:
      the creator table ignores case. */
  lemma {:induction false} CaseInsensitive(s: string)
    ensures Lower(Upper(s)) == Lower(s)
    ensures Lower(Upper(s)) == Lower(Lower(s))
    decreases |s|
  {
    if s != [] {
      CaseInsensitive(s[1..]);
      assert Upper(s)[0] == UpperChar(s[0]) && Upper(s)[1..] == Upper(s[1..]);
    }
    LowerIdempotent(s);
  }

  /** Identity of a registered XYDeviceCreator. */
  type CreatorId = nat

  /** XYIBeaconDefinition: the fields the factory reads. */
  datatype IBeacon = IBeacon(uuid: Uuid, major: Option<int>, minor: Option<int>, powerLevel: Byte)

  /** XYDeviceFamily: the fields the factory reads. */
  datatype Family = Family(prefix: string, uuid: Uuid)

  /** Calls made to a creator. */
  datatype CreatorCall =
    | CreateFromIBeacon(creator: CreatorId, beacon: IBeacon, rssi: int)
    | CreateFromId(creator: CreatorId, id: string)

  /** Whether a build refreshes the device's rssi and power: only when asked to and
      given a negative reading (`(rssi != nil ? rssi! : 0) < 0`). */
  predicate Refreshes(updateRssiAndPower: bool, rssi: Option<int>) {
    updateRssiAndPower && (if rssi.Some? then rssi.value else 0) < 0
  }

  /** The id `build(from family:)` passes to the creator. */
  function FamilyId(family: Family): string {
    family.prefix + ":" + Lower(family.uuid)
  }

  class DeviceFactory {
    /** `uuidToCreators` */
    var creators: map<string, CreatorId>
    /** `deviceCache` */
    var cache: map<string, Devices.BluetoothDevice>
    /** Calls made to creators, oldest first. */
    var creatorCalls: seq<CreatorCall>
    /** `XYDeviceFamily.build(iBeacon:)`, which is not part of this model. */
    const familyOf: IBeacon -> Option<Family>
    /** `iBeacon.xyId(from:)`, which is not part of this model. */
    const xyIdOf: (IBeacon, Family) -> string

    constructor (familyOf: IBeacon -> Option<Family>, xyIdOf: (IBeacon, Family) -> string)
      ensures creators == map[] && cache == map[] && creatorCalls == []
      ensures this.familyOf == familyOf && this.xyIdOf == xyIdOf
    {
      creators, cache, creatorCalls := map[], map[], [];
      this.familyOf, this.xyIdOf := familyOf, xyIdOf;
    }

    /** `addCreator(uuid:creator:)` */
    method AddCreator(uuid: Uuid, creator: CreatorId)
      modifies this`creators
      ensures creators == old(creators)[Lower(uuid) := creator]
      ensures forall u :: Lower(u) == Lower(uuid) ==> CreatorFor(u) == Some(creator)
    {
      creators := creators[Lower(uuid) := creator];
    }

    /** `removeCreator(uuid:)` */
    method RemoveCreator(uuid: Uuid)
      modifies this`creators
      ensures creators == old(creators) - {Lower(uuid)}
      ensures forall u :: Lower(u) == Lower(uuid) ==> CreatorFor(u) == None
    {
      creators := creators - {Lower(uuid)};
    }

    /** The creator a build for this UUID consults. */
    function CreatorFor(uuid: Uuid): Option<CreatorId>
      reads this
    {
      if Lower(uuid) in creators then Some(creators[Lower(uuid)]) else None
    }

    /** `devices` */
    function Devices(): set<Devices.BluetoothDevice>
      reads this
    {
      cache.Values
    }

    /** `invalidateCache()` */
    method InvalidateCache()
      modifies this`cache
      ensures cache == map[]
    {
      cache := map[];
    }

    /** `remove(device:)` */
    method Remove(device: Devices.BluetoothDevice)
      modifies this`cache
      ensures cache == old(cache) - {device.id}
    {
      cache := cache - {device.id};
    }

    /** `build(from iBeacon:rssi:updateRssiAndPower:)`. `created` is the device the
        matching creator returns when it is called; `now` is the clock reading. */
    method BuildFromIBeacon(beacon: IBeacon, rssi: Option<int>, updateRssiAndPower: bool,
                            created: Option<Devices.BluetoothDevice>, now: Devices.Time)
      returns (device: Option<Devices.BluetoothDevice>)
      modifies this`cache, this`creatorCalls, cache.Values, if created.Some? then {created.value} else {}
      // no family: nothing happens
      ensures familyOf(beacon).None? ==>
                device.None? && cache == old(cache) && creatorCalls == old(creatorCalls)
      // cache hit: the cached device, no creator called
      ensures familyOf(beacon).Some? && xyIdOf(beacon, familyOf(beacon).value) in old(cache) ==>
                device == Some(old(cache)[xyIdOf(beacon, familyOf(beacon).value)]) &&
                cache == old(cache) && creatorCalls == old(creatorCalls)
      // cache miss: the creator for the lower-cased UUID is called, its device cached under its own id
      ensures familyOf(beacon).Some? && xyIdOf(beacon, familyOf(beacon).value) !in old(cache) ==>
                if CreatorFor(beacon.uuid).Some? then
                  device == created &&
                  creatorCalls == old(creatorCalls) + [CreateFromIBeacon(CreatorFor(beacon.uuid).value, beacon,
                                                       if rssi.Some? then rssi.value else Constants.DefaultProximity)] &&
                  cache == (if created.Some? then old(cache)[created.value.id := created.value] else old(cache))
                else
                  device.None? && cache == old(cache) && creatorCalls == old(creatorCalls)
      ensures creators == old(creators)
      // the reading is applied to the returned device only when asked for and negative
      ensures device.Some? && Refreshes(updateRssiAndPower, rssi) ==>
                device.value.rssi == (if rssi.value != Constants.DefaultProximity then rssi.value else old(device.value.rssi)) &&
                device.value.powerLevel == beacon.powerLevel &&
                device.value.totalPulseCount == old(device.value.totalPulseCount) + 1 &&
                device.value.firstPulseTime ==
                  (if old(device.value.firstPulseTime).None? then Some(now) else old(device.value.firstPulseTime)) &&
                device.value.lastPulseTime == Some(now)
      // and nothing else of it changes
      ensures device.Some? && Refreshes(updateRssiAndPower, rssi) ==>
                device.value.markedForDeletion == old(device.value.markedForDeletion) &&
                device.value.peripheral == old(device.value.peripheral) &&
                device.value.stayConnected == old(device.value.stayConnected) &&
                device.value.supportedServices == old(device.value.supportedServices) &&
                device.value.delegates == old(device.value.delegates) &&
                device.value.notifyDelegates == old(device.value.notifyDelegates) &&
                device.value.connectionRequests == old(device.value.connectionRequests) &&
                device.value.notifyRequests == old(device.value.notifyRequests)
      ensures device.Some? && !Refreshes(updateRssiAndPower, rssi) ==> unchanged(device.value)
      ensures forall d: Devices.BluetoothDevice ::
                d in old(cache.Values) && !(device == Some(d) && Refreshes(updateRssiAndPower, rssi)) ==> unchanged(d)
      ensures created.Some? && !(device == created && Refreshes(updateRssiAndPower, rssi)) ==> unchanged(created.value)
    {
      var family := familyOf(beacon);
      if family.None? {
        return None;
      }
      var key := xyIdOf(beacon, family.value);
      if key in cache {
        device := Some(cache[key]);
      } else {
        var lowered := Lower(beacon.uuid);
        if lowered in creators {
          var reading := if rssi.Some? then rssi.value else Constants.DefaultProximity;
          creatorCalls := creatorCalls + [CreateFromIBeacon(creators[lowered], beacon, reading)];
          device := created;
          if device.Some? {
            cache := cache[device.value.id := device.value];
          }
        } else {
          device := None;
        }
      }
      if updateRssiAndPower {
        if (if rssi.Some? then rssi.value else 0) < 0 {
          if device.Some? {
            device.value.Update(rssi.value, beacon.powerLevel, now);
          }
        }
      }
    }

    /** `build(from family:)`: the creator call it makes, if a creator is registered
        for the family's UUID in any casing. */
    function BuildFromFamily(family: Family): (call: Option<CreatorCall>)
      reads this
      ensures call.Some? <==> CreatorFor(family.uuid).Some?
      ensures call.Some? ==> call.value.CreateFromId? && call.value.creator == CreatorFor(family.uuid).value
      ensures call.Some? ==> call.value.id == family.prefix + ":" + Lower(family.uuid)
    {
      var lowered := Lower(family.uuid);
      if lowered in creators then Some(CreateFromId(creators[lowered], FamilyId(family))) else None
    }
  }

  /** The id handed to a creator is the same whatever the casing of the family's
      UUID, and its UUID part is already lower case. */
  lemma {:induction false} FamilyIdIgnoresCase(f: Family)
    ensures FamilyId(f) == FamilyId(Family(f.prefix, Upper(f.uuid)))
    ensures Lower(FamilyId(f)[|f.prefix| + 1..]) == FamilyId(f)[|f.prefix| + 1..]
  {
    CaseInsensitive(f.uuid);
    LowerIdempotent(f.uuid);
    assert FamilyId(f)[|f.prefix| + 1..] == Lower(f.uuid);
  }
}
