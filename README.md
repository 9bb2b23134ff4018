# XY BLE SDK: GATT request engine, event bus and device registries

This project models the core of the XY Findables BLE SDK for iOS and proves properties of the model.

- **`GattRequest`** (module `Gatt`) is a single-use request.
  - It locates one characteristic of a connected peripheral. If the characteristic is cached on the peripheral it uses it. Otherwise it discovers the service, then the characteristic.
  - It then reads, writes or switches notifications on that characteristic, and settles its operation promise once.
  - A timer and the event bus's `disconnected` events can cut it short.
  - A promise chain (`getCharacteristic().then(action).always(cleanup).catch(...)`) settles the operation. Its `always` step takes the request off the device's delegate table and off the event bus.
- **`XYFinderDeviceEventManager`** (module `Events`) is the process-wide event bus. It holds a registry from event kind to an ordered list of directives (reference key, handler, optional device). It supports subscribe, unsubscribe and report.
- **`XYBluetoothDeviceBase`** (module `Devices`) is the state every device object keeps:
  - rssi and pulse bookkeeping, and the `inRange` rule;
  - the delegate and notify-delegate tables, and the fan-out of peripheral callbacks to them;
  - `attachPeripheral` validation, and `stayConnected` / `connect` / `disconnect`.
- **`XYBluetoothDeviceFactory`** (module `Factory`) is a creator table keyed by lower-cased UUID, plus the device cache that `build(from:)` consults or fills.
- **Tables**:
  - `XYDeviceProximity.fromSignalStrength`, in the SDK copy (module `Constants`) and the sample copy (module `SampleConstants`);
  - `XYFinderSong.values` (module `Constants`);
  - `XYBluetoothError` with its `toString` (module `Errors`).
- **The sample application's `GattClient`** (module `SampleGatt`) is an earlier, simpler request built on PromiseKit.

## How the state machines are modelled

The classes `Gatt.GattRequest` and `SampleGatt.GattClient` keep the source's fields and change them in place. Each has a `State()` function that returns the whole observable state as one value (`Gatt.Sys`, `SampleGatt.Client`). That value covers the request's own fields, the target device's delegate table and, for `GattRequest`, the event bus registry.

Every method is proved to produce exactly the state a pure transition function gives from the old state:
- `Begin` for get/set/notify;
- `Locate` for getCharacteristic;
- `ReadStep`, `WriteStep` and `NotifyStep` for the actions;
- `OnServices`, `OnCharacteristics`, `OnValue`, `OnWrite` and `OnNotificationState` for the callbacks;
- `OnTimerAsWritten` and `OnDisconnect` for the handlers.

After each callback or handler, the promise chain reacts in the same step (`Propagate = Resolve ∘ Continue`):
- the `then` step runs the action once the characteristic is located;
- the `always` step cleans up and adopts the chain's outcome once it is known.

The modules `GattProperties`, `GattScenarios` and `SampleGattProperties` prove properties of these transitions:
- the order of the checks in each callback;
- that every event keeps the request invariant;
- first-settlement-wins for the operation promise over any sequence of events;
- cleanup once the chain settles;
- whole scenarios.

Promises (the Promises library and PromiseKit seals) are single-assignment slots: once settled, later fulfil and reject calls change nothing (`Promises.SettledIsFinal`).

The classes and the invariant theorems follow the code as written, including three quirks:
- The callbacks' guard `status != .disconnected || status != .timedOut` is always true (`Gatt.StatusGuard`).
- The timer closure reports `timedOut` only `if let device = self as? XYFinderDevice` (Source/Gatt/GattRequest.swift:86-88). `self` is the request, not a device, so the report is never made (`Gatt.TimeoutReports`).
- The timer is commented "Self-cleaning if we timeout" (Source/Gatt/GattRequest.swift:82), but its closure only rejects the action's own promise, plus the operation promise for notify (:83-92, :183-193). The chain's `always` cleanup (:99-103, :197-202) runs only after the `getCharacteristic` promise settles. So a request that times out before its characteristic is located keeps its delegate entry and disconnect subscription; a get or set also stays pending (`GattScenarios.TimeoutDuringDiscoveryLeavesResidue`). Once the action has started, a timeout does settle and clean up (`GattScenarios.TimerAfterActionSettles`).

The cleanup the comment promises is modelled separately as `Gatt.OnTimer` (`GattScenarios.TimerOutcome`); see Findings. The sample client's write without response, and the device's default rssi, are likewise modelled as written, with the intended versions beside them.

## Model

| member | source | states |
|---|---|---|
| Ble.FirstService | Source/Gatt/GattRequest.swift:234 | the first service with the UUID, in the peripheral's list; none exactly when no listed service has that UUID |
| Ble.FirstCharacteristic | Source/Gatt/GattRequest.swift:235 | the first characteristic with the UUID, in the service's list; none exactly when no listed characteristic has that UUID |
| Ble.FirstServiceInIsFirst | Source/Gatt/GattRequest.swift:234 | the search returns the earliest service with the UUID: the one at the first position holding it |
| Ble.FirstServiceIsFirst | Source/Gatt/GattRequest.swift:234 | the same for a peripheral's discovered services |
| Ble.FirstCharacteristicInIsFirst | Source/Gatt/GattRequest.swift:235 | the search returns the earliest characteristic with the UUID: the one at the first position holding it |
| Ble.FirstCharacteristicIsFirst | Source/Gatt/GattRequest.swift:235 | the same for a service's discovered characteristics |
| Promises.Fulfil | Source/Gatt/GattRequest.swift:30-33 | fulfilling settles a pending promise with the value and leaves a settled one as it is |
| Promises.Reject | Source/Gatt/GattRequest.swift:30-33 | rejecting settles a pending promise with the error and leaves a settled one as it is |
| Promises.Adopt | Source/Gatt/GattRequest.swift:97-108 | the chained operation promise takes its upstream's outcome only while it is still pending |
| Promises.SettledIsFinal | Source/Gatt/GattRequest.swift:30-33 | whatever fulfil/reject attempts follow, a settled promise keeps its outcome |
| Promises.FirstAttemptWins | Source/Gatt/GattRequest.swift:30-33 | a pending promise takes the outcome of the first attempt to settle it and keeps it |
| Errors.StateDebugDescription | XyBleSdk/Classes/Devices/Base/XYBluetoothError.swift:42 | the description of an optional peripheral state is "nil" exactly when it is absent |
| Errors.ToString | XyBleSdk/Classes/Devices/Base/XYBluetoothError.swift:27-54 | every one of the twelve cases has a non-empty text; the two payload cases are their prefix followed by the payload's text |
| Errors.Parse | XyBleSdk/Classes/Devices/Base/XYBluetoothError.swift:28-53 | reading a text back yields only payload-free cases |
| Errors.ParseToString | XyBleSdk/Classes/Devices/Base/XYBluetoothError.swift:28-53 | the text of every payload-free case reads back as that case (so toString is one-to-one on them) |
| Errors.PlainTextsDistinct | XyBleSdk/Classes/Devices/Base/XYBluetoothError.swift:28-53 | the ten payload-free cases have pairwise distinct texts |
| Errors.PayloadTextsPrefixed | XyBleSdk/Classes/Devices/Base/XYBluetoothError.swift:41-44 | peripheralDisconected's text starts with "Peripheral Disconnected:\n" and cbPeripheralDelegateError's with "Peripheral Delegate Error:\n"; neither reads back as a payload-free case |
| Constants.RawValue | XyBleSdk/Classes/Constants/XYConstants.swift:22-30 | raw values lie below 8; 0 exactly for `none` (declared first) and 7 exactly for `touching` (declared last) |
| Constants.RawValueRoundTrip | XyBleSdk/Classes/Constants/XYConstants.swift:22-30 | `init(rawValue:)` inverts `rawValue`: exactly 0 to 7 name a case, and each names the case with that raw value |
| Constants.FromSignalStrength | XyBleSdk/Classes/Constants/XYConstants.swift:32-43 | the proximity is `none` exactly for the default -999 |
| Constants.BandsExact | XyBleSdk/Classes/Constants/XYConstants.swift:34-39 | apart from -999, a strength is in a ranged band exactly when it lies between that band's floor (-40, -60, -70, -80, -90, -200) and the next stronger band's floor |
| Constants.StrongerIsNextCase | XyBleSdk/Classes/Constants/XYConstants.swift:22-39 | each ranged band's next stronger band is the case declared right after it; only `touching` has none |
| Constants.OutOfRangeExact | XyBleSdk/Classes/Constants/XYConstants.swift:39-40 | `outOfRange` exactly for strengths below -200 other than -999 |
| Constants.Monotone | XyBleSdk/Classes/Constants/XYConstants.swift:22-41 | apart from -999, a stronger signal never gives a smaller raw value |
| Constants.SongValues | XyBleSdk/Classes/Constants/XYConstants.swift:57-80 | one or two bytes; xy1 plays [0x01]; xy4 plays two bytes ending in 0x03; other families one byte |
| Constants.SongsDistinguished | XyBleSdk/Classes/Constants/XYConstants.swift:57-80 | off and findIt differ on every family except xy1 |
| SampleConstants.FromSignalStrength | XYSdkSample/Api/Constants/XYConstants.swift:21-30 | `none` exactly for -999; `outOfRange` exactly below -200 apart from -999 |
| SampleConstants.AgreesWithSdk | XYSdkSample/Api/Constants/XYConstants.swift:21-30 | the sample copy gives the same case as the SDK copy for every integer |
| SampleConstants.ToSdkInjective | XYSdkSample/Api/Constants/XYConstants.swift:11-19 | the case correspondence between the two enums is one-to-one |
| Events.AppendedEntry | Sources/Devices/Base/XYFinderDeviceEventManager.swift:41-51 | after subscribe each listed kind holds its old list followed by the directive (the list is created when absent); other kinds are untouched |
| Events.AppendedKeys | Sources/Devices/Base/XYFinderDeviceEventManager.swift:41-51 | subscribing a directive under a fresh key keeps every key below the next fresh key |
| Events.WithoutMembers | Sources/Devices/Base/XYFinderDeviceEventManager.swift:59 | the filter keeps exactly the directives with other keys |
| Events.WithoutSplits | Sources/Devices/Base/XYFinderDeviceEventManager.swift:59 | the filter keeps the order of what it keeps |
| Events.WithoutAbsent | Sources/Devices/Base/XYFinderDeviceEventManager.swift:59 | filtering out a key nobody carries changes nothing |
| Events.WithoutAll | Sources/Devices/Base/XYFinderDeviceEventManager.swift:59 | filtering out the key every directive carries leaves nothing |
| Events.WithoutIdempotent | Sources/Devices/Base/XYFinderDeviceEventManager.swift:59 | filtering twice is filtering once |
| Events.RemovedEntry | Sources/Devices/Base/XYFinderDeviceEventManager.swift:54-63 | unsubscribe keeps the set of kinds present; a listed kind loses exactly the directives with the key; other kinds are untouched |
| Events.RemovedKeys | Sources/Devices/Base/XYFinderDeviceEventManager.swift:54-63 | unsubscribing never adds a key |
| Events.UnsubscribeIdempotent | Sources/Devices/Base/XYFinderDeviceEventManager.swift:54-63 | a second identical unsubscribe changes nothing |
| Events.DeliveredMembers | Sources/Devices/Base/XYFinderDeviceEventManager.swift:29-31 | a report calls the handler of a directive of the event's kind exactly when the directive is for all devices or for the event's device |
| Events.DeliveredSplits | Sources/Devices/Base/XYFinderDeviceEventManager.swift:29-31 | the calls follow registration order |
| Events.DispatchSplits | Sources/Devices/Base/XYFinderDeviceEventManager.swift:27-33 | reporting events in two batches makes the same calls as reporting them together, event by event |
| Events.DispatchByEntries | Sources/Devices/Base/XYFinderDeviceEventManager.swift:27-33 | a report depends only on the list each kind holds |
| Events.DispatchFromRegistry | Sources/Devices/Base/XYFinderDeviceEventManager.swift:27-33 | every call a report makes comes from a registered directive |
| Events.SubscribeUnsubscribeRoundTrip | Sources/Devices/Base/XYFinderDeviceEventManager.swift:41-62 | subscribing under a fresh key and unsubscribing that key from the same kinds leaves every report's calls as before |
| Events.UnsubscribedNeverCalled | Sources/Devices/Base/XYFinderDeviceEventManager.swift:41-62 | after that round trip no report ever calls the directive |
| Events.EventManager.constructor | Sources/Devices/Base/XYFinderDeviceEventManager.swift:22 | the registry starts empty |
| Events.EventManager.Subscribe | Sources/Devices/Base/XYFinderDeviceEventManager.swift:41-51 | returns a key no registered directive carries, and appends the directive with that key to every listed kind |
| Events.EventManager.SubscribeAll | Sources/Devices/Base/XYFinderDeviceEventManager.swift:36-38 | is Subscribe with no device (every device) |
| Events.EventManager.Unsubscribe | Sources/Devices/Base/XYFinderDeviceEventManager.swift:54-63 | an absent key leaves the registry as it is; otherwise the registry is the filtered one |
| Events.EventManager.Report | Sources/Devices/Base/XYFinderDeviceEventManager.swift:27-33 | the loop's calls are those `Dispatch` specifies |
| Devices.FanOut | XyBleSdk/Classes/Devices/Base/XYBluetoothDeviceBase.swift:155 | `forEach` over a dictionary hands the callback to every entry exactly once and to nothing else |
| Devices.Watching | XyBleSdk/Classes/Devices/Base/XYBluetoothDeviceBase.swift:163-164 | the notify delegates kept are exactly those whose characteristic UUID matches |
| Devices.InRangeRule | XyBleSdk/Classes/Devices/Base/XYBluetoothDeviceBase.swift:84-93 | in range exactly when connected, or when the rssi is not -999 and at least -200 |
| Devices.InitialRssiAsWrittenInRange | XyBleSdk/Classes/Devices/Base/XYBluetoothDeviceBase.swift:45 | as written, the default rssi is 0, which reads as `touching`, so a device never heard from is in range |
| Devices.InitialRssi | XyBleSdk/Classes/Devices/Base/XYBluetoothDeviceBase.swift:45 | the intended default rssi reads as `none` |
| Devices.InitialRssiNotInRange | XyBleSdk/Classes/Devices/Base/XYBluetoothDeviceBase.swift:45 | with the intended default, an unconnected device is out of range until a reading of -200 or more arrives |
| Devices.BluetoothDevice.constructor | XyBleSdk/Classes/Devices/Base/XYBluetoothDeviceBase.swift:45-51 | id and rssi as given, power 0, no pulses, no peripheral, empty delegate tables |
| Devices.BluetoothDevice.Fresh | XyBleSdk/Classes/Devices/Base/XYBluetoothDeviceBase.swift:45-51 | the same with the rssi defaulted to `XYDeviceProximity.none.rawValue` as written, so the new device is in range |
| Devices.BluetoothDevice.Update | XyBleSdk/Classes/Devices/Base/XYBluetoothDeviceBase.swift:53-65 | rssi replaced unless the reading is -999; power set; one more pulse; first pulse time set only on the first update; last pulse time always; nothing else changes |
| Devices.BluetoothDevice.ResetRssi | XyBleSdk/Classes/Devices/Base/XYBluetoothDeviceBase.swift:67-69 | rssi becomes -999, so an unconnected device is out of range |
| Devices.BluetoothDevice.InRange | XyBleSdk/Classes/Devices/Base/XYBluetoothDeviceBase.swift:84-93 | connected, or the proximity of the rssi is neither `none` nor `outOfRange` |
| Devices.BluetoothDevice.Subscribe | XyBleSdk/Classes/Devices/Base/XYBluetoothDeviceBase.swift:95-98 | an existing entry for the key is never replaced; otherwise the delegate is added |
| Devices.BluetoothDevice.Unsubscribe | XyBleSdk/Classes/Devices/Base/XYBluetoothDeviceBase.swift:100-102 | removes only that key |
| Devices.BluetoothDevice.SubscribeNotify | XyBleSdk/Classes/Devices/Base/XYBluetoothDeviceBase.swift:104-108 | asks to enable notification; the notify delegate is recorded only if that succeeded |
| Devices.BluetoothDevice.UnsubscribeNotify | XyBleSdk/Classes/Devices/Base/XYBluetoothDeviceBase.swift:110-113 | drops the notify delegate, then asks to disable notification and returns that result |
| Devices.BluetoothDevice.AttachPeripheral | XyBleSdk/Classes/Devices/Base/XYBluetoothDeviceBase.swift:115-134 | succeeds exactly when services are advertised, the device has exactly two connectable services and one of them is advertised; on success the peripheral is attached and the supported services are the advertised list; otherwise neither changes |
| Devices.BluetoothDevice.Connect | XyBleSdk/Classes/Devices/Base/XYBluetoothDeviceBase.swift:142-144 | hands the device to the connection manager |
| Devices.BluetoothDevice.Disconnect | XyBleSdk/Classes/Devices/Base/XYBluetoothDeviceBase.swift:146-149 | marks the device for deletion and withdraws it from the connection manager |
| Devices.BluetoothDevice.StayConnected | XyBleSdk/Classes/Devices/Base/XYBluetoothDeviceBase.swift:137-140 | records the flag, then connects if it is true and disconnects otherwise |
| Devices.BluetoothDevice.Forward | XyBleSdk/Classes/Devices/Base/XYBluetoothDeviceBase.swift:154-176 | every callback goes to every registered delegate; a value update first goes to exactly the notify delegates watching that characteristic |
| Devices.BluetoothDevice.DidReadRssi | XyBleSdk/Classes/Devices/Base/XYBluetoothDeviceBase.swift:180-182 | records the reading as an update with power level 4, then forwards the callback to every delegate |
| Factory.LowerIdempotent | Source/Devices/XYBluetoothDeviceFactory.swift:17 | lower-casing twice is lower-casing once |
| Factory.CaseInsensitive | Source/Devices/XYBluetoothDeviceFactory.swift:16-22 | an upper-case UUID string and its lower-case spelling give the same table key |
| Factory.DeviceFactory.constructor | Source/Devices/XYBluetoothDeviceFactory.swift:13-14 | empty creator table and cache |
| Factory.DeviceFactory.AddCreator | Source/Devices/XYBluetoothDeviceFactory.swift:16-18 | stores the creator under the lower-cased UUID, so every casing of that UUID finds it |
| Factory.DeviceFactory.RemoveCreator | Source/Devices/XYBluetoothDeviceFactory.swift:20-22 | deletes the lower-cased key, so no casing of that UUID finds a creator |
| Factory.DeviceFactory.InvalidateCache | Source/Devices/XYBluetoothDeviceFactory.swift:30-32 | empties the cache |
| Factory.DeviceFactory.Remove | Source/Devices/XYBluetoothDeviceFactory.swift:34-36 | removes only the device's id from the cache |
| Factory.DeviceFactory.BuildFromIBeacon | Source/Devices/XYBluetoothDeviceFactory.swift:56-82 | no family gives nil and no change; a cache hit returns the cached device and calls no creator; a miss calls the lower-cased UUID's creator (if any) with the rssi or -999, and caches a created device under its id; rssi and power are refreshed only when asked and the rssi is present and negative, as `update` does it (first pulse time set if none, nothing else of the device changed); otherwise the returned device and every other device are unchanged |
| Factory.DeviceFactory.BuildFromFamily | Source/Devices/XYBluetoothDeviceFactory.swift:84-88 | a creator is called exactly when one is registered for the family's UUID, with id prefix + ":" + lower-cased UUID |
| Factory.FamilyIdIgnoresCase | Source/Devices/XYBluetoothDeviceFactory.swift:85 | the id does not depend on the casing of the family's UUID, and its UUID part is lower case |
| Gatt.StatusGuard | Source/Gatt/GattRequest.swift:319 | the callbacks' status guard holds for every status, so no callback is ever suppressed by status |
| Gatt.DelegateKeyInjective | Source/Gatt/GattRequest.swift:59-61 | two delegate keys are equal exactly when peripheral and characteristic UUID are |
| Gatt.Cached | Source/Gatt/GattRequest.swift:233-235 | a characteristic found in the peripheral's cache has the requested UUID |
| Gatt.TimeoutReports | Source/Gatt/GattRequest.swift:86-88 | the timer reports no event |
| Gatt.GattRequest.constructor | Source/Gatt/GattRequest.swift:53-57 | the timeout is the one given or 18 seconds; status `disconnected`; every promise pending |
| Gatt.GattRequest.Get | Source/Gatt/GattRequest.swift:63-111 | the new state is `Begin` for a read |
| Gatt.GattRequest.Set | Source/Gatt/GattRequest.swift:113-161 | the new state is `Begin` for a write |
| Gatt.GattRequest.Notify | Source/Gatt/GattRequest.swift:163-212 | the new state is `Begin` for setNotify |
| Gatt.GattRequest.Start | Source/Gatt/GattRequest.swift:64-98 | the shared start: rejects at once when not connected, else subscribes, arms the timer, locates and runs the chain |
| Gatt.GattRequest.Arm | Source/Gatt/GattRequest.swift:71-92 | past the connection guard: a disconnect directive under the bus's next fresh key, the timer armed and the cleanup key fixed; the new state is `Armed` |
| Gatt.GattRequest.GetCharacteristic | Source/Gatt/GattRequest.swift:218-244 | the new state is `Locate` |
| Gatt.GattRequest.Read | Source/Gatt/GattRequest.swift:250-267 | the new state is `ReadStep` |
| Gatt.GattRequest.Write | Source/Gatt/GattRequest.swift:269-292 | the new state is `WriteStep` |
| Gatt.GattRequest.SetNotifyState | Source/Gatt/GattRequest.swift:294-311 | the new state is `NotifyStep` |
| Gatt.GattRequest.ThenStep | Source/Gatt/GattRequest.swift:97-98 | the new state is `Continue` |
| Gatt.GattRequest.AlwaysStep | Source/Gatt/GattRequest.swift:99-108 | the new state is `Resolve` |
| Gatt.GattRequest.RunChain | Source/Gatt/GattRequest.swift:97-108 | the new state is `Propagate` |
| Gatt.GattRequest.DidDiscoverServices | Source/Gatt/GattRequest.swift:336-352 | the new state is `OnServices`, then the chain's reaction |
| Gatt.GattRequest.DidDiscoverCharacteristics | Source/Gatt/GattRequest.swift:354-370 | the new state is `OnCharacteristics`, then the chain's reaction |
| Gatt.GattRequest.DidUpdateValue | Source/Gatt/GattRequest.swift:372-406 | the new state is `OnValue`, then the chain's reaction |
| Gatt.GattRequest.DidWriteValue | Source/Gatt/GattRequest.swift:408-434 | the new state is `OnWrite`, then the chain's reaction |
| Gatt.GattRequest.DidUpdateNotificationState | Source/Gatt/GattRequest.swift:436-456 | the new state is `OnNotificationState`, then the chain's reaction |
| Gatt.GattRequest.RejectActionSlot | Source/Gatt/GattRequest.swift:91 | rejects the promise of the operation's own action |
| Gatt.GattRequest.UnsubscribeFromDisconnects | Source/Gatt/GattRequest.swift:72 | takes the disconnect handler's key off the bus |
| Gatt.GattRequest.TimerBody | Source/Gatt/GattRequest.swift:83-92 | the timer closure as written (`OnTimerAsWritten`), reporting no event |
| Gatt.GattRequest.TimerFires | Source/Gatt/GattRequest.swift:83-108 | the timer closure as written (`OnTimerAsWritten`), then the chain's reaction; reports no event |
| Gatt.GattRequest.DisconnectHandler | Source/Gatt/GattRequest.swift:71-78 | the new state is `OnDisconnect`, then the chain's reaction |
| GattProperties.UnsubscribedRemovesHandler | Source/Gatt/GattRequest.swift:102 | the cleanup's unsubscribe leaves no directive with the handler's key and adds none |
| GattProperties.ContinueKeepsWeak | Source/Gatt/GattRequest.swift:97-98 | the `then` step runs the action once the characteristic is located, and keeps every settled promise |
| GattProperties.CleanupIsClean | Source/Gatt/GattRequest.swift:99-103 | the `always` step leaves no timer, no delegate entry and no disconnect handler |
| GattProperties.ResolveRestores | Source/Gatt/GattRequest.swift:97-108 | the `always` step runs exactly when the chain's outcome is known, and keeps every settled promise |
| GattProperties.PropagateRestores | Source/Gatt/GattRequest.swift:97-108 | after any callback body, the chain's reaction re-establishes the request invariant |
| GattProperties.PropagateIdle | Source/Gatt/GattRequest.swift:97-108 | with the invariant in place the chain has nothing to do |
| GattProperties.ServicesGrow | Source/Gatt/GattRequest.swift:336-352 | the services callback only settles promises and issues commands |
| GattProperties.CharacteristicsGrow | Source/Gatt/GattRequest.swift:354-370 | the characteristics callback only settles promises and records the characteristic |
| GattProperties.ValueGrows | Source/Gatt/GattRequest.swift:372-406 | the read callback only settles the read promise and sets the status |
| GattProperties.WriteGrows | Source/Gatt/GattRequest.swift:408-434 | the write callback only settles the write promise |
| GattProperties.NotificationStateGrows | Source/Gatt/GattRequest.swift:436-456 | the notify callback only settles the notify promise |
| GattProperties.RejectActionFrozen | Source/Gatt/GattRequest.swift:91 | rejecting the action touches only the action's own promise and keeps a settled one |
| GattProperties.TimerGrows | Source/Gatt/GattRequest.swift:83-92 | the timer as written only settles promises, drops itself and sets the status |
| GattProperties.DisconnectGrows | Source/Gatt/GattRequest.swift:71-78 | the disconnect handler only settles promises, drops the timer and removes bus directives |
| GattProperties.BodyGrows | Source/Gatt/GattRequest.swift:71-456 | each of the seven handlers and callbacks only settles promises, never re-arms the timer and only removes bus directives |
| GattProperties.DeliverKeepsInv | Source/Gatt/GattRequest.swift:71-456 | every event keeps the request invariant and the outcome of every settled promise |
| GattProperties.RunKeepsInv | Source/Gatt/GattRequest.swift:71-456 | so does any sequence of events |
| GattProperties.BeginEstablishesInv | Source/Gatt/GattRequest.swift:63-111 | starting a fresh request establishes the invariant |
| GattProperties.SettlesOnceAndCleansUp | Source/Gatt/GattRequest.swift:97-108 | after any events, once the chain has an outcome the operation is settled and nothing of the request is left registered; an operation settled at the start never changes |
| GattScenarios.NotConnectedRejectsAtOnce | Source/Gatt/GattRequest.swift:65-68 | without a connected peripheral: `notConnected`, no timer, no delegate, no subscription, no command |
| GattScenarios.BeginConnected | Source/Gatt/GattRequest.swift:218-243 | a connected start registers the delegate without overwriting, subscribes under a fresh key and arms the timer; it uses a cached characteristic at once (action started), and otherwise sets `discoveringServices` and discovers only the requested service |
| GattScenarios.TimerSettlesChain | Source/Gatt/GattRequest.swift:83-92 | the intended timer body: status `timedOut`, operation rejected with `timedOut` unless already settled, the chain's outcome known and no action left to start |
| GattScenarios.TimerAsWrittenEffect | Source/Gatt/GattRequest.swift:83-92 | at any stage, the timer as written sets `timedOut`, drops itself and rejects only the operation's own action promise, plus the operation promise for notify; nothing else changes |
| GattScenarios.TimerAfterActionSettles | Source/Gatt/GattRequest.swift:83-108 | as written, a timeout after the action has started fails the operation with `timedOut` (unless settled), closes the chain and leaves nothing registered |
| GattScenarios.TimerOutcome | Source/Gatt/GattRequest.swift:83-92 | the intended timer, at any stage: status `timedOut`, operation rejected with `timedOut` unless already settled, chain closed, nothing left registered |
| GattScenarios.DisconnectOfAnotherDevice | Source/Gatt/GattRequest.swift:71-73 | the handler takes itself off the bus even for another device's event, and changes nothing else |
| GattScenarios.ResolveKeeps | Source/Gatt/GattRequest.swift:99-103 | the `always` step keeps the status, a settled operation and a dropped timer, and only removes bus directives |
| GattScenarios.DisconnectOfOwnDevice | Source/Gatt/GattRequest.swift:71-78 | for the request's own finder device: status `disconnected`, timer dropped, handler gone, operation rejected with `peripheralDisconected` carrying the last state |
| GattScenarios.ChainSettles | Source/Gatt/GattRequest.swift:97-108 | once the chain has an outcome, the operation adopts it and the request cleans up; status and commands are unchanged |
| GattScenarios.ServicesReply | Source/Gatt/GattRequest.swift:318-352 | error, then wrong peripheral, then missing service, each failing the operation with its own error and cleaning up; otherwise `discoveringCharacteristics` and discovery of the one characteristic |
| GattScenarios.CharacteristicsReply | Source/Gatt/GattRequest.swift:354-370 | the same checks, then a missing characteristic; once found it is stored, its promise fulfilled and the action run at once |
| GattScenarios.ReadKeepsCharacteristic | Source/Gatt/GattRequest.swift:250-267 | read changes neither the characteristic nor the chain's bookkeeping |
| GattScenarios.WriteKeepsCharacteristic | Source/Gatt/GattRequest.swift:269-292 | nor does write |
| GattScenarios.NotifyKeepsCharacteristic | Source/Gatt/GattRequest.swift:294-311 | nor does setNotify |
| GattScenarios.ActKeepsCharacteristic | Source/Gatt/GattRequest.swift:97-98 | nor does whichever action the `then` step runs |
| GattScenarios.ResolveKeepsCharacteristic | Source/Gatt/GattRequest.swift:99-103 | nor does the cleanup |
| GattScenarios.ActionRuns | Source/Gatt/GattRequest.swift:97-98 | with the characteristic located, the chain's reaction runs the action |
| GattScenarios.ValueReply | Source/Gatt/GattRequest.swift:372-406 | error, wrong peripheral, other characteristic, missing value, in that order, each with its own error; otherwise the get gets the value; only success sets `completed`; either way the request cleans up |
| GattScenarios.WriteReply | Source/Gatt/GattRequest.swift:408-434 | the same checks without the value; success completes the set; the status is unchanged |
| GattScenarios.NotificationStateReply | Source/Gatt/GattRequest.swift:436-456 | error, then wrong peripheral; the reply's characteristic is never looked at; the status is unchanged |
| GattScenarios.ReadGuard | Source/Gatt/GattRequest.swift:250-267 | read rejects with `notConnected` exactly when timed out, no characteristic or link down; otherwise `reading` and one read command |
| GattScenarios.WriteGuard | Source/Gatt/GattRequest.swift:269-292 | write has the same guard plus a payload; otherwise `writing` and one write command; the write promise is fulfilled at once exactly when without response |
| GattScenarios.NotifyGuard | Source/Gatt/GattRequest.swift:294-311 | setNotify has read's guard; otherwise `notifying` and one setNotify command |
| GattScenarios.WriteWithoutResponseCompletesAtOnce | Source/Gatt/GattRequest.swift:283-289 | with the characteristic cached, a set without response is fulfilled and cleaned up by the start alone |
| GattScenarios.GetServicesStep | Source/Gatt/GattRequest.swift:336-352 | in a get, the reply naming the requested service moves to `discoveringCharacteristics` and discovers only the requested characteristic on that service |
| GattScenarios.GetCharacteristicsStep | Source/Gatt/GattRequest.swift:354-370 | in a get, the reply naming the characteristic stores it, fulfils the characteristic promise and issues the read in the same step |
| GattScenarios.GetEndToEnd | Source/Gatt/GattRequest.swift:63-111 | discovery, then read: the get gets the value, status `completed`, exactly three commands, delegates as before, and every later report calls the same handlers as before the get |
| GattScenarios.TimeoutDuringDiscoveryLeavesResidue | Source/Gatt/GattRequest.swift:83-108 | as written, any request timing out during discovery keeps its delegate and disconnect handler registered with no timer left, and a second firing changes nothing; a get or set stays pending, a notify is rejected with `timedOut` |
| SampleGatt.Fulfil | XYSdkSample/Api/Gatt/GattClient.swift:36-37 | a PromiseKit seal settles once; later calls change nothing |
| SampleGatt.Reject | XYSdkSample/Api/Gatt/GattClient.swift:36-37 | the same for rejection |
| SampleGatt.GattClient.constructor | XYSdkSample/Api/Gatt/GattClient.swift:46-48 | every seal pending, nothing attached |
| SampleGatt.GattClient.Get | XYSdkSample/Api/Gatt/GattClient.swift:60-70 | the new state is `Begin` for a read |
| SampleGatt.GattClient.Set | XYSdkSample/Api/Gatt/GattClient.swift:72-80 | the new state is `Begin` for a write |
| SampleGatt.GattClient.GetCharacteristic | XYSdkSample/Api/Gatt/GattClient.swift:82-93 | the new state is `Locate` |
| SampleGatt.GattClient.Read | XYSdkSample/Api/Gatt/GattClient.swift:99-109 | the new state is `ReadAction` |
| SampleGatt.GattClient.Write | XYSdkSample/Api/Gatt/GattClient.swift:116-127 | the new state is `WriteActionAsWritten`: every write waits on the operation seal |
| SampleGatt.GattClient.RunChain | XYSdkSample/Api/Gatt/GattClient.swift:60-80 | the new state is `React` (`then`, `done`, `ensure`) |
| SampleGatt.GattClient.DidDiscoverServices | XYSdkSample/Api/Gatt/GattClient.swift:133-143 | the new state is `OnServices`, then the chain's reaction |
| SampleGatt.GattClient.DidDiscoverCharacteristics | XYSdkSample/Api/Gatt/GattClient.swift:145-157 | the new state is `OnCharacteristics`, then the chain's reaction |
| SampleGatt.GattClient.DidUpdateValue | XYSdkSample/Api/Gatt/GattClient.swift:159-172 | the new state is `OnValue`, then the chain's reaction |
| SampleGatt.GattClient.DidWriteValue | XYSdkSample/Api/Gatt/GattClient.swift:174-180 | the new state is `OnWrite`, then the chain's reaction |
| SampleGattProperties.DelegateKeyNamesService | XYSdkSample/Api/Gatt/GattClient.swift:56-58 | two of the sample's keys for one device are equal exactly when service and characteristic are |
| SampleGattProperties.SdkKeyIgnoresService | XYSdkSample/Api/Gatt/GattClient.swift:56-58 | unlike the sample's, the SDK's key is the same for two services with a common characteristic UUID |
| SampleGattProperties.ActionGuards | XYSdkSample/Api/Gatt/GattClient.swift:99-127 | read and write fail with `notConnected` exactly when no characteristic, link down or (write) no payload; otherwise one command and a wait on the operation seal, which neither touches, even for a write without response |
| SampleGattProperties.CallbacksIgnoreError | XYSdkSample/Api/Gatt/GattClient.swift:133-180 | no callback looks at its error, and the write callback does not look at the characteristic |
| SampleGattProperties.BodyGrows | XYSdkSample/Api/Gatt/GattClient.swift:133-180 | callbacks only settle seals, record the characteristic and issue commands |
| SampleGattProperties.OutcomeStaysSettled | XYSdkSample/Api/Gatt/GattClient.swift:60-80 | a settled chain outcome stays settled while seals only settle |
| SampleGattProperties.ReactRestores | XYSdkSample/Api/Gatt/GattClient.swift:60-80 | the chain's reaction leaves `ensure` run exactly when the outcome is known, with the key removed |
| SampleGattProperties.DeliverKeepsInv | XYSdkSample/Api/Gatt/GattClient.swift:133-180 | every callback keeps the invariant, and a settled result keeps its outcome |
| SampleGattProperties.RunKeepsInv | XYSdkSample/Api/Gatt/GattClient.swift:133-180 | so does any sequence of callbacks |
| SampleGattProperties.BeginEstablishesInv | XYSdkSample/Api/Gatt/GattClient.swift:82-93 | not connected: `notConnected` at once, no delegate, no command; connected: the delegate registered and all services discovered (no filter) |
| SampleGattProperties.SettlesOnceAndUnsubscribes | XYSdkSample/Api/Gatt/GattClient.swift:60-80 | whatever callbacks follow, the result settles at most once, and once settled the device no longer holds the key |
| SampleGattProperties.ServicesReply | XYSdkSample/Api/Gatt/GattClient.swift:133-143 | while locating: another peripheral fails with `mismatchedPeripheral`, then a missing service with `serviceNotFound`, each unsubscribing; otherwise only the requested characteristic of the first matching service is discovered and nothing else changes |
| SampleGattProperties.CharacteristicsReply | XYSdkSample/Api/Gatt/GattClient.swift:145-157 | another peripheral, then a missing characteristic, fail and unsubscribe; a found characteristic is stored and the action runs at once: `notConnected` when the link is down or a set has no payload, else one read or write command and the result still pending |
| SampleGattProperties.ValueReply | XYSdkSample/Api/Gatt/GattClient.swift:159-172 | while waiting on the operation: another peripheral, another characteristic and a missing value fail in that order with their own errors; otherwise success, a get storing the value; a pending set is completed by a value update too; either way the key is removed |
| SampleGattProperties.WriteReply | XYSdkSample/Api/Gatt/GattClient.swift:174-180 | while waiting on the operation: another peripheral fails it; otherwise success whatever the characteristic (a waiting get stores no data); either way the key is removed |
| SampleGattProperties.GetEndToEnd | XYSdkSample/Api/Gatt/GattClient.swift:60-70 | all services, then the characteristic, then the read: the data is stored, the get succeeds, the delegates are as before, three commands |
| SampleGattProperties.WriteWithoutResponseWaits | XYSdkSample/Api/Gatt/GattClient.swift:116-127 | as written, the chain's `then` step for a set without response waits for a reply that never comes: the set stays pending and the key stays registered |
| SampleGattProperties.CorrectedWriteWithoutResponseSettles | XYSdkSample/Api/Gatt/GattClient.swift:116-127 | with the intended `WriteAction`, the same set succeeds at once and unsubscribes |

## Left out

- CoreBluetooth is not modelled: the peripheral, its discovery, `readValue`, `writeValue` and `setNotifyValue`. Requests append transport commands to a log, and peripheral callbacks arrive as events carrying the peripheral's identifier. `self.device?.peripheral == peripheral` is compared by identifier.
- Dispatch queues are not modelled: the request's operations queue, the timer queue, the event manager's queue and `DispatchSource.singleTimer`. Callbacks, timer firings and disconnect reports are delivered one at a time, and the promise chain reacts within the same step. Races between them are not modelled; first settlement wins.
- Time is not modelled. The timeout length is stored, and the timer firing is an event. `Gatt.GattRequest.TimerFires` requires the timer to be armed, because dropping the `DispatchSourceTimer` cancels it.
- `Date()` readings are parameters of `Devices.BluetoothDevice.Update` and `Devices.BluetoothDevice.DidReadRssi`. `print` logging is left out.
- `UUID()` reference keys are drawn from a counter in `Events.EventManager`, which makes them fresh.
- Event kinds other than `disconnected` and `timedOut` are folded into one kind, and devices are compared by id.
- Weak captures (`[weak self]`) are not modelled: the request is always alive while its handlers run.
- The reassigned local `operationPromise` is modelled as the request's single operation promise.
- `GenericLock`, `lock()`/`unlock()`, `verifyExit` (empty), `verifyCounter` and the device's `deviceLock` are left out as pure concurrency.
- The self-rescheduling rssi read after `didReadRSSI` is left out (timing), as is `(self as? XYFinderDevice)?.detected()` there, because that protocol is not part of this model.
- `XYDeviceConnectionManager` and the device's own `notify(_:enabled:)` are not part of this model. Calls to them are logged, and the outcome of `notify` is a parameter.
- `XYDeviceCache`, `XYIBeaconDefinition` and `XYDeviceFamily.build(iBeacon:)` are not part of this model. The cache is a map by device id, and family building and `xyId(from:)` are functions given at construction.
- Device creators are identities whose creation outcome is a parameter of `Factory.DeviceFactory.BuildFromIBeacon`.
- `build(from xyId:)`, `build(from peripheral:)` and `updateDeviceLocations` in the factory are left out. They depend on `XYIBeaconDefinition`, on CBPeripheral identity and on `XYFinderDevice`, none of which is part of this model.
- `Factory.Lower` lower-cases ASCII letters only, which is what UUID strings contain.
- `Errors.StateDebugDescription`: the text of a present peripheral state is the runtime's reflection of the imported enum, approximated by a fixed string. Only its prefix and the "nil" case are relied on.
- The sample's `GattOperation` and `GattCharacteristicType` enums are left out: the code shown never uses them.
- The sample's `deinit` has an empty body and is left out.
- The sample's device type is modelled by the SDK device class (`Devices.BluetoothDevice`), and `device.uuid` by the client's parameters.
- `XYBluetoothValue.setData` is modelled as the `stored` field of the sample client.
- Each request and sample client is bound to one target device when it is constructed, because the source's requests are single use.
- Integer widths: rssi is an unbounded integer (readings are small negatives), and the power level is a byte.

## Findings

| source | as written | input that shows it | evidently intended | confidence | as-written member | corrected member |
|---|---|---|---|---|---|---|
| XyBleSdk/Classes/Devices/Base/XYBluetoothDeviceBase.swift:45 | the default rssi is `XYDeviceProximity.none.rawValue`, i.e. 0 | a device created without an rssi and not connected: `fromSignalStrength(0)` is `touching`, so `inRange` is true before any reading | the "no reading" value -999 (`defaultProximity`), so a device never heard from is out of range | medium (not executed) | Devices.InitialRssiAsWrittenInRange | Devices.InitialRssiNotInRange |
| Source/Gatt/GattRequest.swift:83-92 | the timer rejects only the action promise (and, for notify, the operation promise); the chain and its cleanup are still waiting on the characteristic promise | a get on a connected peripheral that never answers service discovery: the timer fires, the status becomes `timedOut`, and the operation never settles; for every operation, notify included, the delegate and the disconnect handler stay registered | the timeout settles the operation with `timedOut` and cleans up ("Self-cleaning if we timeout", :82) | high (not executed) | GattScenarios.TimeoutDuringDiscoveryLeavesResidue | GattScenarios.TimerOutcome |
| XYSdkSample/Api/Gatt/GattClient.swift:116-127 | a write without response returns the operation promise, which only the write callback settles | a set with `withResponse: false` on a connected peripheral with the characteristic found: the peripheral sends no write reply for such a write, so the set never settles and the delegate key is never removed | a write without response is done once issued, as the SDK's request does (Source/Gatt/GattRequest.swift:286-289) | medium (not executed) | SampleGattProperties.WriteWithoutResponseWaits | SampleGattProperties.CorrectedWriteWithoutResponseSettles |
