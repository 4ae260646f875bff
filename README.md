# lutron-bacnet, modelled in Dafny

A model of the Viam module that finds Lutron devices on a BACnet network and exposes
them as sensors and switches, with proofs of what each part promises.

- `values.dfy` (`Values`): the loosely typed Python values the resources exchange
  (`Value`, `Dict`), `dict.get`, truthiness, `str()`, `list()`, `int()` and `int(s, 16)`,
  and the decimal and hexadecimal text of integers.
- `bacnet.dfy` (`Bacnet`): the scan result, the BAC0 client's `read` as an oracle keyed by
  the query text the code builds, and the `network:hexID` device address that sensors and
  switches parse in `reconfigure`.
- `viam.dfy` (`Viam`): a component configuration, the sensor API and the sensor model.
- `switch.dfy` (`Switch`): the `lutron-switch` resource (its Python class is named
  `BacnetSensor` in `src/switch.py`). Reading a position clamps and scales the present
  value; setting one writes the raw value at priority 16, recorded in a write log.
- `controller.dfy` (`Controller`): the reference-counted singleton that holds the one BAC0
  client, as a class with the source's objects and counters. The pure transition functions
  `ConstructStep` and `ReleaseStep` carry the counting lemmas. The class methods are proved
  to agree with them.
- `discovery.dfy` (`Discovery`): the concurrent `discover-devices` service. `asyncio.gather`
  is modelled by its order-preserving result, and the semaphore by its two failure modes.
- `sensor.dfy` (`Sensor`): the `lutron-sensor` resource: one present-value read per
  configured object, with the readings keyed by object name.
- `button.dfy` (`Button`): the `discovery-button` resource. It covers config validation,
  the entry built for each discovered configuration, and the preserve-and-append merge
  taken out of `push`. It also covers `do_command` and the `_last_config` updates.
- `legacy_discovery.dfy` (`LegacyDiscovery`): the older sequential service in
  `src/main.py`. Its loop is a `while` loop over the devices, checked against a step-by-step
  specification (`Visited`). It returns the configurations, the reads it sent, in order, and
  the network-number lists as the loop leaves them.

Every BACnet read, app call and library start is a parameter: a `Network` of read
oracles, or a boolean saying whether the call returned. The BACnet `read` answers
`Failed` when it raises.

Some behaviours of the source that the model keeps as written:
- `BacnetController.__init__` marks the instance initialized before `BAC0.start`. A failed
  start therefore leaves a shared instance with no client (`ConstructStep`,
  `Controller.BacnetController.Init`). A later `release` of that instance then raises
  (`NoClient`).
- For an analog point, `get_position` reports 5 at full scale, one past the positions
  0..4 that `get_number_of_positions` (5) and `set_position` allow
  (`Switch.AnalogPositionsAgainstCount`).
- For a binary point, `set_position` writes the position as given, without limiting it to
  0 or 1 (`Switch.RawValueFor`, `Switch.BinaryRoundTrip`).
- `max_query_concurrency` defaults to 5 (`Discovery.DiscoverDevices.Reconfigure`).
- The discovery semaphore bounds the per-device queries, not the object-name reads inside
  one device. `asyncio.Semaphore(n)` raises for `n < 0`. With `n == 0`, the first device
  query waits forever. Both are errors of `Discovery.Discovered`.

## Model

| member | source | states |
|---|---|---|
| Values.ListOf | src/sensor.py:73 | `list(v)`: a list gives its items, a string its one-character strings; None, booleans, numbers and dicts are refused |
| Values.IntOf | src/switch.py:90 | `int(v)` of an int is that int; None, lists and dicts raise |
| Values.HashKey | src/sensor.py:98 | a value can be a dict key iff it is not a list or a dict |
| Values.PaddedHexAccepted | src/switch.py:71 | `int(" 1f", 16)` and `int("0x1f\n", 16)` are 31: surrounding C white space is stripped; `int("\x1c1f", 16)` raises, as an information separator is not stripped |
| Values.GroupedHexAccepted | src/switch.py:71 | `int("1_f", 16)` is 31 and `int("-0x_1f", 16)` is -31: one underscore between digits or after the prefix is allowed |
| Values.MisgroupedHexRefused | src/switch.py:71 | a leading, trailing or doubled underscore, a bare `0x` and blank text raise |
| Values.ParseIntOfPrefixedHex | src/switch.py:71 | `int(hex(n), 16) == n` for every natural `n`: the hexadecimal digits of `n` behind `0x` parse back to `n` |
| Bacnet.SplitParts | src/switch.py:70 | `split(":")` gives one more part than there are separators, no part holds one, and joining the parts gives the text back |
| Bacnet.ParseAddressMeaning | src/switch.py:70-71 | an address parses iff it holds exactly one `:` and the text after it is hexadecimal; the network id is the text before the `:`; a bad device part is reported with its text |
| Bacnet.ReadAddressMeaning | src/sensor.py:66-69 | the address step stores the configured address; on success `address == networkId + ":" + text` whose hex value is `deviceId`; a wrong field count changes neither field; a bad hex leaves the text in `deviceId` |
| Bacnet.ParseAddressRoundTrip | src/switch.py:68-71 | `network:0x<hex id>` parses back to the network and the id |
| Bacnet.DefaultAddressParses | src/switch.py:68 | the default `0:0x00` is device 0 on network "0" |
| Bacnet.PaddedAddressParses | src/switch.py:70-71 | `0: 1f` is device 31 on network "0": the space after the `:` is stripped by `int()` |
| Bacnet.SeparatorAddressRefused | src/switch.py:70-71 | `0:\x1c1f` is refused with the bad device text, as `int()` does not strip U+001C |
| Switch.Clamp | src/switch.py:92 | `max(lo, min(hi, x))` lies in `lo..hi`, is `x` inside it and the nearer bound outside |
| Switch.PositionOf | src/switch.py:88-94 | binary: the integer value, unclamped; analog: the value clamped to 0..100 and divided by 20, so 0..5; other types: 0; fails iff `int()` of the value raises |
| Switch.RawValueFor | src/switch.py:104-108 | binary: the position unchanged; analog: a multiple of 20 in 0..80, `20 * p` for `p` in 0..4; other types write nothing |
| Switch.NumberOfPositions | src/switch.py:110-121 | nonzero exactly for the point types `set_position` writes; positions `0..n-1` write distinct raw values; every analog position writes the value of one of them |
| Switch.AnalogRoundTrip | src/switch.py:91-108 | reading back what `set_position(p)` wrote to an analog point gives `clamp(p, 0, 4)`, so `p` itself for `p` in 0..4 |
| Switch.BinaryRoundTrip | src/switch.py:89-105 | reading back a binary write gives the position unchanged |
| Switch.AnalogPositionsAgainstCount | src/switch.py:91-121 | analog positions lie in 0..5, full scale reads 5 (the position count), and every position written reads back below 5 |
| Switch.DoCommand | src/switch.py:159-162 | every command key answers False and no other key appears |
| Switch.BacnetSwitch.constructor | src/switch.py:23 | no controller and no writes yet |
| Switch.BacnetSwitch.Reconfigure | src/switch.py:58-79 | the address step as `ReadAddress`; then `propName`, `propAddress`, `propType` as text (defaults "N/A", "None", "None") and the controller; an address error leaves them unchanged; no write is issued |
| Switch.BacnetSwitch.PresentValue | src/switch.py:123-135 | None without a controller, None when the read raises, the value read otherwise |
| Switch.BacnetSwitch.GetPosition | src/switch.py:81-94 | a point type other than binary or analog reports 0; without a controller a binary or analog point fails on `int(None)` |
| Switch.BacnetSwitch.RequestFor | src/switch.py:137-150 | a write goes to `presentValue` at priority 16 with the given value |
| Switch.BacnetSwitch.Update | src/switch.py:137-150 | one request is appended to the write log when there is a controller; the result is True, or the error of a missing controller or a rejected write |
| Switch.BacnetSwitch.SetPosition | src/switch.py:96-108 | exactly the write of `RawValueFor` is logged (none for other types), with its error |
| Controller.Instance.constructor | src/controller.py:19-20 | a new instance is not initialized and holds no client |
| Controller.ConstructStep | src/controller.py:16-34 | a construction leaves an initialized instance; it starts a client only on an uninitialized one; it adds one reference unless the start raised; an initialized instance is kept as it was |
| Controller.ReleaseStep | src/controller.py:36-42 | a release drops one reference; at zero or below with an instance it disconnects once, clears the instance and resets the count; it raises when the instance has no client or `disconnect` raises, keeping the instance and the dropped count |
| Controller.AcquireCounts | src/controller.py:25-34 | once an instance is initialized, `k` constructions add `k` references and start no client |
| Controller.ReleaseCounts | src/controller.py:36-42 | `k` releases from a count of `k` disconnect exactly once, on the last |
| Controller.AcquireThenRelease | src/controller.py:16-42 | from no instance, `k >= 1` constructions then `k` releases start one client, disconnect once and leave no instance |
| Controller.FailedDisconnectKeepsInstance | src/controller.py:36-42 | when `disconnect` raises on the last release, the instance and its client survive with a count of 0, and the next construction reuses them |
| Controller.TeardownThenConstruct | src/controller.py:18-42 | after a teardown the next construction makes a fresh instance and starts a new client |
| Controller.BacnetController.constructor | src/controller.py:10-12 | no instance and no references |
| Controller.BacnetController.New | src/controller.py:16-21 | `__new__` returns the existing instance, or a fresh uninitialized one that becomes the instance |
| Controller.BacnetController.Init | src/controller.py:23-34 | only an uninitialized instance starts a client (numbered by the start count); a raising start adds no reference; otherwise the count grows by one |
| Controller.BacnetController.Construct | src/controller.py:16-34 | `__new__` then `__init__` agree with `ConstructStep` and return the current instance |
| Controller.BacnetController.Release | src/controller.py:36-42 | the count drops by one; at zero or below with an instance, the caller's client is disconnected, the instance cleared and the count reset; a raising `disconnect` keeps the instance and the dropped count; on the current instance it agrees with `ReleaseStep` |
| Discovery.ObjectDetails | src/discovery.py:95-113 | a name read that returns gives `{name, address, type}` as text; one that raises gives `{type, address}` without `name` |
| Discovery.KeptObjects | src/discovery.py:124-128 | exactly the objects whose type is not `device` are kept |
| Discovery.KeptObjectsAppend | src/discovery.py:124-128 | the filter keeps the object-list order |
| Discovery.DeviceObjects | src/discovery.py:115-130 | one record per kept object, in order; none when the object-list read raises or returns None |
| Discovery.ConfigOfDevice | src/discovery.py:131-155 | each configuration is named `device (vendor)`, is a Lutron sensor, and has exactly `devID`, `address`, `network`, `objects` |
| Discovery.Discovered | src/discovery.py:75-158 | nothing without a client; with a positive bound, one configuration per scanned device; an error iff the semaphore bound is negative, or zero with devices to query |
| Discovery.DiscoveredInScanOrder | src/discovery.py:140-156 | configuration `i` describes scanned device `i` |
| Discovery.ConfigsFor | src/discovery.py:144-156 | the append loop builds one configuration per queried device, in order |
| Discovery.DiscoverDevices.constructor | src/discovery.py:27 | no client before the first `reconfigure` |
| Discovery.DiscoverDevices.Reconfigure | src/discovery.py:58-73 | `max_query_concurrency` is `int()` of the attribute, 5 when absent; a non-integer raises before the client starts; the client is set iff the start returned |
| Discovery.DiscoverDevices.DiscoverResources | src/discovery.py:75-158 | the result is `Discovered` for the current client and bound |
| Sensor.WithPresentValue | src/sensor.py:108 | `obj \| {"presentValue": v}` adds or replaces exactly that key |
| Sensor.PresentValueForMeaning | src/sensor.py:100-112 | a reading is its object with `presentValue` set to the value read, or "N/A" without a controller or when the read raises; only a non-dict object fails |
| Sensor.GatherReadingsMeaning | src/sensor.py:94-97 | gathering succeeds iff every object is a dict, giving one reading per object in object order |
| Sensor.KeyByNameSucceeds | src/sensor.py:98 | keying by name succeeds iff every reading has a `name` that is not a list or a dict |
| Sensor.KeyByNameKeys | src/sensor.py:98 | the keys are exactly the hash keys of the readings' names, so `True`, `1` and `1.0` are one key |
| Sensor.KeyByNameLastWins | src/sensor.py:98 | a key holds the last reading whose name equals it |
| Sensor.KeyByNameFirstKeyKept | src/sensor.py:98 | a key keeps the name object of the first reading whose name equals it |
| Sensor.LaterDuplicateWins | src/sensor.py:98 | of two readings with equal names, the later reading is kept under the earlier name |
| Sensor.EqualNamesCollapse | src/sensor.py:98 | names `True` then `1.0` give one entry, keyed `True`, holding the second reading |
| Sensor.UnhashableNameRaises | src/sensor.py:98 | a list as a name makes the comprehension raise |
| Sensor.ReadingsSucceed | src/sensor.py:94-98 | the readings succeed iff every object is a dict whose name can be a dict key |
| Sensor.ReadingsKeys | src/sensor.py:94-98 | the readings' keys are the keys of the objects' names |
| Sensor.ReadingsLastWins | src/sensor.py:94-98 | an object with no equal name after it has its own reading stored under its name |
| Sensor.NoControllerReadings | src/sensor.py:101-102 | without a controller every reading is "N/A" |
| Sensor.BacnetSensor.constructor | src/sensor.py:25 | no controller and no objects before the first `reconfigure` |
| Sensor.BacnetSensor.GetReadings | src/sensor.py:87-98 | succeeds iff every configured object is a dict with a hashable name; the keys are the objects' names; the last object with a name gives the reading stored under it |
| Sensor.BacnetSensor.Reconfigure | src/sensor.py:56-85 | the address step as `ReadAddress`; then `list(objects)`, default `[]`, and the controller; a step that raises leaves the later fields unchanged |
| Button.ValidateConfig | src/button.py:34-46 | an error iff `discovery_service` or `machine_part_id` is missing or falsy, in that order; otherwise the one dependency `rdk:service:discovery/<name>` |
| Button.FloatOf | src/button.py:53 | `float()` of an int or float is its value; None, lists and dicts raise |
| Button.ComponentConfigToDict | src/button.py:109-132 | name, api, model and attributes, plus `service_configs` (the capture block) iff the frequency is positive and the api contains `sensor` |
| Button.DiscoveredSensorCapture | src/button.py:116 | a discovered sensor gets capture settings iff the frequency is positive |
| Button.NewComponents | src/button.py:77 | one entry per discovered configuration, in discovery order |
| Button.KeepOthersMeaning | src/button.py:89-92 | the filter succeeds iff every component is a dict, and keeps exactly the components not claimed |
| Button.KeepOthersAppend | src/button.py:89-92 | the filter keeps the components' order |
| Button.PreservedMeaning | src/button.py:86-92 | `preserved` is exactly the existing components whose model lacks the Lutron prefix, in their order; a non-dict component raises |
| Button.MergeConfigMeaning | src/button.py:84-96 | only `components` changes; it is the preserved components (exactly the non-Lutron existing ones, none with the prefix) followed by all new entries in order |
| Button.DiscoveryButton.constructor | src/button.py:24 | no last configuration |
| Button.DiscoveryButton.Reconfigure | src/button.py:48-63 | the part id as text; the frequency as `float()`, 0 when absent; `_last_config` cleared; the discovery service looked up by name; a step that raises leaves later fields unchanged |
| Button.DiscoveryButton.Push | src/button.py:65-107 | `_last_config` becomes the new entries before any app call; the result is `MergeConfig` of the part's configuration, or the error of a raising app call |
| Button.DiscoveryButton.LastConfigOrEmpty | src/button.py:144 | `_last_config or []` is a list: the last entries when there are some, `[]` otherwise |
| Button.DiscoveryButton.DoCommand | src/button.py:134-147 | every key answers False except `get_last_config`, which answers the last entries or `[]` |
| LegacyDiscovery.Pop | src/main.py:129 | `pop()` gives the last element and the list without it; an empty list raises |
| LegacyDiscovery.ObjectReadsAppend | src/main.py:99-117 | each object's reads follow the previous object's, whatever they returned |
| LegacyDiscovery.DeviceObjectsNotRead | src/main.py:99-102 | `device` objects issue no reads |
| LegacyDiscovery.NameReadIssued | src/main.py:100-117 | the name of every non-device object is read, even after earlier reads raised |
| LegacyDiscovery.LegacyConfigMeaning | src/main.py:121-133 | each configuration is named `device (vendor)`, is a Lutron sensor, and has exactly `devId`, `device_address` and the popped `network_number` |
| LegacyDiscovery.FirstEmpty | src/main.py:93-129 | the first device whose network-number list is empty, every list before it being non-empty |
| LegacyDiscovery.LegacyResult | src/main.py:91-135 | an error iff some list is empty, naming the first such device; otherwise one configuration per device, in scan order, whatever its reads returned |
| LegacyDiscovery.Remaining | src/main.py:129 | each list up to the first empty one loses its last element; the others are untouched |
| LegacyDiscovery.ReadObjects | src/main.py:99-117 | the object loop sends exactly `ObjectReads` |
| LegacyDiscovery.ReadDevice | src/main.py:94-119 | the device's `try` block sends the object-list read, then its objects' reads when the list came back |
| LegacyDiscovery.ScanDevices | src/main.py:91-135 | the device loop returns `LegacyResult`, sends the reads of the devices it reached in order, and leaves the lists as `Remaining` |
| LegacyDiscovery.LegacyDiscovery.constructor | src/main.py:28 | no client before the first `reconfigure` |
| LegacyDiscovery.LegacyDiscovery.Reconfigure | src/main.py:59-72 | the client is set iff the start returned; a raising start keeps the old one |
| LegacyDiscovery.LegacyDiscovery.DiscoverResources | src/main.py:74-135 | no configuration, no read and no pop without a client; otherwise `ScanDevices` |

## Left out

- Logging and the framework hooks `new`, `close` and the `validate_config` that return empty lists; `do_command` raising `NotImplementedError` in the sensor and both discovery services.
- The gRPC switch service and client and the abstract switch interface under `src/internal`, and the UDP port binding in `src/utils.py`: transport, sockets and randomness.
- The BAC0 and bacpypes3 calls: `read`, `write_property`, `disconnect` and `BAC0.start` are oracles or success flags. `_discover` and `_devices` are assumed to return: the scan result is a parameter, and an exception they raise is not modelled.
- `asyncio` concurrency and the controller's lock: only the order-preserving results and the sequential reference counts are modelled.
- The resources' construction of the shared controller: the sensor and switch only set `hasController`. The counting is modelled in `Controller`, not linked to them. `BacnetController(logger=...)` does not match `__new__(cls)`, and `close` never calls `release`: neither is modelled. When `BAC0.start` raises on the first construction, the source's `reconfigure` raises after the address fields (and, for the sensor, `objectList`; for the switch, the point fields) are set; the model always sets `hasController` and reports no error on that path.
- Sensor.KeyByName: a float NaN name is its own key each time in Python; the model's reals have no NaN.
- Dict insertion order: `Dict` is a map.
- Values.ListOf: `list()` of a dict is refused where Python gives its keys, because the result would depend on insertion order.
- Values.IntOf: text is parsed with only the six C white-space characters (space, tab, line feed, vertical tab, form feed, carriage return) stripped around it, an optional sign, ASCII digits and single underscores between them. Non-ASCII white space and non-ASCII digits, which Python also accepts, are treated as raising. The same holds for `int(s, 16)` in `Values.ParseInt`.
- Button.FloatOf: only decimal-integer text converts; other float literals are treated as raising.
- `str()` of a non-integral float, of a float of magnitude 10**16 or more (Python writes `1e+16`), of a list or of a dict is a placeholder text, not Python's rendering.
- Sensor.BacnetSensor.GetReadings: before any `reconfigure` succeeds, the source's `self.bacnet` is unset and raises; the model answers "N/A" as for `None`. `new` always runs `reconfigure`, so the resource never reaches that state.
- Bacnet.ScannedDevice: each device's `network_number` is assumed to be a Python list of ints, as BAC0's `_devices` is taken to return it; the source only calls `pop()` and `str()` on it.
- LegacyDiscovery.ObjectTrace: an object's type is taken to be text. `src/main.py:101` compares it with `"device"` directly, while `src/discovery.py:127` compares `str()` of it; if BAC0 gave a non-text type, the legacy loop would not skip device objects, and that is not modelled.
- Button.DiscoveryButton.Push: the discovered configurations are a parameter, so the path where `discover_resources()` raises (the semaphore errors of `Discovery.Discovered`, for one) is not modelled; there `push` raises and `_last_config` keeps its old value.
- LegacyDiscovery.ScanDevices: each device's network numbers are a Python list held by value. Aliasing between devices that share one list object is not modelled.
- LegacyDiscovery.LegacyConfig: numbers in the configuration struct are stored as floats, so `devId` and `network_number` become reals.
- The app calls in `push` (`ViamClient.create_from_env_vars`, `get_robot_part`, `update_robot_part`, `close`): one `Reply` for reading the part and a flag for the update.
- The dependency lookup in the button's `reconfigure`: the dependencies are the set of discovery service names present.
