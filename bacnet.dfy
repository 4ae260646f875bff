/** What the resources see of the BACnet network: the scan result, the client's
    read operation (an oracle keyed by the query text the code builds), and the
    `network:hexID` device addresses used in configurations. */
module Bacnet {
  import opened Values

  /** A BACnet object identifier: `str()` of its object type and its instance number. */
  datatype ObjectId = ObjectId(objType: string, instance: nat)

  /** One tuple of the device list returned by the scan:
      (deviceName, vendorName, devId, device_address, network_number). The network
      number collection is a Python list of ints. */
  datatype ScannedDevice = ScannedDevice(name: string, vendor: string, devId: nat, address: string, networks: seq<int>)

  /** The BAC0 client's `read`. An `objectList` read returns a list of object identifiers
      or None; any other property read returns a value. Either may raise. */
  datatype Network = Network(
    objectLists: string -> Reply<Option<seq<ObjectId>>>,
    properties: string -> Reply<Value>)

  const DEVICE_TYPE := "device"
  const OBJECT_LIST := "objectList"
  const OBJECT_NAME := "objectName"
  const PRESENT_VALUE := "presentValue"

  /** Every write goes to the lowest BACnet command priority. */
  const WRITE_PRIORITY := 16

  /** The address a sensor or switch uses when its configuration has none. */
  const DEFAULT_ADDRESS := "0:0x00"

  /** `str(attrs.get("address", "0:0x00"))` */
  function ConfiguredAddress(attrs: Dict): string
  {
    GetText(attrs, "address", Text(DEFAULT_ADDRESS))
  }

  /** `f"{device_address} device {devId} objectList"` */
  function ObjectListQuery(deviceAddress: string, devId: nat): string
  {
    deviceAddress + " " + DEVICE_TYPE + " " + NatText(devId, 10) + " " + OBJECT_LIST
  }

  /** `f"{deviceAddress} {obj_type} {obj_address} {prop}"` */
  function PropertyQuery(deviceAddress: string, objType: string, objAddress: string, prop: string): string
  {
    deviceAddress + " " + objType + " " + objAddress + " " + prop
  }

  /** Number of occurrences of `c` in `s`. */
  function Count(s: string, c: char): nat
  {
    if s == [] then 0 else (if s[0] == c then 1 else 0) + Count(s[1..], c)
  }

  /** The inverse of `Split`: the parts with `sep` between them. */
  function Join(parts: seq<string>, sep: char): string
    requires |parts| >= 1
  {
    if |parts| == 1 then parts[0] else parts[0] + [sep] + Join(parts[1..], sep)
  }

  /** Python's `s.split(sep)` for a one-character separator. */
  function Split(s: string, sep: char): (parts: seq<string>)
    ensures |parts| >= 1
    decreases |s|
  {
    if s == [] then [""]
    else
      var rest := Split(s[1..], sep);
      if s[0] == sep then [""] + rest else [[s[0]] + rest[0]] + rest[1..]
  }

  /** `s.split(sep)` has one more part than `s` has separators, no part holds the separator,
      and joining the parts with the separator gives `s` back. */
  lemma {:induction false} SplitParts(s: string, sep: char)
    ensures |Split(s, sep)| == Count(s, sep) + 1
    ensures forall k :: 0 <= k < |Split(s, sep)| ==> sep !in Split(s, sep)[k]
    ensures Join(Split(s, sep), sep) == s
    decreases |s|
  {
    if s != [] {
      SplitParts(s[1..], sep);
      var rest := Split(s[1..], sep);
      if s[0] != sep {
        var parts := [[s[0]] + rest[0]] + rest[1..];
        assert parts == Split(s, sep);
        if |rest| > 1 {
          assert parts[1..] == rest[1..];
        }
        assert s == [s[0]] + s[1..];
      }
    }
  }

  lemma {:induction false} CountAppend(x: string, y: string, c: char)
    ensures Count(x + y, c) == Count(x, c) + Count(y, c)
    decreases |x|
  {
    if x != [] {
      assert (x + y)[1..] == x[1..] + y;
      CountAppend(x[1..], y, c);
    } else {
      assert x + y == y;
    }
  }

  lemma {:induction false} CountAbsent(s: string, c: char)
    requires c !in s
    ensures Count(s, c) == 0
    decreases |s|
  {
    if s != [] {
      CountAbsent(s[1..], c);
    }
  }

  /** Splitting `x:y` where neither side holds the separator gives back the two sides. */
  lemma SplitOfPair(x: string, y: string, sep: char)
    requires sep !in x && sep !in y
    ensures Split(x + [sep] + y, sep) == [x, y]
  {
    var s := x + [sep] + y;
    CountAppend(x, [sep] + y, sep);
    CountAppend([sep], y, sep);
    CountAbsent(x, sep);
    CountAbsent(y, sep);
    assert s == x + ([sep] + y);
    SplitParts(s, sep);
    var parts := Split(s, sep);
    assert |parts| == 2;
    assert Join(parts[1..], sep) == parts[1];
    assert s == parts[0] + [sep] + parts[1];
    SplitHalves(x, y, parts[0], parts[1], sep);
  }

  /** Position of the first `c` in `s`. */
  function FirstIndex(s: string, c: char): (i: nat)
    requires c in s
    ensures i < |s| && s[i] == c
  {
    if s[0] == c then 0 else 1 + FirstIndex(s[1..], c)
  }

  lemma {:induction false} FirstIndexAfter(x: string, y: string, c: char)
    requires c !in x
    ensures FirstIndex(x + [c] + y, c) == |x|
    decreases |x|
  {
    if x != [] {
      assert (x + [c] + y)[1..] == x[1..] + [c] + y;
      FirstIndexAfter(x[1..], y, c);
    }
  }

  /** If `x:y == x':y'` and no side holds the separator, the sides agree. */
  lemma SplitHalves(x: string, y: string, x': string, y': string, sep: char)
    requires sep !in x && sep !in y && sep !in x' && sep !in y'
    requires x + [sep] + y == x' + [sep] + y'
    ensures x == x' && y == y'
  {
    var s := x + [sep] + y;
    FirstIndexAfter(x, y, sep);
    FirstIndexAfter(x', y', sep);
    assert x == s[..|x|] == x';
    assert y == s[|x| + 1..] == y';
  }

  /** The network part and the device instance of a `network:hexID` address. */
  datatype DeviceAddress = DeviceAddress(networkId: string, deviceId: int)

  datatype AddressError =
    | FieldCount(count: nat)   // `split(":")` did not give exactly two fields
    | BadDeviceId(text: string)  // `int(text, 16)` raised

  /** `networkId, deviceID = address.split(":")` followed by `int(deviceID, 16)`. */
  function ParseAddress(address: string): (r: Result<DeviceAddress, AddressError>)
  {
    var parts := Split(address, ':');
    if |parts| != 2 then Err(FieldCount(|parts|))
    else match ParseInt(parts[1], 16)
      case None => Err(BadDeviceId(parts[1]))
      case Some(id) => Ok(DeviceAddress(parts[0], id))
  }

  /** An address parses exactly when it holds one `:` and the text after it is a hexadecimal
      integer; the network id is then the text before the `:` and the device id the value
      of the text after it. When only the device part is not hexadecimal, the error carries
      the text after the `:`. */
  lemma ParseAddressMeaning(address: string)
    ensures Count(address, ':') != 1 <==> ParseAddress(address) == Err(FieldCount(Count(address, ':') + 1))
    ensures var r := ParseAddress(address);
      r.Ok? ==>
        && ':' !in r.value.networkId
        && StartsWith(address, r.value.networkId + ":")
        && ParseInt(address[|r.value.networkId| + 1..], 16) == Some(r.value.deviceId)
    ensures var r := ParseAddress(address);
      r.Err? && r.error.BadDeviceId? ==>
        && Count(address, ':') == 1
        && ParseInt(r.error.text, 16).None?
        && ':' !in Split(address, ':')[0]
        && address == Split(address, ':')[0] + ":" + r.error.text
  {
    SplitParts(address, ':');
    var parts := Split(address, ':');
    if |parts| == 2 {
      assert Join(parts[1..], ':') == parts[1];
      assert address == parts[0] + ":" + parts[1];
      assert address[|parts[0]| + 1..] == parts[1];
    }
  }

  /** The attributes `reconfigure` derives from the device address: the address text, the
      network part and the device instance. `deviceId` holds what the Python attribute holds:
      the parsed integer, the unparsed text when `int(text, 16)` raised, or, when the address
      did not split in two, whatever it held before. */
  datatype DeviceFields = DeviceFields(address: string, networkId: string, deviceId: Value)

  /** The address step of a sensor's or switch's `reconfigure`: store `str(address)`, unpack
      its `split(":")` into the network id and the device id, then convert the device id
      with `int(_, 16)`. An error leaves the fields assigned before the failing step. */
  function ReadAddress(before: DeviceFields, attrs: Dict): (r: (DeviceFields, Option<AddressError>))
  {
    var address := ConfiguredAddress(attrs);
    match ParseAddress(address)
    case Ok(a) => (DeviceFields(address, a.networkId, Int(a.deviceId)), None)
    case Err(e) =>
      if e.BadDeviceId? then (DeviceFields(address, Split(address, ':')[0], Text(e.text)), Some(e))
      else (before.(address := address), Some(e))
  }

  /** After the address step the address is the configured one; it succeeded exactly when the
      address holds one `:` followed by a hexadecimal integer, and then the address spells
      `networkId:hex(deviceId)`; a wrong field count changes nothing else; a bad device id
      leaves the network id set and the device id holding the text after the `:`. */
  lemma ReadAddressMeaning(before: DeviceFields, attrs: Dict)
    ensures var (after, err) := ReadAddress(before, attrs);
      && after.address == ConfiguredAddress(attrs)
      && (err.None? ==>
            && ':' !in after.networkId
            && StartsWith(after.address, after.networkId + ":")
            && after.deviceId.Int?
            && ParseInt(after.address[|after.networkId| + 1..], 16) == Some(after.deviceId.i))
      && (Count(after.address, ':') != 1 <==> err == Some(FieldCount(Count(after.address, ':') + 1)))
      && (err.Some? && err.value.FieldCount? ==>
            after.networkId == before.networkId && after.deviceId == before.deviceId)
      && (err.Some? && err.value.BadDeviceId? ==>
            && ':' !in after.networkId
            && after.address == after.networkId + ":" + err.value.text
            && after.deviceId == Text(err.value.text)
            && ParseInt(err.value.text, 16).None?)
  {
    ParseAddressMeaning(ConfiguredAddress(attrs));
  }

  /** An address written as `network:0x<hex>` parses back to its network and device. */
  lemma ParseAddressRoundTrip(networkId: string, deviceId: nat)
    requires ':' !in networkId
    ensures ParseAddress(networkId + ":0x" + NatText(deviceId, 16)) == Ok(DeviceAddress(networkId, deviceId))
  {
    var hex := "0x" + NatText(deviceId, 16);
    DigitsValueOfNatText(deviceId, 16);
    assert ':' !in hex by {
      forall k | 0 <= k < |hex| ensures hex[k] != ':' {
        if k >= 2 {
          assert DigitValue(NatText(deviceId, 16)[k - 2]).Some?;
        }
      }
    }
    assert networkId + ":0x" + NatText(deviceId, 16) == networkId + [':'] + hex;
    SplitOfPair(networkId, hex, ':');
    ParseIntOfPrefixedHex(deviceId);
  }

  /** The default address names device 0 on network "0". */
  lemma DefaultAddressParses()
    ensures ParseAddress(DEFAULT_ADDRESS) == Ok(DeviceAddress("0", 0))
  {
    SplitOfPair("0", "0x00", ':');
    assert DEFAULT_ADDRESS == "0" + [':'] + "0x00";
    DefaultDeviceIdParses();
  }

  /** White space around the device id is accepted, as `int(_, 16)` strips it. */
  lemma PaddedAddressParses()
    ensures ParseAddress("0: 1f") == Ok(DeviceAddress("0", 31))
  {
    SplitOfPair("0", " 1f", ':');
    assert "0: 1f" == "0" + [':'] + " 1f";
    PaddedHexAccepted();
  }

  /** An information separator before the device id is not white space to `int()`: the
      address is refused with the text after the `:`. */
  lemma SeparatorAddressRefused()
    ensures ParseAddress("0:\U{1C}1f") == Err(BadDeviceId("\U{1C}1f"))
  {
    SplitOfPair("0", "\U{1C}1f", ':');
    assert "0:\U{1C}1f" == "0" + [':'] + "\U{1C}1f";
    SeparatorNotStripped();
  }

  lemma DefaultDeviceIdParses()
    ensures ParseInt("0x00", 16) == Some(0)
  {
    assert DigitsValue("00", 16) == Some(0) by {
      assert "00"[..1] == "0";
      assert "0"[..0] == [];
    }
    DigitsHaveNoUnderscore("00", 16);
    HexLiteral("00");
    assert "0x" + "00" == "0x00";
    ParseIntOfUnsigned("0x00", 16, 0);
  }
}
