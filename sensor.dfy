/** The `lutron-sensor` resource: a configured BACnet device whose listed objects
    are read for their present value; the readings are keyed by object name. */
module Sensor {
  import opened Values
  import opened Bacnet

  datatype ConfigError =
    | BadAddress(error: AddressError)  // the address step raised
    | NotAList(objects: Value)         // `list(attrs.get("objects", []))` raised

  datatype ReadingError =
    | NotADict(obj: Value)      // `deviceObject | {...}` on an object that is not a dict
    | MissingName(reading: Dict)  // `reading["name"]` raised KeyError
    | Unhashable(name: Value)   // a list or dict name cannot be a dict key: TypeError

  /** One entry of the readings dict: the key object as first inserted (a later equal key
      keeps it) and the reading stored last under it. */
  datatype Entry = Entry(name: Value, reading: Dict)

  /** `deviceObject | {"presentValue": value}`: the object with exactly that key added or
      replaced. */
  function WithPresentValue(obj: Dict, value: Value): (reading: Dict)
    ensures reading.Keys == obj.Keys + {PRESENT_VALUE}
    ensures reading[PRESENT_VALUE] == value
    ensures forall k :: k in obj && k != PRESENT_VALUE ==> reading[k] == obj[k]
  {
    obj[PRESENT_VALUE := value]
  }

  /** The read `get_present_value_for_object` issues for an object of the device at
      `deviceAddress`: `"{address} {type} {address} presentValue"`, with "None" for a missing key. */
  function PresentValueQuery(deviceAddress: string, obj: Dict): string
  {
    PropertyQuery(deviceAddress, GetText(obj, "type", Null), GetText(obj, "address", Null), PRESENT_VALUE)
  }

  /** `get_present_value_for_object`: the object with its present value, or "N/A" when there is
      no controller or the read raised (including a controller that holds no client). */
  function PresentValueFor(net: Network, hasController: bool, deviceAddress: string, obj: Value): Result<Dict, ReadingError>
  {
    if !obj.Record? then Err(NotADict(obj))
    else if !hasController then Ok(WithPresentValue(obj.fields, Text("N/A")))
    else match net.properties(PresentValueQuery(deviceAddress, obj.fields))
      case Got(v) => Ok(WithPresentValue(obj.fields, v))
      case Failed => Ok(WithPresentValue(obj.fields, Text("N/A")))
  }

  /** A reading is its object with exactly `presentValue` added or replaced: the value read when
      there is a controller and the read returned, "N/A" otherwise. Only an object that is not a
      dict fails. */
  lemma PresentValueForMeaning(net: Network, hasController: bool, deviceAddress: string, obj: Value)
    ensures var r := PresentValueFor(net, hasController, deviceAddress, obj);
      && (r.Err? <==> !obj.Record?)
      && (r.Err? ==> r.error == NotADict(obj))
      && (r.Ok? ==>
            && r.value.Keys == obj.fields.Keys + {PRESENT_VALUE}
            && (forall k :: k in obj.fields && k != PRESENT_VALUE ==> r.value[k] == obj.fields[k])
            && var reply := net.properties(PresentValueQuery(deviceAddress, obj.fields));
               r.value[PRESENT_VALUE] == if hasController && reply.Got? then reply.value else Text("N/A"))
  {
  }

  /** `asyncio.gather` over the objects: the readings in object order, or the error of the
      first object that is not a dict. */
  function GatherReadings(net: Network, hasController: bool, deviceAddress: string, objs: seq<Value>): Result<seq<Dict>, ReadingError>
    decreases |objs|
  {
    if objs == [] then Ok([])
    else match PresentValueFor(net, hasController, deviceAddress, objs[0])
      case Err(e) => Err(e)
      case Ok(first) =>
        match GatherReadings(net, hasController, deviceAddress, objs[1..])
        case Err(e) => Err(e)
        case Ok(rest) => Ok([first] + rest)
  }

  /** Gathering succeeds exactly when every object is a dict, and then gives one reading per
      object, in object order. */
  lemma {:induction false} GatherReadingsMeaning(net: Network, hasController: bool, deviceAddress: string, objs: seq<Value>)
    ensures var r := GatherReadings(net, hasController, deviceAddress, objs);
      && (r.Ok? <==> forall i :: 0 <= i < |objs| ==> objs[i].Record?)
      && (r.Ok? ==>
            && |r.value| == |objs|
            && forall i :: 0 <= i < |objs| ==> Ok(r.value[i]) == PresentValueFor(net, hasController, deviceAddress, objs[i]))
    decreases |objs|
  {
    if objs != [] {
      GatherReadingsMeaning(net, hasController, deviceAddress, objs[1..]);
      assert forall i :: 1 <= i < |objs| ==> objs[1..][i - 1] == objs[i];
    }
  }

  /** The reading has a name that can be a dict key. */
  predicate Keyed(reading: Dict)
  {
    "name" in reading && HashKey(reading["name"]).Some?
  }

  function NameKey(reading: Dict): Key
    requires Keyed(reading)
  {
    HashKey(reading["name"]).value
  }

  /** `{reading["name"]: reading for reading in readings}`, in list order: a name equal to one
      already present replaces the reading and keeps the first key object. */
  function KeyByName(readings: seq<Dict>): (r: Result<map<Key, Entry>, ReadingError>)
    decreases |readings|
  {
    if readings == [] then Ok(map[])
    else
      var last := readings[|readings| - 1];
      match KeyByName(readings[..|readings| - 1])
      case Err(e) => Err(e)
      case Ok(m) =>
        if "name" !in last then Err(MissingName(last))
        else match HashKey(last["name"])
          case None => Err(Unhashable(last["name"]))
          case Some(k) => Ok(m[k := Entry(if k in m then m[k].name else last["name"], last)])
  }

  /** Keying succeeds exactly when every reading has a hashable name. */
  lemma {:induction false} KeyByNameSucceeds(readings: seq<Dict>)
    ensures KeyByName(readings).Ok? <==> forall i :: 0 <= i < |readings| ==> Keyed(readings[i])
    decreases |readings|
  {
    if readings != [] {
      var n := |readings| - 1;
      KeyByNameSucceeds(readings[..n]);
      assert forall i :: 0 <= i < n ==> readings[..n][i] == readings[i];
    }
  }

  /** The keys of the readings dict are the keys of the readings' names. */
  lemma {:induction false} KeyByNameKeys(readings: seq<Dict>)
    requires KeyByName(readings).Ok?
    ensures forall i :: 0 <= i < |readings| ==> Keyed(readings[i])
    ensures KeyByName(readings).value.Keys == (set i | 0 <= i < |readings| && Keyed(readings[i]) :: NameKey(readings[i]))
    decreases |readings|
  {
    KeyByNameSucceeds(readings);
    if readings != [] {
      var n := |readings| - 1;
      var init := readings[..n];
      KeyByNameKeys(init);
      var keys := set i | 0 <= i < |readings| && Keyed(readings[i]) :: NameKey(readings[i]);
      var initKeys := set i | 0 <= i < n && Keyed(init[i]) :: NameKey(init[i]);
      assert keys == initKeys + {NameKey(readings[n])} by {
        forall x | x in keys ensures x in initKeys + {NameKey(readings[n])} {
          var i :| 0 <= i < |readings| && Keyed(readings[i]) && NameKey(readings[i]) == x;
          if i < n {
            assert init[i] == readings[i];
          }
        }
        forall x | x in initKeys ensures x in keys {
          var i :| 0 <= i < n && Keyed(init[i]) && NameKey(init[i]) == x;
          assert readings[i] == init[i];
        }
      }
    }
  }

  /** The entry for a name holds the last reading whose name equals it: a later reading with an
      equal name overwrites an earlier one. */
  lemma {:induction false} KeyByNameLastWins(readings: seq<Dict>, i: int)
    requires KeyByName(readings).Ok? && 0 <= i < |readings| && Keyed(readings[i])
    requires forall j :: i < j < |readings| ==> Keyed(readings[j]) && NameKey(readings[j]) != NameKey(readings[i])
    ensures NameKey(readings[i]) in KeyByName(readings).value
    ensures KeyByName(readings).value[NameKey(readings[i])].reading == readings[i]
    decreases |readings|
  {
    var n := |readings| - 1;
    if i < n {
      var init := readings[..n];
      assert init[i] == readings[i];
      KeyByNameLastWins(init, i);
    }
  }

  /** The key object stored for a name is the name of the first reading with an equal name. */
  lemma {:induction false} KeyByNameFirstKeyKept(readings: seq<Dict>, i: int)
    requires KeyByName(readings).Ok? && 0 <= i < |readings| && Keyed(readings[i])
    requires forall j :: 0 <= j < i ==> Keyed(readings[j]) && NameKey(readings[j]) != NameKey(readings[i])
    ensures NameKey(readings[i]) in KeyByName(readings).value
    ensures KeyByName(readings).value[NameKey(readings[i])].name == readings[i]["name"]
    decreases |readings|
  {
    var n := |readings| - 1;
    var init := readings[..n];
    if i < n {
      assert init[i] == readings[i];
      assert forall j :: 0 <= j < i ==> init[j] == readings[j];
      KeyByNameFirstKeyKept(init, i);
    } else {
      KeyByNameKeys(init);
      assert forall j :: 0 <= j < n ==> init[j] == readings[j];
      assert NameKey(readings[i]) !in KeyByName(init).value;
    }
  }

  /** Of two readings with equal names, the later reading is kept under the earlier name. */
  lemma LaterDuplicateWins(a: Dict, b: Dict)
    requires Keyed(a) && Keyed(b) && NameKey(a) == NameKey(b)
    ensures KeyByName([a, b]) == Ok(map[NameKey(a) := Entry(a["name"], b)])
  {
    assert [a, b][..1] == [a];
    assert [a][..0] == [];
    assert KeyByName([a]) == Ok(map[NameKey(a) := Entry(a["name"], a)]);
    assert map[NameKey(a) := Entry(a["name"], a)][NameKey(a) := Entry(a["name"], b)] == map[NameKey(a) := Entry(a["name"], b)];
  }

  /** Names `True` and then `1.0` are one key: the dict has one entry, keyed `True`, holding the
      second reading. */
  lemma EqualNamesCollapse(a: Dict, b: Dict)
    requires "name" in a && a["name"] == Bool(true)
    requires "name" in b && b["name"] == Real(1.0)
    ensures KeyByName([a, b]) == Ok(map[NumberKey(1.0) := Entry(Bool(true), b)])
  {
    LaterDuplicateWins(a, b);
  }

  /** A list as a name makes keying raise, whatever follows. */
  lemma UnhashableNameRaises(a: Dict, rest: seq<Dict>)
    requires "name" in a && a["name"].Items?
    ensures KeyByName([a] + rest).Err?
  {
    KeyByNameSucceeds([a] + rest);
    assert ([a] + rest)[0] == a;
  }

  /** An object that becomes a keyed reading: a dict with a hashable name. */
  predicate NamedObject(obj: Value)
  {
    obj.Record? && Keyed(obj.fields)
  }

  /** The object at `i` has no equal name after it. */
  predicate LastOfItsName(objs: seq<Value>, i: int)
    requires 0 <= i < |objs| && NamedObject(objs[i])
  {
    forall j :: i < j < |objs| ==> NamedObject(objs[j]) && NameKey(objs[j].fields) != NameKey(objs[i].fields)
  }

  /** `get_readings` over given objects: gather the readings, then key them by name. */
  function Readings(net: Network, hasController: bool, deviceAddress: string, objs: seq<Value>): Result<map<Key, Entry>, ReadingError>
  {
    match GatherReadings(net, hasController, deviceAddress, objs)
    case Err(e) => Err(e)
    case Ok(readings) => KeyByName(readings)
  }

  /** Gathering keeps each object's name: a reading is keyed exactly when its object is a
      named object, under the same key. */
  lemma GatheredNames(net: Network, hasController: bool, deviceAddress: string, objs: seq<Value>, readings: seq<Dict>)
    requires |readings| == |objs|
    requires forall i :: 0 <= i < |objs| ==> Ok(readings[i]) == PresentValueFor(net, hasController, deviceAddress, objs[i])
    ensures forall i :: 0 <= i < |objs| ==> (Keyed(readings[i]) <==> NamedObject(objs[i]))
    ensures forall i :: 0 <= i < |objs| && Keyed(readings[i]) && NamedObject(objs[i]) ==> NameKey(readings[i]) == NameKey(objs[i].fields)
  {
    forall i | 0 <= i < |objs|
      ensures Keyed(readings[i]) <==> NamedObject(objs[i])
      ensures Keyed(readings[i]) ==> NameKey(readings[i]) == NameKey(objs[i].fields)
    {
      PresentValueForMeaning(net, hasController, deviceAddress, objs[i]);
    }
  }

  /** The readings succeed exactly when every object is a dict with a hashable name. */
  lemma ReadingsSucceed(net: Network, hasController: bool, deviceAddress: string, objs: seq<Value>)
    ensures Readings(net, hasController, deviceAddress, objs).Ok? <==> forall i :: 0 <= i < |objs| ==> NamedObject(objs[i])
  {
    GatherReadingsMeaning(net, hasController, deviceAddress, objs);
    var g := GatherReadings(net, hasController, deviceAddress, objs);
    if g.Ok? {
      GatheredNames(net, hasController, deviceAddress, objs, g.value);
      KeyByNameSucceeds(g.value);
    }
  }

  /** Readings keyed exactly when their objects are named, under the same keys, give the same
      set of keys. */
  lemma SameNameKeys(objs: seq<Value>, readings: seq<Dict>)
    requires |readings| == |objs|
    requires forall i :: 0 <= i < |objs| ==> (Keyed(readings[i]) <==> NamedObject(objs[i]))
    requires forall i :: 0 <= i < |objs| && Keyed(readings[i]) && NamedObject(objs[i]) ==> NameKey(readings[i]) == NameKey(objs[i].fields)
    ensures (set i | 0 <= i < |readings| && Keyed(readings[i]) :: NameKey(readings[i]))
      == (set i | 0 <= i < |objs| && NamedObject(objs[i]) :: NameKey(objs[i].fields))
  {
  }

  /** When the readings succeed, their keys are the keys of the objects' names. */
  lemma ReadingsKeys(net: Network, hasController: bool, deviceAddress: string, objs: seq<Value>)
    requires Readings(net, hasController, deviceAddress, objs).Ok?
    ensures Readings(net, hasController, deviceAddress, objs).value.Keys
      == set i | 0 <= i < |objs| && NamedObject(objs[i]) :: NameKey(objs[i].fields)
  {
    GatherReadingsMeaning(net, hasController, deviceAddress, objs);
    var readings := GatherReadings(net, hasController, deviceAddress, objs).value;
    GatheredNames(net, hasController, deviceAddress, objs, readings);
    KeyByNameKeys(readings);
    SameNameKeys(objs, readings);
  }

  /** When the readings succeed, an object with no equal name after it has its own reading
      stored under its name. */
  lemma ReadingsLastWins(net: Network, hasController: bool, deviceAddress: string, objs: seq<Value>, i: int)
    requires Readings(net, hasController, deviceAddress, objs).Ok?
    requires 0 <= i < |objs| && NamedObject(objs[i]) && LastOfItsName(objs, i)
    ensures NameKey(objs[i].fields) in Readings(net, hasController, deviceAddress, objs).value
    ensures Readings(net, hasController, deviceAddress, objs).value[NameKey(objs[i].fields)].reading
      == PresentValueFor(net, hasController, deviceAddress, objs[i]).value
  {
    GatherReadingsMeaning(net, hasController, deviceAddress, objs);
    var readings := GatherReadings(net, hasController, deviceAddress, objs).value;
    GatheredNames(net, hasController, deviceAddress, objs, readings);
    KeyByNameLastWins(readings, i);
  }

  class BacnetSensor {
    /** `self.address`, `self.networkId` and `self.deviceID` */
    var device: DeviceFields
    /** `self.objectList`: the configured object dicts. */
    var objectList: seq<Value>
    /** `self.bacnet` is set. */
    var hasController: bool

    /** The resource before its first `reconfigure`. */
    constructor ()
      ensures !hasController && objectList == []
    {
      device := DeviceFields("", "", Null);
      objectList, hasController := [], false;
    }

    /** `reconfigure`: the address step, then `list(attrs.get("objects", []))`, then the shared
        controller. A step that raises leaves the later fields as they were. */
    method Reconfigure(attrs: Dict) returns (err: Option<ConfigError>)
      modifies this
      ensures device == ReadAddress(old(device), attrs).0
      ensures var addressError := ReadAddress(old(device), attrs).1;
        var objects := ListOf(Get(attrs, "objects", Items([])));
        && (addressError.Some? ==>
              err == Some(BadAddress(addressError.value)) && objectList == old(objectList) && hasController == old(hasController))
        && (addressError.None? && objects.None? ==>
              err == Some(NotAList(Get(attrs, "objects", Items([])))) && objectList == old(objectList) && hasController == old(hasController))
        && (addressError.None? && objects.Some? ==>
              err.None? && objectList == objects.value && hasController)
    {
      var r := ReadAddress(device, attrs);
      device := r.0;
      if r.1.Some? {
        return Some(BadAddress(r.1.value));
      }
      var raw := Get(attrs, "objects", Items([]));
      var objects := ListOf(raw);
      if objects.None? {
        return Some(NotAList(raw));
      }
      objectList, hasController := objects.value, true;
      err := None;
    }

    /** `get_readings`: every configured object with its present value, keyed by name. It
        succeeds exactly when every object is a dict with a hashable name; the keys are then the
        objects' names, and the last object with a name gives the reading stored under it. */
    function GetReadings(net: Network): (r: Result<map<Key, Entry>, ReadingError>)
      reads this
      ensures r.Ok? <==> forall i :: 0 <= i < |objectList| ==> NamedObject(objectList[i])
      ensures r.Ok? ==> r.value.Keys == set i | 0 <= i < |objectList| && NamedObject(objectList[i]) :: NameKey(objectList[i].fields)
      ensures r.Ok? ==> forall i :: 0 <= i < |objectList| && NamedObject(objectList[i]) && LastOfItsName(objectList, i) ==>
        r.value[NameKey(objectList[i].fields)].reading == PresentValueFor(net, hasController, device.address, objectList[i]).value
    {
      ReadingsSucceed(net, hasController, device.address, objectList);
      if Readings(net, hasController, device.address, objectList).Ok? then
        ReadingsKeys(net, hasController, device.address, objectList);
        forall i | 0 <= i < |objectList| && NamedObject(objectList[i]) && LastOfItsName(objectList, i)
          ensures Readings(net, hasController, device.address, objectList).value[NameKey(objectList[i].fields)].reading
            == PresentValueFor(net, hasController, device.address, objectList[i]).value
        {
          ReadingsLastWins(net, hasController, device.address, objectList, i);
        }
        Readings(net, hasController, device.address, objectList)
      else
        Readings(net, hasController, device.address, objectList)
    }
  }

  /** Without a controller, every reading is its object with "N/A" as the present value. */
  lemma NoControllerReadings(net: Network, deviceAddress: string, objs: seq<Value>)
    requires forall i :: 0 <= i < |objs| ==> objs[i].Record?
    ensures var r := GatherReadings(net, false, deviceAddress, objs);
      && r.Ok? && |r.value| == |objs|
      && forall i :: 0 <= i < |objs| ==> r.value[i] == WithPresentValue(objs[i].fields, Text("N/A"))
  {
    var r := GatherReadings(net, false, deviceAddress, objs);
    GatherReadingsMeaning(net, false, deviceAddress, objs);
    forall i | 0 <= i < |objs|
      ensures r.value[i] == WithPresentValue(objs[i].fields, Text("N/A"))
    {
      assert Ok(r.value[i]) == PresentValueFor(net, false, deviceAddress, objs[i]);
    }
  }
}
