/** The `discover-devices` discovery service: scan the BACnet network and describe
    every device found as a sensor component, listing the device's objects with
    their names. The per-device and per-object reads run concurrently in the
    source; `asyncio.gather` returns their results in input order, which is all
    the model keeps of the concurrency. */
module Discovery {
  import opened Values
  import opened Bacnet
  import opened Viam

  /** Default bound on the number of devices queried at once. */
  const DEFAULT_MAX_QUERY_CONCURRENCY := 5

  /** `queryObjectDetails`: the object's name, address and type as text when its
      `objectName` read succeeds, and only its type and address when the read raises. */
  function ObjectDetails(net: Network, deviceAddress: string, obj: ObjectId): (d: Dict)
    ensures "type" in d && d["type"] == Text(obj.objType)
    ensures "address" in d && d["address"] == Text(NatText(obj.instance, 10))
    ensures var reply := net.properties(PropertyQuery(deviceAddress, obj.objType, NatText(obj.instance, 10), OBJECT_NAME));
      && ("name" in d <==> reply.Got?)
      && (reply.Got? ==> d["name"] == Text(Str(reply.value)))
    ensures d.Keys <= {"name", "address", "type"}
  {
    var address := NatText(obj.instance, 10);
    match net.properties(PropertyQuery(deviceAddress, obj.objType, address, OBJECT_NAME))
    case Got(name) => map["name" := Text(Str(name)), "address" := Text(address), "type" := Text(obj.objType)]
    case Failed => map["type" := Text(obj.objType), "address" := Text(address)]
  }

  /** The objects of an object list whose type is not `device`, in list order. */
  function KeptObjects(objs: seq<ObjectId>): (kept: seq<ObjectId>)
    ensures |kept| <= |objs|
    ensures forall o :: o in kept <==> o in objs && o.objType != DEVICE_TYPE
  {
    if objs == [] then []
    else (if objs[0].objType == DEVICE_TYPE then [] else [objs[0]]) + KeptObjects(objs[1..])
  }

  /** Filtering a concatenation filters each part in turn, so the kept objects stay in their
      object-list order. */
  lemma {:induction false} KeptObjectsAppend(a: seq<ObjectId>, b: seq<ObjectId>)
    ensures KeptObjects(a + b) == KeptObjects(a) + KeptObjects(b)
    decreases |a|
  {
    if a == [] {
      assert a + b == b;
    } else {
      assert (a + b)[1..] == a[1..] + b;
      KeptObjectsAppend(a[1..], b);
    }
  }

  /** The `objects` a device reports: one record per non-device object of its object list, in
      order; none when the object-list read raises or returns None. */
  function DeviceObjects(net: Network, device: ScannedDevice): (objects: seq<Value>)
    ensures match net.objectLists(ObjectListQuery(device.address, device.devId))
      case Got(Some(objs)) =>
        && |objects| == |KeptObjects(objs)|
        && forall i :: 0 <= i < |objects| ==> objects[i] == Record(ObjectDetails(net, device.address, KeptObjects(objs)[i]))
      case _ => objects == []
  {
    match net.objectLists(ObjectListQuery(device.address, device.devId))
    case Got(Some(objs)) =>
      var kept := KeptObjects(objs);
      seq(|kept|, i requires 0 <= i < |kept| => Record(ObjectDetails(net, device.address, kept[i])))
    case _ => []
  }

  /** `queryDeviceObjects`: the dict describing one scanned device. */
  function QueriedDevice(net: Network, device: ScannedDevice): Dict
  {
    map[
      "device" := Text(device.name),
      "ID" := Text(NatText(device.devId, 10)),
      "address" := Text(device.address),
      "vendor" := Text(device.vendor),
      "network" := Text(ListText(device.networks)),
      "objects" := Items(DeviceObjects(net, device))]
  }

  /** The sensor configuration built from one queried device (the body of the loop that
      collects `configs`), with the defaults it falls back on for missing keys. */
  function ConfigFor(queried: Dict): ComponentConfig
  {
    ComponentConfig(
      GetText(queried, "device", Text("Unknown")) + " (" + GetText(queried, "vendor", Text("Unknown")) + ")",
      SENSOR_API,
      SENSOR_MODEL,
      map[
        "devID" := Get(queried, "ID", Text("N/A")),
        "address" := Get(queried, "address", Text("-")),
        "network" := Get(queried, "network", Text("-")),
        "objects" := Get(queried, "objects", Items([]))])
  }

  /** The configuration discovery reports for a scanned device: named `device (vendor)`, a
      sensor of the Lutron sensor model, whose attributes carry the device id in decimal, the
      device address, the text of its network numbers and its object records. */
  lemma ConfigOfDevice(net: Network, device: ScannedDevice)
    ensures var c := ConfigFor(QueriedDevice(net, device));
      && c.name == device.name + " (" + device.vendor + ")"
      && c.api == SENSOR_API && c.model == SENSOR_MODEL
      && c.attributes.Keys == {"devID", "address", "network", "objects"}
      && c.attributes["devID"] == Text(NatText(device.devId, 10))
      && c.attributes["address"] == Text(device.address)
      && c.attributes["network"] == Text(ListText(device.networks))
      && c.attributes["objects"] == Items(DeviceObjects(net, device))
  {
    var q := QueriedDevice(net, device);
    assert "device" in q && "vendor" in q && "ID" in q;
  }

  datatype DiscoveryError =
    | NegativeConcurrency  // `asyncio.Semaphore(n)` raises ValueError for n < 0
    | Stalled              // with n == 0 every device query waits on the semaphore forever

  /** What `discover_resources` returns: no configurations without a client; otherwise one
      configuration per scanned device, in scan order. */
  function Discovered(hasClient: bool, maxQueryConcurrency: int, net: Network, devices: seq<ScannedDevice>): (r: Result<seq<ComponentConfig>, DiscoveryError>)
    ensures !hasClient ==> r == Ok([])
    ensures hasClient && maxQueryConcurrency > 0 ==> r.Ok? && |r.value| == |devices|
    ensures r.Err? <==> hasClient && (maxQueryConcurrency < 0 || (maxQueryConcurrency == 0 && devices != []))
  {
    if !hasClient then Ok([])
    else if maxQueryConcurrency < 0 then Err(NegativeConcurrency)
    else if maxQueryConcurrency == 0 && devices != [] then Err(Stalled)
    else Ok(seq(|devices|, i requires 0 <= i < |devices| => ConfigFor(QueriedDevice(net, devices[i]))))
  }

  /** Every configuration discovery reports describes the device at the same position of the
      scan. */
  lemma DiscoveredInScanOrder(hasClient: bool, maxQueryConcurrency: int, net: Network, devices: seq<ScannedDevice>, i: int)
    requires Discovered(hasClient, maxQueryConcurrency, net, devices).Ok? && hasClient
    requires 0 <= i < |devices|
    ensures var configs := Discovered(hasClient, maxQueryConcurrency, net, devices).value;
      && |configs| == |devices|
      && configs[i].name == devices[i].name + " (" + devices[i].vendor + ")"
      && configs[i].attributes["devID"] == Text(NatText(devices[i].devId, 10))
      && configs[i].attributes["objects"] == Items(DeviceObjects(net, devices[i]))
  {
    ConfigOfDevice(net, devices[i]);
  }

  /** The loop that appends one configuration per queried device to `configs`. */
  method ConfigsFor(queried: seq<Dict>) returns (configs: seq<ComponentConfig>)
    ensures |configs| == |queried|
    ensures forall j :: 0 <= j < |queried| ==> configs[j] == ConfigFor(queried[j])
  {
    configs := [];
    var k := 0;
    while k < |queried|
      invariant 0 <= k <= |queried|
      invariant |configs| == k
      invariant forall j :: 0 <= j < k ==> configs[j] == ConfigFor(queried[j])
    {
      configs := configs + [ConfigFor(queried[k])];
      k := k + 1;
    }
  }

  datatype ReconfigureError =
    | NotAnInteger(value: Value)  // `int(max_query_concurrency)` raised
    | StartFailed                 // `BAC0.start` raised

  class DiscoverDevices {
    var maxQueryConcurrency: int
    /** `self.bacnet` is set. */
    var hasClient: bool

    /** The service before its first `reconfigure`: `bacnet` is the class default None. */
    constructor ()
      ensures !hasClient
    {
      maxQueryConcurrency, hasClient := DEFAULT_MAX_QUERY_CONCURRENCY, false;
    }

    /** `reconfigure`: `int(max_query_concurrency)`, defaulting to 5, then a new client.
        `startOk` is whether `BAC0.start` returned. */
    method Reconfigure(attrs: Dict, startOk: bool) returns (err: Option<ReconfigureError>)
      modifies this
      ensures var n := IntOf(Get(attrs, "max_query_concurrency", Int(DEFAULT_MAX_QUERY_CONCURRENCY)));
        && (n.None? ==> err == Some(NotAnInteger(Get(attrs, "max_query_concurrency", Int(DEFAULT_MAX_QUERY_CONCURRENCY))))
                        && maxQueryConcurrency == old(maxQueryConcurrency) && hasClient == old(hasClient))
        && (n.Some? ==> maxQueryConcurrency == n.value
                        && hasClient == (old(hasClient) || startOk)
                        && err == (if startOk then None else Some(StartFailed)))
      ensures "max_query_concurrency" !in attrs && startOk ==> maxQueryConcurrency == DEFAULT_MAX_QUERY_CONCURRENCY && hasClient && err.None?
    {
      var raw := Get(attrs, "max_query_concurrency", Int(DEFAULT_MAX_QUERY_CONCURRENCY));
      var n := IntOf(raw);
      if n.None? {
        return Some(NotAnInteger(raw));
      }
      maxQueryConcurrency := n.value;
      if !startOk {
        return Some(StartFailed);
      }
      hasClient := true;
      err := None;
    }

    /** `discover_resources` over the scan result `devices`: gather the per-device dicts, then
        build one configuration per device with a loop that appends. */
    method DiscoverResources(net: Network, devices: seq<ScannedDevice>) returns (r: Result<seq<ComponentConfig>, DiscoveryError>)
      ensures r == Discovered(hasClient, maxQueryConcurrency, net, devices)
    {
      if !hasClient {
        return Ok([]);
      }
      if maxQueryConcurrency < 0 {
        return Err(NegativeConcurrency);
      }
      if maxQueryConcurrency == 0 && devices != [] {
        return Err(Stalled);
      }
      var queried := seq(|devices|, i requires 0 <= i < |devices| => QueriedDevice(net, devices[i]));
      var configs := ConfigsFor(queried);
      assert configs == seq(|devices|, i requires 0 <= i < |devices| => ConfigFor(QueriedDevice(net, devices[i])));
      r := Ok(configs);
    }
  }
}
