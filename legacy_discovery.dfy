/** The older, sequential `discover-devices` service: it walks the scanned devices one
    at a time, reads each device's object list and, per object, its name and present
    value (only to log them), and reports one sensor configuration per device whose
    `network_number` attribute is popped from the device's network-number list. The
    reads it sends are returned, in order, as the trace of what it sent. */
module LegacyDiscovery {
  import opened Values
  import opened Bacnet
  import opened Viam
  import Discovery

  /** `list.pop()`: the last element and the list without it; None when the list is empty,
      where Python raises IndexError. */
  function Pop(elems: seq<int>): (r: Option<(int, seq<int>)>)
    ensures r.None? <==> elems == []
    ensures r.Some? ==> elems == r.value.1 + [r.value.0]
  {
    if elems == [] then None else Some((elems[|elems| - 1], elems[..|elems| - 1]))
  }

  /** The reads issued for one object: none for a `device` object; otherwise its `objectName`
      and, when that read returned, its `presentValue`. */
  function ObjectTrace(net: Network, deviceAddress: string, o: ObjectId): seq<string>
  {
    var address := NatText(o.instance, 10);
    var nameQuery := PropertyQuery(deviceAddress, o.objType, address, OBJECT_NAME);
    if o.objType == DEVICE_TYPE then []
    else if net.properties(nameQuery).Failed? then [nameQuery]
    else [nameQuery, PropertyQuery(deviceAddress, o.objType, address, PRESENT_VALUE)]
  }

  /** The reads issued for the objects of one device, in object order. A read that raises is
      logged and the loop goes on with the next object. */
  function ObjectReads(net: Network, deviceAddress: string, objs: seq<ObjectId>): seq<string>
    decreases |objs|
  {
    if objs == [] then [] else ObjectTrace(net, deviceAddress, objs[0]) + ObjectReads(net, deviceAddress, objs[1..])
  }

  /** The reads for a list of objects are those for its parts, one after the other: what one
      object's reads returned changes nothing for the objects after it. */
  lemma {:induction false} ObjectReadsAppend(net: Network, deviceAddress: string, a: seq<ObjectId>, b: seq<ObjectId>)
    ensures ObjectReads(net, deviceAddress, a + b) == ObjectReads(net, deviceAddress, a) + ObjectReads(net, deviceAddress, b)
    decreases |a|
  {
    if a == [] {
      assert a + b == b;
    } else {
      assert (a + b)[0] == a[0] && (a + b)[1..] == a[1..] + b;
      ObjectReadsAppend(net, deviceAddress, a[1..], b);
    }
  }

  /** `device` objects issue no reads: the reads are exactly those of the kept objects. */
  lemma {:induction false} DeviceObjectsNotRead(net: Network, deviceAddress: string, objs: seq<ObjectId>)
    ensures ObjectReads(net, deviceAddress, objs) == ObjectReads(net, deviceAddress, Discovery.KeptObjects(objs))
    decreases |objs|
  {
    if objs != [] {
      DeviceObjectsNotRead(net, deviceAddress, objs[1..]);
      var rest := Discovery.KeptObjects(objs[1..]);
      if objs[0].objType == DEVICE_TYPE {
        assert Discovery.KeptObjects(objs) == [] + rest == rest;
        assert ObjectTrace(net, deviceAddress, objs[0]) == [];
      } else {
        var kept := [objs[0]] + rest;
        assert Discovery.KeptObjects(objs) == kept;
        assert kept[0] == objs[0] && kept[1..] == rest;
        assert ObjectReads(net, deviceAddress, kept) == ObjectTrace(net, deviceAddress, objs[0]) + ObjectReads(net, deviceAddress, rest);
      }
    }
  }

  /** Every object that is not a `device` has its name read, whatever the reads of the objects
      before it returned. */
  lemma NameReadIssued(net: Network, deviceAddress: string, objs: seq<ObjectId>, i: int)
    requires 0 <= i < |objs| && objs[i].objType != DEVICE_TYPE
    ensures PropertyQuery(deviceAddress, objs[i].objType, NatText(objs[i].instance, 10), OBJECT_NAME)
      in ObjectReads(net, deviceAddress, objs)
  {
    assert objs == objs[..i] + objs[i..];
    ObjectReadsAppend(net, deviceAddress, objs[..i], objs[i..]);
    assert objs[i..][0] == objs[i];
  }

  /** The reads for one device: its object list, then its objects when the list came back;
      a read that raises or a None list (which cannot be iterated) ends the device's reads. */
  function DeviceReads(net: Network, device: ScannedDevice): seq<string>
  {
    var query := ObjectListQuery(device.address, device.devId);
    [query] + match net.objectLists(query)
      case Got(Some(objs)) => ObjectReads(net, device.address, objs)
      case _ => []
  }

  /** The reads for the first `n` devices, in scan order. */
  function ScanReads(net: Network, devices: seq<ScannedDevice>, n: nat): seq<string>
    requires n <= |devices|
  {
    if n == 0 then [] else ScanReads(net, devices, n - 1) + DeviceReads(net, devices[n - 1])
  }

  /** The configuration for one device: named `device (vendor)`, a Lutron sensor, whose
      attributes carry the device id, the address text and the popped network number (numbers
      in a configuration struct are floats). */
  function LegacyConfig(device: ScannedDevice, networkNumber: int): ComponentConfig
  {
    ComponentConfig(
      device.name + " (" + device.vendor + ")",
      SENSOR_API,
      SENSOR_MODEL,
      map[
        "devId" := Real(device.devId as real),
        "device_address" := Text(device.address),
        "network_number" := Real(networkNumber as real)])
  }

  /** A device's configuration is named `device (vendor)`, is a Lutron sensor, and its
      attributes are exactly the device id, the address and the popped network number. */
  lemma LegacyConfigMeaning(device: ScannedDevice, networkNumber: int)
    ensures var c := LegacyConfig(device, networkNumber);
      && c.name == device.name + " (" + device.vendor + ")"
      && c.api == SENSOR_API && c.model == SENSOR_MODEL
      && c.attributes.Keys == {"devId", "device_address", "network_number"}
      && c.attributes["devId"] == Real(device.devId as real)
      && c.attributes["device_address"] == Text(device.address)
      && c.attributes["network_number"] == Real(networkNumber as real)
  {
  }

  datatype LegacyError =
    | EmptyNetworkList(deviceIndex: nat)  // `network_number.pop()` raised IndexError
    | StartFailed                         // `BAC0.start` raised

  /** The index of the first device whose network-number list is empty, or the number of
      devices when none is. */
  function FirstEmpty(devices: seq<ScannedDevice>): (k: nat)
    ensures k <= |devices|
    ensures forall j :: 0 <= j < k ==> devices[j].networks != []
    ensures k < |devices| ==> devices[k].networks == []
    decreases |devices|
  {
    if devices == [] || devices[0].networks == [] then 0 else 1 + FirstEmpty(devices[1..])
  }

  /** How many devices the loop visits: up to and including the first with an empty list. */
  function Reached(devices: seq<ScannedDevice>): (n: nat)
    ensures n <= |devices|
  {
    if FirstEmpty(devices) < |devices| then FirstEmpty(devices) + 1 else |devices|
  }

  /** What the loop returns: the IndexError of the first device whose list is empty, or one
      configuration per device, in scan order, with the last number of the device's list,
      whatever the reads of that device returned. */
  function LegacyResult(devices: seq<ScannedDevice>): (r: Result<seq<ComponentConfig>, LegacyError>)
    ensures r.Ok? <==> forall j :: 0 <= j < |devices| ==> devices[j].networks != []
    ensures r.Err? ==> r.error.EmptyNetworkList?
    ensures r.Err? ==> var k := r.error.deviceIndex;
      && k < |devices| && devices[k].networks == []
      && forall j :: 0 <= j < k ==> devices[j].networks != []
    ensures r.Ok? ==> |r.value| == |devices|
    ensures r.Ok? ==> forall j :: 0 <= j < |devices| ==>
      r.value[j] == LegacyConfig(devices[j], devices[j].networks[|devices[j].networks| - 1])
  {
    var k := FirstEmpty(devices);
    if k < |devices| then Err(EmptyNetworkList(k))
    else Ok(seq(|devices|, j requires 0 <= j < |devices| => LegacyConfig(devices[j], devices[j].networks[|devices[j].networks| - 1])))
  }

  /** The network-number lists after the loop: popped for every device whose configuration was
      built, untouched from the first empty list on. */
  function Remaining(devices: seq<ScannedDevice>): (lists: seq<seq<int>>)
    ensures |lists| == |devices|
    ensures forall j :: 0 <= j < |devices| ==>
      if j < FirstEmpty(devices) then devices[j].networks == lists[j] + [devices[j].networks[|devices[j].networks| - 1]]
      else lists[j] == devices[j].networks
  {
    var k := FirstEmpty(devices);
    seq(|devices|, j requires 0 <= j < |devices| =>
      if j < k then devices[j].networks[..|devices[j].networks| - 1] else devices[j].networks)
  }

  /** The configurations and lists the loop holds after visiting some devices. */
  datatype LoopState = LoopState(configs: seq<ComponentConfig>, lists: seq<seq<int>>)

  /** The network-number lists before the loop. */
  function Networks(devices: seq<ScannedDevice>): (lists: seq<seq<int>>)
    ensures |lists| == |devices| && forall j :: 0 <= j < |devices| ==> lists[j] == devices[j].networks
  {
    seq(|devices|, j requires 0 <= j < |devices| => devices[j].networks)
  }

  /** The loop step by step: after `i` devices, their configurations and the lists with theirs
      popped (a device whose list is empty changes neither). */
  function Visited(devices: seq<ScannedDevice>, i: nat): (s: LoopState)
    requires i <= |devices|
    ensures |s.lists| == |devices|
  {
    if i == 0 then LoopState([], Networks(devices))
    else
      var s := Visited(devices, i - 1);
      var d := devices[i - 1];
      match Pop(d.networks)
      case None => s
      case Some((n, rest)) => LoopState(s.configs + [LegacyConfig(d, n)], s.lists[i - 1 := rest])
  }

  /** Before the first empty list, the loop has built one configuration per visited device,
      from the last number of its list. */
  lemma {:induction false} VisitedConfigs(devices: seq<ScannedDevice>, i: nat)
    requires i <= FirstEmpty(devices)
    ensures var configs := Visited(devices, i).configs;
      && |configs| == i
      && forall j :: 0 <= j < i ==> configs[j] == LegacyConfig(devices[j], devices[j].networks[|devices[j].networks| - 1])
  {
    if i > 0 {
      VisitedConfigs(devices, i - 1);
      var d := devices[i - 1];
      var n := d.networks[|d.networks| - 1];
      assert Pop(d.networks) == Some((n, d.networks[..|d.networks| - 1]));
      var configs := Visited(devices, i - 1).configs;
      var now := Visited(devices, i).configs;
      assert now == configs + [LegacyConfig(d, n)];
      forall j | 0 <= j < i
        ensures now[j] == LegacyConfig(devices[j], devices[j].networks[|devices[j].networks| - 1])
      {
        if j < i - 1 {
          assert now[j] == configs[j];
        }
      }
    }
  }

  /** Before the first empty list, the loop has popped exactly the visited devices' lists. */
  lemma {:induction false} VisitedLists(devices: seq<ScannedDevice>, i: nat)
    requires i <= FirstEmpty(devices)
    ensures forall j :: 0 <= j < |devices| ==>
      Visited(devices, i).lists[j] == if j < i then devices[j].networks[..|devices[j].networks| - 1] else devices[j].networks
  {
    if i > 0 {
      VisitedLists(devices, i - 1);
    }
  }

  /** The loop that visits every device reports the configurations of `LegacyResult`. */
  lemma Completed(devices: seq<ScannedDevice>)
    requires FirstEmpty(devices) == |devices|
    ensures var s := Visited(devices, |devices|);
      && LegacyResult(devices) == Ok(s.configs)
      && s.lists == Remaining(devices)
      && Reached(devices) == |devices|
  {
    VisitedConfigs(devices, |devices|);
    VisitedLists(devices, |devices|);
    var s := Visited(devices, |devices|);
    assert s.configs == LegacyResult(devices).value;
  }

  /** The loop stops at the first device whose list is empty, after that device's reads. */
  lemma StoppedAt(devices: seq<ScannedDevice>, i: nat)
    requires i == FirstEmpty(devices) < |devices|
    ensures var s := Visited(devices, i);
      && LegacyResult(devices) == Err(EmptyNetworkList(i))
      && s.lists == Remaining(devices)
      && Reached(devices) == i + 1
  {
    VisitedLists(devices, i);
  }

  /** Before it is visited, a device's list is as the scan returned it. */
  lemma Untouched(devices: seq<ScannedDevice>, i: nat)
    requires i < |devices| && i <= FirstEmpty(devices)
    ensures Visited(devices, i).lists[i] == devices[i].networks
  {
    VisitedLists(devices, i);
  }

  /** The inner loop over one device's objects: the reads it sends. */
  method ReadObjects(net: Network, deviceAddress: string, objs: seq<ObjectId>) returns (sent: seq<string>)
    ensures sent == ObjectReads(net, deviceAddress, objs)
  {
    sent := [];
    var j := 0;
    while j < |objs|
      invariant 0 <= j <= |objs|
      invariant sent == ObjectReads(net, deviceAddress, objs[..j])
    {
      var o := objs[j];
      if o.objType != DEVICE_TYPE {
        var address := NatText(o.instance, 10);
        var nameQuery := PropertyQuery(deviceAddress, o.objType, address, OBJECT_NAME);
        sent := sent + [nameQuery];
        if net.properties(nameQuery).Got? {
          sent := sent + [PropertyQuery(deviceAddress, o.objType, address, PRESENT_VALUE)];
        }
      }
      ObjectReadsAppend(net, deviceAddress, objs[..j], [o]);
      assert objs[..j + 1] == objs[..j] + [o];
      j := j + 1;
    }
    assert objs[..j] == objs;
  }

  /** The `try` block for one device: the reads it sends. */
  method ReadDevice(net: Network, device: ScannedDevice) returns (sent: seq<string>)
    ensures sent == DeviceReads(net, device)
  {
    var query := ObjectListQuery(device.address, device.devId);
    match net.objectLists(query)
    case Got(Some(objs)) =>
      var objectReads := ReadObjects(net, device.address, objs);
      sent := [query] + objectReads;
    case _ =>
      sent := [query];
  }

  /** The loop of `discover_resources` over the scan result: per device, its reads, then the
      pop of its network-number list, then its configuration. Returns the result, the reads
      sent and the lists as the loop leaves them. */
  method ScanDevices(net: Network, devices: seq<ScannedDevice>) returns (r: Result<seq<ComponentConfig>, LegacyError>, sent: seq<string>, lists: seq<seq<int>>)
    ensures r == LegacyResult(devices)
    ensures sent == ScanReads(net, devices, Reached(devices))
    ensures lists == Remaining(devices)
  {
    lists := Networks(devices);
    var configs := [];
    sent := [];
    var i := 0;
    while i < |devices|
      invariant i <= FirstEmpty(devices)
      invariant sent == ScanReads(net, devices, i)
      invariant LoopState(configs, lists) == Visited(devices, i)
    {
      var device := devices[i];
      var deviceReads := ReadDevice(net, device);
      sent := sent + deviceReads;
      Untouched(devices, i);
      var popped := Pop(lists[i]);
      if popped.None? {
        StoppedAt(devices, i);
        return Err(EmptyNetworkList(i)), sent, lists;
      }
      lists := lists[i := popped.value.1];
      configs := configs + [LegacyConfig(device, popped.value.0)];
      i := i + 1;
    }
    Completed(devices);
    r := Ok(configs);
  }

  class LegacyDiscovery {
    /** `self.bacnet` is set. */
    var hasClient: bool

    /** The service before its first `reconfigure`: `bacnet` is the class default None. */
    constructor ()
      ensures !hasClient
    {
      hasClient := false;
    }

    /** `reconfigure`: start a client; `startOk` is whether `BAC0.start` returned. */
    method Reconfigure(startOk: bool) returns (err: Option<LegacyError>)
      modifies this
      ensures hasClient == (old(hasClient) || startOk)
      ensures err == if startOk then None else Some(StartFailed)
    {
      if !startOk {
        return Some(StartFailed);
      }
      hasClient := true;
      err := None;
    }

    /** `discover_resources` over the scan result `devices`: nothing without a client;
        otherwise the loop's result, the reads it sent and the network-number lists it left. */
    method DiscoverResources(net: Network, devices: seq<ScannedDevice>)
      returns (r: Result<seq<ComponentConfig>, LegacyError>, sent: seq<string>, lists: seq<seq<int>>)
      ensures !hasClient ==> r == Ok([]) && sent == [] && lists == Networks(devices)
      ensures hasClient ==> r == LegacyResult(devices) && sent == ScanReads(net, devices, Reached(devices)) && lists == Remaining(devices)
    {
      if !hasClient {
        return Ok([]), [], Networks(devices);
      }
      r, sent, lists := ScanDevices(net, devices);
    }
  }
}
