/** The `lutron-switch` resource: a BACnet binary-value or analog-value point seen
    as a switch with a small number of discrete positions. Reading the position
    maps the point's present value to a position; setting a position writes the
    corresponding raw present value at priority 16. */
module Switch {
  import opened Values
  import opened Bacnet

  const BINARY_VALUE := "binary-value"
  const ANALOG_VALUE := "analog-value"

  /** `max(lo, min(hi, x))` */
  function Clamp(x: int, lo: int, hi: int): (r: int)
    requires lo <= hi
    ensures lo <= r <= hi
    ensures lo <= x <= hi ==> r == x
    ensures x < lo ==> r == lo
    ensures hi < x ==> r == hi
  {
    if x < lo then lo else if hi < x then hi else x
  }

  /** `int(present_value)` raised (the read failed and gave None, or the value is not a number). */
  datatype PositionError = NotAnInteger(present: Value)

  /** The position `get_position` reports for a point of type `propType` whose present value
      read as `present` (None when the read failed). */
  function PositionOf(propType: string, present: Value): (r: Result<int, PositionError>)
    ensures propType == BINARY_VALUE || propType == ANALOG_VALUE ==> (r.Ok? <==> IntOf(present).Some?)
    ensures propType == BINARY_VALUE && r.Ok? ==> r.value == IntOf(present).value
    ensures propType == ANALOG_VALUE && r.Ok? ==>
      var level := Clamp(IntOf(present).value, 0, 100);
      0 <= r.value <= 5 && r.value * 20 <= level < r.value * 20 + 20
    ensures propType != BINARY_VALUE && propType != ANALOG_VALUE ==> r == Ok(0)
  {
    if propType == BINARY_VALUE then
      match IntOf(present)
      case None => Err(NotAnInteger(present))
      case Some(i) => Ok(i)
    else if propType == ANALOG_VALUE then
      match IntOf(present)
      case None => Err(NotAnInteger(present))
      case Some(i) => Ok(Clamp(i, 0, 100) / 20)
    else Ok(0)
  }

  /** The raw present value `set_position(position)` writes, or None when it writes nothing. */
  function RawValueFor(propType: string, position: int): (r: Option<int>)
    ensures propType == BINARY_VALUE ==> r == Some(position)
    ensures propType == ANALOG_VALUE ==>
      && r.Some? && r.value % 20 == 0 && 0 <= r.value <= 80
      && (0 <= position <= 4 ==> r.value == 20 * position)
      && (position < 0 ==> r.value == 0)
      && (4 < position ==> r.value == 80)
    ensures propType != BINARY_VALUE && propType != ANALOG_VALUE ==> r.None?
  {
    if propType == BINARY_VALUE then Some(position)
    else if propType == ANALOG_VALUE then Some(Clamp(position, 0, 4) * 20)
    else None
  }

  /** `get_number_of_positions`: nonzero exactly for the point types `set_position` writes to;
      positions 0..n-1 write distinct raw values, and for an analog point every position writes
      the same value as one of them. */
  function NumberOfPositions(propType: string): (n: nat)
    ensures n > 0 <==> RawValueFor(propType, 0).Some?
    ensures propType == BINARY_VALUE ==> n == 2
    ensures forall p, q :: 0 <= p < q < n ==> RawValueFor(propType, p) != RawValueFor(propType, q)
    ensures propType == ANALOG_VALUE ==> forall p :: RawValueFor(propType, p) == RawValueFor(propType, Clamp(p, 0, n - 1))
  {
    if propType == ANALOG_VALUE then 5
    else if propType == BINARY_VALUE then 2
    else 0
  }

  /** Writing an analog position and reading the written value back gives the position,
      clamped to the range 0..4 that `set_position` accepts. */
  lemma AnalogRoundTrip(position: int)
    ensures PositionOf(ANALOG_VALUE, Int(RawValueFor(ANALOG_VALUE, position).value)) == Ok(Clamp(position, 0, 4))
    ensures 0 <= position <= 4 ==> PositionOf(ANALOG_VALUE, Int(RawValueFor(ANALOG_VALUE, position).value)) == Ok(position)
  {
  }

  /** Binary positions are written and read back unchanged, without clamping. */
  lemma BinaryRoundTrip(position: int)
    ensures PositionOf(BINARY_VALUE, Int(RawValueFor(BINARY_VALUE, position).value)) == Ok(position)
  {
  }

  /** Every analog position reported lies in 0..NumberOfPositions, and full scale reports
      position 5, one past the last of the 5 positions 0..4 that `set_position` can reach. */
  lemma AnalogPositionsAgainstCount(present: Value)
    requires IntOf(present).Some?
    ensures 0 <= PositionOf(ANALOG_VALUE, present).value <= NumberOfPositions(ANALOG_VALUE)
    ensures IntOf(present).value >= 100 ==> PositionOf(ANALOG_VALUE, present).value == NumberOfPositions(ANALOG_VALUE)
    ensures forall p :: PositionOf(ANALOG_VALUE, Int(RawValueFor(ANALOG_VALUE, p).value)).value < NumberOfPositions(ANALOG_VALUE)
  {
  }

  /** `do_command` answers False for every command it is given. */
  function DoCommand(command: Dict): (result: Dict)
    ensures result.Keys == command.Keys
    ensures forall k :: k in result ==> result[k] == Bool(false)
  {
    map k | k in command :: Bool(false)
  }

  /** One `write_property` request: device address, object type and instance, property, value, priority. */
  datatype WriteRequest = WriteRequest(address: string, objType: string, objAddress: string, prop: string, value: int, priority: int)

  datatype WriteError =
    | NoController  // `self.bacnet` is not set
    | Rejected      // `write_property` raised

  class BacnetSwitch {
    /** `self.address`, `self.networkId` and `self.deviceID` */
    var device: DeviceFields
    var propName: string
    var propAddress: string
    var propType: string
    /** `self.bacnet` is set. */
    var hasController: bool
    /** Every `write_property` request the switch has issued, oldest first. */
    var writes: seq<WriteRequest>

    /** The resource as the framework creates it, before its first `reconfigure`. */
    constructor ()
      ensures !hasController && writes == []
    {
      device := DeviceFields("", "", Null);
      propName, propAddress, propType := "", "", "";
      hasController, writes := false, [];
    }

    /** `reconfigure`: the address step, then the point's name, address and type as text
        (with "N/A", "None" and "None" when absent), and the shared controller. A malformed
        address raises out of the address step and leaves the point's fields as they were. */
    method Reconfigure(attrs: Dict) returns (err: Option<AddressError>)
      modifies this
      ensures writes == old(writes)
      ensures device == ReadAddress(old(device), attrs).0 && err == ReadAddress(old(device), attrs).1
      ensures err.None? ==>
        && propName == GetText(attrs, "propName", Text("N/A"))
        && propAddress == GetText(attrs, "propAddress", Null)
        && propType == GetText(attrs, "propType", Null)
        && hasController
      ensures err.Some? ==>
        && propName == old(propName) && propAddress == old(propAddress)
        && propType == old(propType) && hasController == old(hasController)
    {
      var r := ReadAddress(device, attrs);
      device, err := r.0, r.1;
      if err.None? {
        SetPoint(attrs);
      }
    }

    /** The point's name, address and type as text, and the shared controller. */
    method SetPoint(attrs: Dict)
      modifies this`propName, this`propAddress, this`propType, this`hasController
      ensures propName == GetText(attrs, "propName", Text("N/A"))
      ensures propAddress == GetText(attrs, "propAddress", Null)
      ensures propType == GetText(attrs, "propType", Null)
      ensures hasController
    {
      propName := GetText(attrs, "propName", Text("N/A"));
      propAddress := GetText(attrs, "propAddress", Null);
      propType := GetText(attrs, "propType", Null);
      hasController := true;
    }

    /** `get_present_value_for_object`: the point's present value, None when there is no
        controller or the read raised. */
    function PresentValue(net: Network): (v: Value)
      reads this
      ensures !hasController ==> v == Null
      ensures hasController ==>
        var reply := net.properties(PropertyQuery(device.address, propType, propAddress, PRESENT_VALUE));
        v == if reply.Got? then reply.value else Null
    {
      if !hasController then Null
      else match net.properties(PropertyQuery(device.address, propType, propAddress, PRESENT_VALUE))
        case Failed => Null
        case Got(x) => x
    }

    /** `get_position` */
    function GetPosition(net: Network): (r: Result<int, PositionError>)
      reads this
      ensures !hasController && (propType == BINARY_VALUE || propType == ANALOG_VALUE) ==> r.Err?
      ensures propType != BINARY_VALUE && propType != ANALOG_VALUE ==> r == Ok(0)
    {
      PositionOf(propType, PresentValue(net))
    }

    /** The request `update(value)` sends. */
    function RequestFor(value: int): (w: WriteRequest)
      reads this
      ensures w.prop == PRESENT_VALUE && w.priority == WRITE_PRIORITY && w.value == value
    {
      WriteRequest(device.address, propType, propAddress, PRESENT_VALUE, value, WRITE_PRIORITY)
    }

    /** `update(value)`: write `value` to the point's present value at priority 16. `accepted`
        is whether the network accepted the write; a rejected write raises. */
    method Update(value: int, accepted: bool) returns (r: Result<bool, WriteError>)
      modifies this`writes
      ensures writes == old(writes) + (if hasController then [RequestFor(value)] else [])
      ensures r == (if !hasController then Err(NoController) else if accepted then Ok(true) else Err(Rejected))
    {
      if !hasController {
        return Err(NoController);
      }
      writes := writes + [RequestFor(value)];
      r := if accepted then Ok(true) else Err(Rejected);
    }

    /** `set_position(position)` */
    method SetPosition(position: int, accepted: bool) returns (err: Option<WriteError>)
      modifies this`writes
      ensures var raw := RawValueFor(propType, position);
        && writes == old(writes) + (if hasController && raw.Some? then [RequestFor(raw.value)] else [])
        && err == (if raw.None? then None
                   else if !hasController then Some(NoController)
                   else if accepted then None
                   else Some(Rejected))
    {
      err := None;
      if propType == BINARY_VALUE {
        var r := Update(position, accepted);
        if r.Err? { err := Some(r.error); }
      }
      if propType == ANALOG_VALUE {
        var clamped := Clamp(position, 0, 4);
        var r := Update(clamped * 20, accepted);
        if r.Err? { err := Some(r.error); }
      }
    }
  }
}
