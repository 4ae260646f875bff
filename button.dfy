/** The `discovery-button` resource: pushing it runs the configured discovery
    service, turns every discovered configuration into a component entry and
    writes the machine part's configuration back with the module's own earlier
    components replaced by the new ones. */
module Button {
  import opened Values
  import opened Viam

  /** The model prefix shared by every component this module discovers. */
  const LUTRON_MODEL_PREFIX := "hipsterbrown:lutron-bacnet:lutron-"

  const GET_LAST_CONFIG := "get_last_config"

  datatype ValidationError =
    | MissingDiscoveryService  // `discovery_service` absent or empty
    | MissingMachinePartId     // `machine_part_id` absent or empty

  /** `validate_config`: both attributes must be present and truthy; the only implicit
      dependency is the named discovery service. The source returns a pair whose second list
      (optional dependencies) is always empty; only the first is modelled. */
  function ValidateConfig(attrs: Dict): (r: Result<seq<string>, ValidationError>)
    ensures r.Err? <==> !Truthy(Get(attrs, "discovery_service", Null)) || !Truthy(Get(attrs, "machine_part_id", Null))
    ensures !Truthy(Get(attrs, "discovery_service", Null)) ==> r == Err(MissingDiscoveryService)
    ensures Truthy(Get(attrs, "discovery_service", Null)) && !Truthy(Get(attrs, "machine_part_id", Null)) ==> r == Err(MissingMachinePartId)
    ensures r.Ok? ==> r.value == ["rdk:service:discovery/" + Str(attrs["discovery_service"])]
  {
    var discoveryService := Get(attrs, "discovery_service", Null);
    if !Truthy(discoveryService) then Err(MissingDiscoveryService)
    else if !Truthy(Get(attrs, "machine_part_id", Null)) then Err(MissingMachinePartId)
    else Ok(["rdk:service:discovery/" + Str(discoveryService)])
  }

  /** `float(v)` for booleans, numbers and decimal integer text; None when it raises or when the
      text is some other float literal. */
  function FloatOf(v: Value): (r: Option<real>)
    ensures v.Int? ==> r == Some(v.i as real)
    ensures v.Real? ==> r == Some(v.r)
    ensures v.Null? || v.Items? || v.Record? ==> r.None?
  {
    match v
    case Bool(b) => Some(if b then 1.0 else 0.0)
    case Int(i) => Some(i as real)
    case Real(r) => Some(r)
    case Text(s) => (match ParseInt(s, 10) case Some(i) => Some(i as real) case None => None)
    case Null => None
    case Items(_) => None
    case Record(_) => None
  }

  /** The data-capture block attached to a sensor entry: `Readings` at the given frequency. */
  function CaptureConfig(frequency: real): Value
  {
    Items([Record(map[
      "type" := Text("data_manager"),
      "attributes" := Record(map[
        "capture_methods" := Items([Record(map[
          "method" := Text("Readings"),
          "capture_frequency_hz" := Real(frequency),
          "disabled" := Bool(false),
          "additional_params" := Record(map[])])])])])])
  }

  /** `_component_config_to_dict`: name, api, model and attributes, plus `service_configs` for
      a sensor when data capture is on. */
  function ComponentConfigToDict(frequency: real, config: ComponentConfig): (entry: Dict)
    ensures "service_configs" in entry <==> frequency > 0.0 && Contains(config.api, "sensor")
    ensures "service_configs" in entry ==> entry["service_configs"] == CaptureConfig(frequency)
    ensures entry.Keys - {"service_configs"} == {"name", "api", "model", "attributes"}
    ensures entry["name"] == Text(config.name) && entry["api"] == Text(config.api)
    ensures entry["model"] == Text(config.model) && entry["attributes"] == Record(config.attributes)
  {
    var entry := map[
      "name" := Text(config.name),
      "api" := Text(config.api),
      "model" := Text(config.model),
      "attributes" := Record(config.attributes)];
    if frequency > 0.0 && Contains(config.api, "sensor") then entry["service_configs" := CaptureConfig(frequency)]
    else entry
  }

  /** Every discovered sensor configuration is an entry carrying capture settings exactly when
      the frequency is positive. */
  lemma DiscoveredSensorCapture(frequency: real, name: string, attributes: Dict)
    ensures var entry := ComponentConfigToDict(frequency, ComponentConfig(name, SENSOR_API, SENSOR_MODEL, attributes));
      ("service_configs" in entry <==> frequency > 0.0)
  {
    assert OccursAt(SENSOR_API, "sensor", 14);
  }

  /** `new_components`: one entry per discovered configuration, in discovery order. */
  function NewComponents(frequency: real, discovered: seq<ComponentConfig>): (entries: seq<Value>)
    ensures |entries| == |discovered|
    ensures forall i :: 0 <= i < |discovered| ==> entries[i] == Record(ComponentConfigToDict(frequency, discovered[i]))
  {
    seq(|discovered|, i requires 0 <= i < |discovered| => Record(ComponentConfigToDict(frequency, discovered[i])))
  }

  /** The component was created by this module: `str(c.get("model", ""))` starts with the prefix. */
  predicate IsLutron(c: Dict)
  {
    StartsWith(GetText(c, "model", Text("")), LUTRON_MODEL_PREFIX)
  }

  datatype PushError =
    | NotADict(component: Value)    // `c.get` on an existing component that is not a dict
    | ComponentsNotAList(v: Value)  // `list(current_config.get("components", []))` raised
    | RequestFailed                 // a call to the app API raised

  /** The existing components that `ours` does not claim, in their order; an existing
      component that is not a dict makes the comprehension raise. */
  function KeepOthers(existing: seq<Value>, ours: Dict -> bool): Result<seq<Value>, PushError>
    decreases |existing|
  {
    if existing == [] then Ok([])
    else
      var c := existing[0];
      if !c.Record? then Err(NotADict(c))
      else match KeepOthers(existing[1..], ours)
        case Err(e) => Err(e)
        case Ok(rest) => Ok((if ours(c.fields) then [] else [c]) + rest)
  }

  /** `preserved`: the existing components not created by this module. */
  function Preserved(existing: seq<Value>): Result<seq<Value>, PushError>
  {
    KeepOthers(existing, IsLutron)
  }

  /** Keeping succeeds exactly when every existing component is a dict, and then keeps exactly
      the components `ours` does not claim. */
  lemma {:induction false} KeepOthersMeaning(existing: seq<Value>, ours: Dict -> bool)
    ensures var r := KeepOthers(existing, ours);
      && (r.Ok? <==> forall i :: 0 <= i < |existing| ==> existing[i].Record?)
      && (r.Ok? ==> |r.value| <= |existing|)
      && (r.Ok? ==> forall c :: c in r.value <==> c in existing && c.Record? && !ours(c.fields))
    decreases |existing|
  {
    if existing != [] {
      KeepOthersMeaning(existing[1..], ours);
      assert forall i :: 1 <= i < |existing| ==> existing[1..][i - 1] == existing[i];
      assert existing == [existing[0]] + existing[1..];
    }
  }

  /** Filtering a concatenation filters each part in turn: the kept components keep their
      relative order. */
  lemma {:induction false} KeepOthersAppend(a: seq<Value>, b: seq<Value>, ours: Dict -> bool)
    requires KeepOthers(a, ours).Ok? && KeepOthers(b, ours).Ok?
    ensures KeepOthers(a + b, ours) == Ok(KeepOthers(a, ours).value + KeepOthers(b, ours).value)
    decreases |a|
  {
    if a == [] {
      assert a + b == b;
      assert KeepOthers(a, ours).value + KeepOthers(b, ours).value == KeepOthers(b, ours).value;
    } else {
      assert (a + b)[0] == a[0] && (a + b)[1..] == a[1..] + b;
      KeepOthersAppend(a[1..], b, ours);
      var head := if ours(a[0].fields) then [] else [a[0]];
      assert head + (KeepOthers(a[1..], ours).value + KeepOthers(b, ours).value)
        == (head + KeepOthers(a[1..], ours).value) + KeepOthers(b, ours).value;
    }
  }

  /** Preserving succeeds exactly when every existing component is a dict; it then keeps
      exactly the components not created by this module, and the preserved components of two
      lists are those of their concatenation. */
  lemma PreservedMeaning(existing: seq<Value>, more: seq<Value>)
    ensures var r := Preserved(existing);
      && (r.Ok? <==> forall i :: 0 <= i < |existing| ==> existing[i].Record?)
      && (r.Ok? ==> |r.value| <= |existing|)
      && (r.Ok? ==> forall c :: c in r.value <==> c in existing && c.Record? && !IsLutron(c.fields))
    ensures Preserved(existing).Ok? && Preserved(more).Ok? ==>
      Preserved(existing + more) == Ok(Preserved(existing).value + Preserved(more).value)
  {
    KeepOthersMeaning(existing, IsLutron);
    if Preserved(existing).Ok? && Preserved(more).Ok? {
      KeepOthersAppend(existing, more, IsLutron);
    }
  }

  /** The merge inside `push`: `components` becomes the preserved existing components followed
      by the new entries; every other key of the part's configuration is kept. */
  function MergeConfig(current: Dict, newComponents: seq<Value>): (r: Result<Dict, PushError>)
  {
    var raw := Get(current, "components", Items([]));
    match ListOf(raw)
    case None => Err(ComponentsNotAList(raw))
    case Some(existing) =>
      match Preserved(existing)
      case Err(e) => Err(e)
      case Ok(preserved) => Ok(current["components" := Items(preserved + newComponents)])
  }

  /** Only `components` is replaced; it holds no component of this module's earlier discoveries
      and ends with all the new entries, in order. */
  lemma MergeConfigMeaning(current: Dict, newComponents: seq<Value>)
    requires forall i :: 0 <= i < |newComponents| ==> newComponents[i].Record?
    ensures var r := MergeConfig(current, newComponents);
      r.Ok? ==>
        && r.value.Keys == current.Keys + {"components"}
        && (forall k :: k in current && k != "components" ==> r.value[k] == current[k])
        && r.value["components"].Items?
        && var merged := r.value["components"].items;
           && |merged| >= |newComponents|
           && merged[|merged| - |newComponents|..] == newComponents
           && (forall i :: 0 <= i < |merged| - |newComponents| ==> merged[i].Record? && !IsLutron(merged[i].fields))
           && var existing := ListOf(Get(current, "components", Items([]))).value;
              && Preserved(existing).Ok?
              && merged[..|merged| - |newComponents|] == Preserved(existing).value
              && forall c :: c in merged[..|merged| - |newComponents|] <==> c in existing && c.Record? && !IsLutron(c.fields)
  {
    var r := MergeConfig(current, newComponents);
    if r.Ok? {
      var existing := ListOf(Get(current, "components", Items([]))).value;
      var preserved := Preserved(existing).value;
      PreservedMeaning(existing, []);
      var merged := preserved + newComponents;
      assert r.value["components"] == Items(merged);
      assert merged[|preserved|..] == newComponents;
      assert merged[..|merged| - |newComponents|] == preserved;
      forall i | 0 <= i < |preserved|
        ensures merged[i].Record? && !IsLutron(merged[i].fields)
      {
        assert merged[i] == preserved[i] && preserved[i] in preserved;
      }
    }
  }

  datatype ReconfigureError =
    | NotAFloat(value: Value)        // `float(capture_frequency_hz)` raised
    | MissingDependency(name: string)  // the discovery service is not among the dependencies

  class DiscoveryButton {
    var machinePartId: string
    var captureFrequencyHz: real
    /** `_last_config`: the entries of the last push since the last reconfigure. */
    var lastConfig: Option<seq<Value>>
    /** Name of the discovery service `push` calls. */
    var discovery: string

    /** The resource as created, before `new` calls `reconfigure`. */
    constructor ()
      ensures lastConfig.None?
    {
      machinePartId, captureFrequencyHz, lastConfig, discovery := "", 0.0, None, "";
    }

    /** `reconfigure`: the machine part id as text, the capture frequency as a float (0 when
        absent), no last push, and the discovery service looked up among `dependencies` by name.
        A step that raises leaves the later fields as they were. */
    method Reconfigure(attrs: Dict, dependencies: set<string>) returns (err: Option<ReconfigureError>)
      modifies this
      ensures machinePartId == GetText(attrs, "machine_part_id", Text(""))
      ensures var frequency := FloatOf(Get(attrs, "capture_frequency_hz", Int(0)));
        var name := GetText(attrs, "discovery_service", Text(""));
        && (frequency.None? ==>
              && err == Some(NotAFloat(Get(attrs, "capture_frequency_hz", Int(0))))
              && captureFrequencyHz == old(captureFrequencyHz) && lastConfig == old(lastConfig) && discovery == old(discovery))
        && (frequency.Some? ==> captureFrequencyHz == frequency.value && lastConfig.None?)
        && (frequency.Some? && name !in dependencies ==> err == Some(MissingDependency(name)) && discovery == old(discovery))
        && (frequency.Some? && name in dependencies ==> err.None? && discovery == name)
    {
      machinePartId := GetText(attrs, "machine_part_id", Text(""));
      var raw := Get(attrs, "capture_frequency_hz", Int(0));
      var frequency := FloatOf(raw);
      if frequency.None? {
        return Some(NotAFloat(raw));
      }
      captureFrequencyHz := frequency.value;
      lastConfig := None;
      var name := GetText(attrs, "discovery_service", Text(""));
      if name !in dependencies {
        return Some(MissingDependency(name));
      }
      discovery := name;
      err := None;
    }

    /** `push`, given what the discovery service returned, the part's `robot_config` as read
        from the app (None when it is unset; `Failed` when the read raised) and whether the update
        call returned. The new entries are recorded before any app call; the result is the
        configuration sent back. */
    method Push(discovered: seq<ComponentConfig>, part: Reply<Option<Dict>>, updateOk: bool) returns (r: Result<Dict, PushError>)
      modifies this`lastConfig
      ensures lastConfig == Some(NewComponents(captureFrequencyHz, discovered))
      ensures part.Failed? ==> r == Err(RequestFailed)
      ensures part.Got? ==>
        var current := if part.value.Some? then part.value.value else map[];
        var merged := MergeConfig(current, NewComponents(captureFrequencyHz, discovered));
        r == if merged.Err? then merged else if updateOk then merged else Err(RequestFailed)
    {
      var newComponents := NewComponents(captureFrequencyHz, discovered);
      lastConfig := Some(newComponents);
      if part.Failed? {
        return Err(RequestFailed);
      }
      var current := if part.value.Some? then part.value.value else map[];
      var merged := MergeConfig(current, newComponents);
      if merged.Err? {
        return merged;
      }
      if !updateOk {
        return Err(RequestFailed);
      }
      r := merged;
    }

    /** `self._last_config or []` */
    function LastConfigOrEmpty(): (v: Value)
      reads this
      ensures v.Items?
      ensures lastConfig.Some? ==> v.items == lastConfig.value
      ensures lastConfig.None? ==> v == Items([])
    {
      Items(if lastConfig.Some? then lastConfig.value else [])
    }

    /** `do_command`: every command answers False except `get_last_config`, which answers the
        entries of the last push (or an empty list). */
    method DoCommand(command: Dict) returns (result: Dict)
      ensures result.Keys == command.Keys
      ensures forall k :: k in result ==> result[k] == if k == GET_LAST_CONFIG then LastConfigOrEmpty() else Bool(false)
    {
      result := map k | k in command :: Bool(false);
      var pending := command.Keys;
      while pending != {}
        invariant pending <= command.Keys
        invariant result.Keys == command.Keys
        invariant forall k :: k in result && k !in pending ==> result[k] == if k == GET_LAST_CONFIG then LastConfigOrEmpty() else Bool(false)
        invariant forall k :: k in pending ==> result[k] == Bool(false)
        decreases pending
      {
        var name :| name in pending;
        if name == GET_LAST_CONFIG {
          result := result[name := LastConfigOrEmpty()];
        }
        pending := pending - {name};
      }
    }
  }
}
