/**
 * Device discovery of `Application`: the pump, axis-system and valve scans
 * that turn the units found on the bus into the devices declared in the
 * device configuration, and the bring-up of the discovered pumps.
 */
module Discovery {
  import opened Common
  import Qmix

  /**
   * The class a configured device has been converted to so far:
   * `convert_to_class` changes a plain `Device` into one of these in place.
   * `unit` is the index of the hardware unit whose handle it received.
   */
  datatype DeviceKind =
    | PlainDevice
    | PumpDevice(contiflow: bool, unit: nat)
    | AxisSystemDevice(unit: nat)
    | ValveDevice
    | ControllerDevice
    | IODevice

  /** A device declared in the device configuration. */
  class Device {
    const name: string
    var kind: DeviceKind
    /** The indices of the valve units attached to this device, in order. */
    var valves: seq<nat>

    constructor (name: string)
      ensures this.name == name && kind == PlainDevice && valves == []
    {
      this.name := name;
      kind := PlainDevice;
      valves := [];
    }
  }

  /** Device names identify devices within a configuration. */
  predicate UniqueNames(config: seq<Device>)
  {
    forall i, j :: 0 <= i < j < |config| ==> config[i].name != config[j].name
  }

  /** With distinct names, no other position holds the device at position `j`. */
  lemma OthersDiffer(config: seq<Device>, j: nat)
    requires UniqueNames(config) && j < |config|
    ensures forall k :: 0 <= k < |config| && k != j ==> config[k] != config[j]
  {
    forall k | 0 <= k < |config| && k != j
      ensures config[k] != config[j]
    {
      if k < j {
        assert config[k].name != config[j].name;
      } else {
        assert config[j].name != config[k].name;
      }
    }
  }

  /** `device_config.device_by_name`: the position of the device called `name`. */
  function IndexOfName(config: seq<Device>, name: string): (r: Option<nat>)
    ensures r.Some? ==> r.value < |config| && config[r.value].name == name
    ensures r.None? ==> forall k :: 0 <= k < |config| ==> config[k].name != name
    decreases |config|
  {
    if config == [] then None
    else if config[|config| - 1].name == name then Some(|config| - 1)
    else IndexOfName(config[..|config| - 1], name)
  }

  /** The position of the last of `names` equal to `name`. */
  function LastNamed(names: seq<string>, name: string): (r: Option<nat>)
    ensures r.Some? ==> r.value < |names| && names[r.value] == name
                        && forall j :: r.value < j < |names| ==> names[j] != name
    ensures r.None? ==> forall j :: 0 <= j < |names| ==> names[j] != name
    decreases |names|
  {
    if names == [] then None
    else if names[|names| - 1] == name then Some(|names| - 1)
    else LastNamed(names[..|names| - 1], name)
  }

  /** The ways a discovery scan can stop early. */
  datatype DiscoveryError = UndeclaredDevice(name: string)

  // ---------------------------------------------------------------------
  // Pumps

  /**
   * A pump unit as the SDK reports it: its device name, and whether the
   * `SWITCHING_MODE` property probe answers (true) or raises `DeviceError`.
   * A unit whose probe answers is rebound as a `ContiFlowPump`; the model
   * takes it that the device converted from it is then a ContiFlow pump,
   * which rests on `PumpDevice.convert_to_class` (not part of this model).
   */
  datatype PumpUnit = PumpUnit(name: string, switchingModeProbe: bool)

  function PumpNames(units: seq<PumpUnit>): (r: seq<string>)
    ensures |r| == |units| && forall i :: 0 <= i < |units| ==> r[i] == units[i].name
  {
    seq(|units|, i requires 0 <= i < |units| => units[i].name)
  }

  /**
   * The class of a device called `name` once the first `n` pump units have
   * been scanned: the last of them carrying that name converts it.
   */
  function PumpKindAfter(units: seq<PumpUnit>, n: nat, name: string, before: DeviceKind): DeviceKind
    requires n <= |units|
    decreases n
  {
    if n == 0 then before
    else if units[n - 1].name == name then PumpDevice(units[n - 1].switchingModeProbe, n - 1)
    else PumpKindAfter(units, n - 1, name, before)
  }

  /** The scan's outcome for one device agrees with the reference reading "the last unit of that name wins". */
  lemma {:induction false} PumpKindAfterIsLastNamed(units: seq<PumpUnit>, n: nat, name: string, before: DeviceKind)
    requires n <= |units|
    ensures PumpKindAfter(units, n, name, before)
            == match LastNamed(PumpNames(units)[..n], name)
               case None => before
               case Some(j) => PumpDevice(units[j].switchingModeProbe, j)
    decreases n
  {
    var names := PumpNames(units)[..n];
    if n > 0 {
      assert names[..n - 1] == PumpNames(units)[..n - 1];
      PumpKindAfterIsLastNamed(units, n - 1, name, before);
    }
  }

  /** `convert_to_pump` on the device of the `i`-th unit: only its class changes. */
  method ConvertPump(config: seq<Device>, units: seq<PumpUnit>, i: nat, p: nat, ghost kinds: seq<DeviceKind>)
    requires UniqueNames(config) && i < |units| && p < |config| == |kinds| && config[p].name == units[i].name
    requires forall k :: 0 <= k < |config| ==> config[k].kind == PumpKindAfter(units, i, config[k].name, kinds[k])
    modifies {config[p]}`kind
    ensures forall k :: 0 <= k < |config| ==> config[k].kind == PumpKindAfter(units, i + 1, config[k].name, kinds[k])
  {
    OthersDiffer(config, p);
    config[p].kind := PumpDevice(units[i].switchingModeProbe, i);
  }

  /**
   * `get_availabe_pumps`: one entry per pump unit, in unit order, each the
   * configured device of that name, converted to a pump (flagged ContiFlow
   * exactly when its probe answered, as `PumpUnit` says). A probe that
   * raises does not stop the scan;
   * a unit whose name is not declared does.
   */
  method GetAvailablePumps(config: seq<Device>, units: seq<PumpUnit>) returns (r: Result<seq<Device>, DiscoveryError>)
    requires UniqueNames(config)
    modifies (set d | d in config)`kind
    ensures r.Success? <==> forall i :: 0 <= i < |units| ==> IndexOfName(config, units[i].name).Some?
    ensures r.Success? ==> |r.value| == |units|
                           && forall i :: 0 <= i < |units| ==> r.value[i] in config && r.value[i].name == units[i].name
    ensures r.Success? ==> forall k :: 0 <= k < |config| ==>
                             config[k].kind == PumpKindAfter(units, |units|, config[k].name, old(config[k].kind))
    ensures r.Failure? ==> exists n :: 0 <= n < |units|
                             && (forall i :: 0 <= i < n ==> IndexOfName(config, units[i].name).Some?)
                             && r.error == UndeclaredDevice(units[n].name)
                             && IndexOfName(config, units[n].name).None?
                             && forall k :: 0 <= k < |config| ==>
                                  config[k].kind == PumpKindAfter(units, n, config[k].name, old(config[k].kind))
  {
    ghost var kinds := KindsOf(config);
    var pumps := [];
    var i := 0;
    while i < |units|
      invariant 0 <= i <= |units|
      invariant |pumps| == i
      invariant forall k :: 0 <= k < i ==> pumps[k] in config
      invariant forall k :: 0 <= k < i ==> pumps[k].name == units[k].name
      invariant forall k :: 0 <= k < i ==> IndexOfName(config, units[k].name).Some?
      invariant forall k :: 0 <= k < |config| ==> config[k].kind == PumpKindAfter(units, i, config[k].name, kinds[k])
    {
      var unit := units[i];
      var position := IndexOfName(config, unit.name);
      if position.None? {
        r := Failure(UndeclaredDevice(unit.name));
        return;
      }
      var p := position.value;
      ConvertPump(config, units, i, p, kinds);
      pumps := pumps + [config[p]];
      i := i + 1;
    }
    r := Success(pumps);
  }


  // ---------------------------------------------------------------------
  // Axis systems

  /** The class of a device called `name` once the first `n` axis systems have been scanned. */
  function AxisKindAfter(names: seq<string>, n: nat, name: string, before: DeviceKind): DeviceKind
    requires n <= |names|
    decreases n
  {
    if n == 0 then before
    else if names[n - 1] == name then AxisSystemDevice(n - 1)
    else AxisKindAfter(names, n - 1, name, before)
  }

  /** The scan's outcome for one device agrees with "the last axis system of that name wins". */
  lemma {:induction false} AxisKindAfterIsLastNamed(names: seq<string>, n: nat, name: string, before: DeviceKind)
    requires n <= |names|
    ensures AxisKindAfter(names, n, name, before)
            == match LastNamed(names[..n], name)
               case None => before
               case Some(j) => AxisSystemDevice(j)
    decreases n
  {
    if n > 0 {
      assert names[..n][..n - 1] == names[..n - 1];
      AxisKindAfterIsLastNamed(names, n - 1, name, before);
    }
  }

  /** `convert_to_axis_system` on the device of the `i`-th axis system: only its class changes. */
  method ConvertAxis(config: seq<Device>, names: seq<string>, i: nat, p: nat, ghost kinds: seq<DeviceKind>)
    requires UniqueNames(config) && i < |names| && p < |config| == |kinds| && config[p].name == names[i]
    requires forall k :: 0 <= k < |config| ==> config[k].kind == AxisKindAfter(names, i, config[k].name, kinds[k])
    modifies {config[p]}`kind
    ensures forall k :: 0 <= k < |config| ==> config[k].kind == AxisKindAfter(names, i + 1, config[k].name, kinds[k])
  {
    OthersDiffer(config, p);
    config[p].kind := AxisSystemDevice(i);
  }

  /**
   * `get_availabe_axis_systems`: one entry per axis system, in order, each
   * the configured device of that name converted to an axis system.
   */
  method GetAvailableAxisSystems(config: seq<Device>, names: seq<string>) returns (r: Result<seq<Device>, DiscoveryError>)
    requires UniqueNames(config)
    modifies (set d | d in config)`kind
    ensures r.Success? <==> forall i :: 0 <= i < |names| ==> IndexOfName(config, names[i]).Some?
    ensures r.Success? ==> |r.value| == |names|
                           && forall i :: 0 <= i < |names| ==> r.value[i] in config && r.value[i].name == names[i]
    ensures r.Success? ==> forall k :: 0 <= k < |config| ==>
                             config[k].kind == AxisKindAfter(names, |names|, config[k].name, old(config[k].kind))
    ensures r.Failure? ==> exists n :: 0 <= n < |names|
                             && (forall i :: 0 <= i < n ==> IndexOfName(config, names[i]).Some?)
                             && r.error == UndeclaredDevice(names[n])
                             && IndexOfName(config, names[n]).None?
                             && forall k :: 0 <= k < |config| ==>
                                  config[k].kind == AxisKindAfter(names, n, config[k].name, old(config[k].kind))
  {
    ghost var kinds := KindsOf(config);
    var systems := [];
    var i := 0;
    while i < |names|
      invariant 0 <= i <= |names|
      invariant |systems| == i
      invariant forall k :: 0 <= k < i ==> systems[k] in config
      invariant forall k :: 0 <= k < i ==> systems[k].name == names[k]
      invariant forall k :: 0 <= k < i ==> IndexOfName(config, names[k]).Some?
      invariant forall k :: 0 <= k < |config| ==> config[k].kind == AxisKindAfter(names, i, config[k].name, kinds[k])
    {
      var name := names[i];
      var position := IndexOfName(config, name);
      if position.None? {
        r := Failure(UndeclaredDevice(name));
        return;
      }
      var p := position.value;
      ConvertAxis(config, names, i, p, kinds);
      systems := systems + [config[p]];
      i := i + 1;
    }
    r := Success(systems);
  }

  // ---------------------------------------------------------------------
  // Valves

  /** A valve unit: its device name, or `None` when `get_device_name` raised `OSError`. */
  datatype ValveUnit = ValveUnit(name: Option<string>)

  const PumpSuffix: string := "_Pump"
  const QmixIOMarker: string := "QmixIO"

  predicate SubstringAt(haystack: string, needle: string, i: int)
  {
    0 <= i && i + |needle| <= |haystack| && haystack[i..i + |needle|] == needle
  }

  /** The last position at or before `k` where `needle` occurs in `haystack`. */
  function LastIndexFrom(haystack: string, needle: string, k: int): (r: Option<nat>)
    ensures r.Some? ==> r.value <= k
    decreases k + 1
  {
    if k < 0 then None
    else if SubstringAt(haystack, needle, k) then Some(k)
    else LastIndexFrom(haystack, needle, k - 1)
  }

  /** Python's `needle in haystack` on strings: a search from the end finds an occurrence. */
  predicate Contains(haystack: string, needle: string)
  {
    LastIndexFrom(haystack, needle, |haystack| - |needle|).Some?
  }

  /** `LastIndexFrom` finds an occurrence with none after it, or reports that there is none. */
  lemma {:induction false} LastIndexFromFinds(haystack: string, needle: string, k: int)
    ensures var r := LastIndexFrom(haystack, needle, k);
            && (r.Some? ==> r.value <= k && SubstringAt(haystack, needle, r.value)
                            && forall j :: r.value < j <= k ==> !SubstringAt(haystack, needle, j))
            && (r.None? ==> forall j :: j <= k ==> !SubstringAt(haystack, needle, j))
    decreases k + 1
  {
    if k >= 0 && !SubstringAt(haystack, needle, k) {
      LastIndexFromFinds(haystack, needle, k - 1);
    }
  }

  /** `Contains` holds exactly when the needle occurs somewhere in the haystack. */
  lemma ContainsOccurs(haystack: string, needle: string)
    ensures Contains(haystack, needle) <==> exists i :: SubstringAt(haystack, needle, i)
  {
    LastIndexFromFinds(haystack, needle, |haystack| - |needle|);
  }

  /**
   * `name.rsplit('_Pump', 1)[0]`: the name cut at its last "_Pump", or the
   * whole name when it has none.
   */
  function BaseName(name: string): string
  {
    match LastIndexFrom(name, PumpSuffix, |name| - |PumpSuffix|)
    case None => name
    case Some(k) => name[..k]
  }

  /** `BaseName` keeps a name without "_Pump" whole and otherwise cuts it just before the last one. */
  lemma BaseNameCut(name: string)
    ensures !Contains(name, PumpSuffix) ==> BaseName(name) == name
    ensures Contains(name, PumpSuffix) ==>
              var r := BaseName(name);
              && SubstringAt(name, PumpSuffix, |r|)
              && r == name[..|r|]
              && forall j :: |r| < j <= |name| - |PumpSuffix| ==> !SubstringAt(name, PumpSuffix, j)
  {
    LastIndexFromFinds(name, PumpSuffix, |name| - |PumpSuffix|);
  }

  /** A valve called `valveName` is attached to the device called `deviceName`. */
  predicate Attaches(deviceName: string, valveName: string)
  {
    Contains(valveName, BaseName(deviceName)) && !Contains(deviceName, QmixIOMarker)
  }

  predicate ValveAttaches(deviceName: string, u: ValveUnit)
  {
    u.name.Some? && Attaches(deviceName, u.name.value)
  }

  /** The indices of the units of `units` attached to the device called `name`, in order. */
  function AttachedValves(name: string, units: seq<ValveUnit>): (r: seq<nat>)
    ensures forall m :: 0 <= m < |r| ==> r[m] < |units|
    decreases |units|
  {
    if units == [] then []
    else
      var l := |units| - 1;
      AttachedValves(name, units[..l]) + (if ValveAttaches(name, units[l]) then [l] else [])
  }

  lemma AttachedValvesSnoc(name: string, units: seq<ValveUnit>, u: ValveUnit)
    ensures AttachedValves(name, units + [u])
            == AttachedValves(name, units) + (if ValveAttaches(name, u) then [|units|] else [])
  {
    assert (units + [u])[..|units|] == units;
  }

  /** One more unit extends the attached list by what that unit gives. */
  lemma AttachedValvesStep(name: string, units: seq<ValveUnit>, i: nat)
    requires i < |units|
    ensures AttachedValves(name, units[..i + 1]) == AttachedValves(name, units[..i]) + Received(name, i, units[i])
  {
    assert units[..i + 1][..i] == units[..i];
  }

  /** The valve a device receives from the unit at `index`: that index, when the device owns the unit. */
  function Received(name: string, index: nat, u: ValveUnit): seq<nat>
  {
    if ValveAttaches(name, u) then [index] else []
  }

  /** The class a device has once `attached` valves have been attached to it. */
  function KindAfter(before: DeviceKind, attached: seq<nat>): DeviceKind
  {
    if before == PlainDevice && attached != [] then ValveDevice else before
  }

  /** Attaching valves in two batches leaves a device of the same class as attaching them at once. */
  lemma KindAfterStep(before: DeviceKind, first: seq<nat>, second: seq<nat>)
    ensures KindAfter(KindAfter(before, first), second) == KindAfter(before, first + second)
  {
  }

  /** The devices of `devs` whose flag is set, in order. */
  function Select(devs: seq<Device>, flags: seq<bool>): seq<Device>
    requires |devs| == |flags|
    decreases |devs|
  {
    if devs == [] then []
    else
      var l := |devs| - 1;
      Select(devs[..l], flags[..l]) + (if flags[l] then [devs[l]] else [])
  }

  /** Extending the selection by one position, with a prefix in front. */
  lemma SelectStep(valves: seq<Device>, devs: seq<Device>, flags: seq<bool>, j: nat)
    requires |devs| == |flags| && j < |devs|
    ensures valves + Select(devs[..j + 1], flags[..j + 1])
            == (valves + Select(devs[..j], flags[..j])) + (if flags[j] then [devs[j]] else [])
  {
    SelectSnoc(devs, flags, j);
  }

  lemma SelectSnoc(devs: seq<Device>, flags: seq<bool>, j: nat)
    requires |devs| == |flags| && j < |devs|
    ensures Select(devs[..j + 1], flags[..j + 1]) == Select(devs[..j], flags[..j]) + (if flags[j] then [devs[j]] else [])
  {
    assert devs[..j + 1][..j] == devs[..j] && flags[..j + 1][..j] == flags[..j];
  }

  /** The condition under which the unit `u` turns a device into a valve device. */
  predicate FirstOwner(kind: DeviceKind, name: string, earlier: seq<ValveUnit>, u: ValveUnit)
  {
    kind == PlainDevice && AttachedValves(name, earlier) == [] && ValveAttaches(name, u)
  }

  function OwnerFlags(devs: seq<Device>, kinds: seq<DeviceKind>, earlier: seq<ValveUnit>, u: ValveUnit): (r: seq<bool>)
    requires |devs| == |kinds|
    ensures |r| == |devs| && forall k :: 0 <= k < |devs| ==> r[k] == FirstOwner(kinds[k], devs[k].name, earlier, u)
  {
    seq(|devs|, k requires 0 <= k < |devs| => FirstOwner(kinds[k], devs[k].name, earlier, u))
  }

  /**
   * The devices, in configuration order, that become valve devices when the
   * unit `u` is attached after the units `earlier`: still plain, with no
   * earlier valve, and owning `u`.
   */
  function FirstTimeOwners(devs: seq<Device>, kinds: seq<DeviceKind>, earlier: seq<ValveUnit>, u: ValveUnit): seq<Device>
    requires |devs| == |kinds|
  {
    Select(devs, OwnerFlags(devs, kinds, earlier, u))
  }

  /** The valve-device list the scan of `units` returns, for starting classes `kinds`. */
  function Promoted(config: seq<Device>, kinds: seq<DeviceKind>, units: seq<ValveUnit>): seq<Device>
    requires |config| == |kinds|
    decreases |units|
  {
    if units == [] then []
    else
      var l := |units| - 1;
      Promoted(config, kinds, units[..l]) + FirstTimeOwners(config, kinds, units[..l], units[l])
  }

  lemma PromotedStep(config: seq<Device>, kinds: seq<DeviceKind>, units: seq<ValveUnit>, i: nat)
    requires |config| == |kinds| && i < |units|
    ensures Promoted(config, kinds, units[..i + 1])
            == Promoted(config, kinds, units[..i]) + FirstTimeOwners(config, kinds, units[..i], units[i])
  {
    assert units[..i + 1][..i] == units[..i];
  }

  /** The valves currently attached to the configured devices. */
  function ValvesOf(config: seq<Device>): (r: seq<seq<nat>>)
    reads set d | d in config
    ensures |r| == |config| && forall k :: 0 <= k < |config| ==> r[k] == config[k].valves
    decreases |config|
  {
    if config == [] then [] else ValvesOf(config[..|config| - 1]) + [config[|config| - 1].valves]
  }

  /** The current classes of the configured devices. */
  function KindsOf(config: seq<Device>): (r: seq<DeviceKind>)
    reads set d | d in config
    ensures |r| == |config| && forall k :: 0 <= k < |config| ==> r[k] == config[k].kind
    decreases |config|
  {
    if config == [] then [] else KindsOf(config[..|config| - 1]) + [config[|config| - 1].kind]
  }

  /** The valve indices a device gains from one unit: `[index]` when it owns the unit, else none. */
  function Gain(owns: bool, index: nat): seq<nat>
  {
    if owns then [index] else []
  }

  /** For each configured device, whether it owns the valve unit `u`. */
  function Owners(config: seq<Device>, u: ValveUnit): (r: seq<bool>)
    ensures |r| == |config| && forall k :: 0 <= k < |config| ==> r[k] == ValveAttaches(config[k].name, u)
  {
    seq(|config|, k requires 0 <= k < |config| => ValveAttaches(config[k].name, u))
  }

  /**
   * One pass of the inner loop of `get_availabe_valves`: an owning device
   * receives the valve at `index`; `promoted` tells whether it was still a
   * plain `Device` and has just become a valve device.
   */
  method AttachOne(device: Device, index: nat, owns: bool) returns (promoted: bool)
    modifies device
    ensures device.valves == old(device.valves) + Gain(owns, index)
    ensures device.kind == KindAfter(old(device.kind), Gain(owns, index))
    ensures promoted == (owns && old(device.kind) == PlainDevice)
  {
    promoted := false;
    if owns {
      device.valves := device.valves + [index];
      if device.kind == PlainDevice {
        device.kind := ValveDevice;
        promoted := true;
      }
    }
  }

  /** For each device, whether it is a plain `Device` (by `kinds`) that owns the unit (by `owners`). */
  function PlainOwners(kinds: seq<DeviceKind>, owners: seq<bool>): (r: seq<bool>)
    requires |kinds| == |owners|
    ensures |r| == |kinds| && forall k :: 0 <= k < |kinds| ==> r[k] == (kinds[k] == PlainDevice && owners[k])
  {
    seq(|kinds|, k requires 0 <= k < |kinds| => kinds[k] == PlainDevice && owners[k])
  }

  /** Plain owners under the current classes are the first-time owners under the starting classes. */
  lemma PlainOwnersAreFirstTimeOwners(devs: seq<Device>, now: seq<DeviceKind>, kinds: seq<DeviceKind>,
                                      earlier: seq<ValveUnit>, u: ValveUnit)
    requires |devs| == |now| == |kinds|
    requires forall k :: 0 <= k < |devs| ==> now[k] == KindAfter(kinds[k], AttachedValves(devs[k].name, earlier))
    ensures PlainOwners(now, Owners(devs, u)) == OwnerFlags(devs, kinds, earlier, u)
  {
  }

  /**
   * The inner loop of `get_availabe_valves` for the valve at `index`, with
   * `owners` telling which devices own it: every owner receives it, and an
   * owner that is still a plain `Device` becomes a valve device and joins
   * the result.
   */
  method AttachToOwners(config: seq<Device>, index: nat, owners: seq<bool>, ghost kinds: seq<DeviceKind>,
                        valves: seq<Device>) returns (valves': seq<Device>)
    requires UniqueNames(config) && |owners| == |config| && |kinds| == |config|
    requires forall k :: 0 <= k < |config| ==> config[k].kind == kinds[k]
    modifies set d | d in config
    ensures forall k :: 0 <= k < |config| ==> config[k].valves == old(config[k].valves) + Gain(owners[k], index)
    ensures forall k :: 0 <= k < |config| ==> config[k].kind == KindAfter(kinds[k], Gain(owners[k], index))
    ensures valves' == valves + Select(config, PlainOwners(kinds, owners))
  {
    ghost var flags := PlainOwners(kinds, owners);
    valves' := valves;
    var j := 0;
    while j < |config|
      invariant 0 <= j <= |config|
      invariant valves' == valves + Select(config[..j], flags[..j])
      invariant forall k :: 0 <= k < |config| ==>
                  config[k].valves == old(config[k].valves) + (if k < j then Gain(owners[k], index) else [])
      invariant forall k :: 0 <= k < |config| ==>
                  config[k].kind == (if k < j then KindAfter(kinds[k], Gain(owners[k], index)) else kinds[k])
    {
      var device := config[j];
      OthersDiffer(config, j);
      var promoted := AttachOne(device, index, owners[j]);
      SelectStep(valves, config, flags, j);
      if promoted {
        valves' := valves' + [device];
      }
      j := j + 1;
    }
    assert config[..j] == config && flags[..j] == flags;
  }



  lemma {:induction false} SelectNone(devs: seq<Device>, flags: seq<bool>)
    requires |devs| == |flags| && forall k :: 0 <= k < |flags| ==> !flags[k]
    ensures Select(devs, flags) == []
    decreases |devs|
  {
    if devs != [] {
      SelectNone(devs[..|devs| - 1], flags[..|devs| - 1]);
    }
  }

  lemma NoOwnersWithoutName(devs: seq<Device>, kinds: seq<DeviceKind>, earlier: seq<ValveUnit>, u: ValveUnit)
    requires |devs| == |kinds| && u.name.None?
    ensures FirstTimeOwners(devs, kinds, earlier, u) == []
  {
    SelectNone(devs, OwnerFlags(devs, kinds, earlier, u));
  }

  /**
   * The body of the outer loop of `get_availabe_valves` for the unit at
   * position `index`, after the units `earlier`: a unit without a name is skipped, any other goes
   * to its owners.
   */
  method ScanUnit(config: seq<Device>, index: nat, unit: ValveUnit, valves: seq<Device>, ghost kinds: seq<DeviceKind>,
                  ghost before: seq<seq<nat>>, ghost earlier: seq<ValveUnit>) returns (valves': seq<Device>)
    requires UniqueNames(config) && |kinds| == |config| && |before| == |config| && index == |earlier|
    requires forall k :: 0 <= k < |config| ==> config[k].valves == before[k] + AttachedValves(config[k].name, earlier)
    requires forall k :: 0 <= k < |config| ==>
               config[k].kind == KindAfter(kinds[k], AttachedValves(config[k].name, earlier))
    modifies set d | d in config
    ensures forall k :: 0 <= k < |config| ==>
              config[k].valves == before[k] + AttachedValves(config[k].name, earlier + [unit])
    ensures forall k :: 0 <= k < |config| ==>
              config[k].kind == KindAfter(kinds[k], AttachedValves(config[k].name, earlier + [unit]))
    ensures valves' == valves + FirstTimeOwners(config, kinds, earlier, unit)
  {
    forall k | 0 <= k < |config|
      ensures AttachedValves(config[k].name, earlier + [unit])
              == AttachedValves(config[k].name, earlier) + Received(config[k].name, index, unit)
    {
      AttachedValvesSnoc(config[k].name, earlier, unit);
    }
    if unit.name.None? {
      NoOwnersWithoutName(config, kinds, earlier, unit);
      return valves;
    }
    var owners := Owners(config, unit);
    ghost var now := KindsOf(config);
    PlainOwnersAreFirstTimeOwners(config, now, kinds, earlier, unit);
    valves' := AttachToOwners(config, index, owners, now, valves);
  }

  /**
   * `get_availabe_valves`: every valve unit is given to each device that
   * owns it, and the devices that thereby become valve devices are returned
   * in the order in which they became so.
   */
  method GetAvailableValves(config: seq<Device>, units: seq<ValveUnit>) returns (valves: seq<Device>)
    requires UniqueNames(config)
    modifies set d | d in config
    ensures forall k :: 0 <= k < |config| ==>
              config[k].valves == old(config[k].valves) + AttachedValves(config[k].name, units)
    ensures forall k :: 0 <= k < |config| ==>
              config[k].kind == KindAfter(old(config[k].kind), AttachedValves(config[k].name, units))
    ensures valves == Promoted(config, old(KindsOf(config)), units)
  {
    ghost var kinds := KindsOf(config);
    ghost var before := ValvesOf(config);
    valves := [];
    var i := 0;
    while i < |units|
      invariant 0 <= i <= |units|
      invariant valves == Promoted(config, kinds, units[..i])
      invariant forall k :: 0 <= k < |config| ==> config[k].valves == before[k] + AttachedValves(config[k].name, units[..i])
      invariant forall k :: 0 <= k < |config| ==>
                  config[k].kind == KindAfter(kinds[k], AttachedValves(config[k].name, units[..i]))
    {
      PromotedStep(config, kinds, units, i);
      assert units[..i + 1] == units[..i] + [units[i]];
      valves := ScanUnit(config, i, units[i], valves, kinds, before, units[..i]);
      i := i + 1;
    }
    assert units[..i] == units;
  }



  // ---------------------------------------------------------------------
  // Properties of the valve scan

  /** A device is selected exactly when it stands at a position whose flag is set. */
  lemma {:induction false} SelectMembers(devs: seq<Device>, flags: seq<bool>, d: Device)
    requires |devs| == |flags|
    ensures d in Select(devs, flags) <==> exists k :: 0 <= k < |devs| && devs[k] == d && flags[k]
    decreases |devs|
  {
    if devs != [] {
      var l := |devs| - 1;
      SelectMembers(devs[..l], flags[..l], d);
      if d in Select(devs[..l], flags[..l]) {
        var k :| 0 <= k < l && devs[..l][k] == d && flags[..l][k];
        assert devs[k] == d && flags[k];
      }
      if exists k :: 0 <= k < |devs| && devs[k] == d && flags[k] {
        var k :| 0 <= k < |devs| && devs[k] == d && flags[k];
        if k < l {
          assert devs[..l][k] == d && flags[..l][k];
        }
      }
    }
  }

  /** No device occurs twice in `s`. */
  predicate NoRepeats(s: seq<Device>)
  {
    forall a, b :: 0 <= a < b < |s| ==> s[a] != s[b]
  }

  lemma NoRepeatsAppend(x: seq<Device>, y: seq<Device>)
    requires NoRepeats(x) && NoRepeats(y)
    requires forall d :: d in x ==> d !in y
    ensures NoRepeats(x + y)
  {
    var z := x + y;
    forall a, b | 0 <= a < b < |z|
      ensures z[a] != z[b]
    {
      if a < |x| && |x| <= b {
        assert z[a] in x && z[b] == y[b - |x|];
      } else if |x| <= a {
        assert z[a] == y[a - |x|] && z[b] == y[b - |x|];
      }
    }
  }

  /** Selecting from devices with distinct names never repeats a device. */
  lemma {:induction false} SelectDistinct(devs: seq<Device>, flags: seq<bool>)
    requires |devs| == |flags| && UniqueNames(devs)
    ensures NoRepeats(Select(devs, flags))
    decreases |devs|
  {
    if devs != [] {
      var l := |devs| - 1;
      var front := Select(devs[..l], flags[..l]);
      assert UniqueNames(devs[..l]);
      SelectDistinct(devs[..l], flags[..l]);
      forall d | d in front
        ensures d !in [devs[l]]
      {
        SelectMembers(devs[..l], flags[..l], d);
        var k :| 0 <= k < l && devs[..l][k] == d && flags[..l][k];
        assert devs[k].name != devs[l].name;
      }
      NoRepeatsAppend(front, if flags[l] then [devs[l]] else []);
    }
  }

  lemma FirstTimeOwnersMembers(devs: seq<Device>, kinds: seq<DeviceKind>, earlier: seq<ValveUnit>, u: ValveUnit, d: Device)
    requires |devs| == |kinds|
    ensures d in FirstTimeOwners(devs, kinds, earlier, u) <==>
              exists k :: 0 <= k < |devs| && devs[k] == d && FirstOwner(kinds[k], d.name, earlier, u)
  {
    var flags := OwnerFlags(devs, kinds, earlier, u);
    SelectMembers(devs, flags, d);
    if exists k :: 0 <= k < |devs| && devs[k] == d && flags[k] {
      var k :| 0 <= k < |devs| && devs[k] == d && flags[k];
      assert FirstOwner(kinds[k], d.name, earlier, u);
    }
  }

  /**
   * The valve-device list holds exactly the configured devices that were
   * plain `Device`s when the scan started and received at least one valve.
   */
  lemma {:induction false} PromotedMembers(config: seq<Device>, kinds: seq<DeviceKind>, units: seq<ValveUnit>, d: Device)
    requires |config| == |kinds| && UniqueNames(config)
    ensures d in Promoted(config, kinds, units) <==>
              exists k :: 0 <= k < |config| && config[k] == d && kinds[k] == PlainDevice
                          && AttachedValves(d.name, units) != []
    decreases |units|
  {
    if units != [] {
      var l := |units| - 1;
      PromotedMembers(config, kinds, units[..l], d);
      FirstTimeOwnersMembers(config, kinds, units[..l], units[l], d);
      AttachedValvesSnoc(d.name, units[..l], units[l]);
      assert units[..l] + [units[l]] == units;
    }
  }

  /** No device appears twice in the valve-device list. */
  lemma {:induction false} PromotedDistinct(config: seq<Device>, kinds: seq<DeviceKind>, units: seq<ValveUnit>)
    requires |config| == |kinds| && UniqueNames(config)
    ensures NoRepeats(Promoted(config, kinds, units))
    decreases |units|
  {
    if units != [] {
      var l := |units| - 1;
      var front := Promoted(config, kinds, units[..l]);
      var added := FirstTimeOwners(config, kinds, units[..l], units[l]);
      PromotedDistinct(config, kinds, units[..l]);
      SelectDistinct(config, OwnerFlags(config, kinds, units[..l], units[l]));
      forall d | d in front
        ensures d !in added
      {
        PromotedMembers(config, kinds, units[..l], d);
        FirstTimeOwnersMembers(config, kinds, units[..l], units[l], d);
      }
      NoRepeatsAppend(front, added);
    }
  }

  // ---------------------------------------------------------------------
  // Bring-up

  /** The commands `enable_pumps` sends to a pump in the given state. */
  function EnableCalls(inFault: bool, enabled: bool): seq<Qmix.PumpCall>
  {
    (if inFault then [Qmix.ClearFault] else []) + (if !enabled then [Qmix.Enable(true)] else [])
  }

  /**
   * `enable_pumps`: a faulted pump gets `clear_fault`, a disabled one
   * `enable(True)`; a pump already in the wanted state gets no command.
   */
  method EnablePumps(pumps: seq<Qmix.Pump>)
    modifies set p | p in pumps
    ensures forall p :: p in pumps ==>
              p.calls == old(p.calls) + EnableCalls(old(p.inFault), old(p.enabled)) && !p.inFault && p.enabled
  {
    var i := 0;
    while i < |pumps|
      invariant 0 <= i <= |pumps|
      invariant forall p :: p in pumps[..i] ==>
                  p.calls == old(p.calls) + EnableCalls(old(p.inFault), old(p.enabled)) && !p.inFault && p.enabled
      invariant forall p :: p in pumps && p !in pumps[..i] ==>
                  p.calls == old(p.calls) && p.inFault == old(p.inFault) && p.enabled == old(p.enabled)
    {
      var pump := pumps[i];
      if pump.inFault {
        pump.ClearFaultState();
      }
      if !pump.enabled {
        pump.SetEnabled(true);
      }
      assert pumps[..i + 1] == pumps[..i] + [pump];
      i := i + 1;
    }
    assert pumps[..i] == pumps;
  }
}
