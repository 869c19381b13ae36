/**
 * The part of the qmixsdk pump interface that the services call. The SDK is
 * an external collaborator: a `Pump` records, in `calls`, every command the
 * services send to it, and keeps the two pieces of drive state that the
 * services test before commanding (fault and enabled). Time-varying reads
 * (flow, fill level, force, ...) are not fields here; the loops that poll
 * them receive the answers as per-tick oracle sequences.
 */
module Qmix {

  /** A command sent to a pump, with its arguments. */
  datatype PumpCall =
    | ClearFault
    | Enable(on: bool)
    | Calibrate
    | ClearForceSafetyStop
    | EnableForceMonitoring(on: bool)
    | WriteForceLimit(limit: real)
    | SetSyringeParam(innerDiameter: real, maxPistonStroke: real)
    | RestorePositionCounterValue(counter: int)
    | StopPumping
    | SetFillLevel(fillLevel: real, flowRate: real)
    | PumpVolume(volume: real, flowRate: real)
    | GenerateFlow(flowRate: real)

  class Pump {
    /** `get_pump_name()` */
    const name: string
    /** `is_enabled()` */
    var enabled: bool
    /** `is_in_fault_state()` */
    var inFault: bool
    /** Every command sent to this pump so far, oldest first. */
    var calls: seq<PumpCall>

    constructor (name: string, enabled: bool, inFault: bool)
      ensures this.name == name && this.enabled == enabled && this.inFault == inFault
      ensures calls == []
    {
      this.name := name;
      this.enabled := enabled;
      this.inFault := inFault;
      calls := [];
    }

    /** Records a command that does not change the fault or enabled state. */
    method Send(c: PumpCall)
      requires !c.ClearFault? && !c.Enable?
      modifies this
      ensures calls == old(calls) + [c]
      ensures enabled == old(enabled) && inFault == old(inFault)
    {
      calls := calls + [c];
    }

    /** `clear_fault()`: the drive leaves its fault state. */
    method ClearFaultState()
      modifies this
      ensures calls == old(calls) + [ClearFault]
      ensures !inFault && enabled == old(enabled)
    {
      calls := calls + [ClearFault];
      inFault := false;
    }

    /** `enable(on)`: the drive is switched on or off. */
    method SetEnabled(on: bool)
      modifies this
      ensures calls == old(calls) + [Enable(on)]
      ensures enabled == on && inFault == old(inFault)
    {
      calls := calls + [Enable(on)];
      enabled := on;
    }
  }
}
