/**
 * `ForceMonitoringServiceReal`: four commands that forward to the pump only
 * while the system is operational, and five observable properties, each a
 * polling loop that publishes a reading only when it differs from the last
 * one published.
 */
module ForceMonitoring {
  import opened Common
  import opened Tolerance
  import opened Streams
  import Qmix

  /** The fully qualified command identifier prefix of this feature. */
  const CommandPrefix: string := "de.cetoni/pumps.syringepumps/ForceMonitoringService/v1/Command/"

  /** `__fully_qualified_command_id` */
  function CommandId(command: string): (r: string)
    ensures |r| == |CommandPrefix| + |command|
    ensures r[..|CommandPrefix|] == CommandPrefix && r[|CommandPrefix|..] == command
  {
    CommandPrefix + command
  }

  datatype ForceError = SystemNotOperational(commandId: string)

  /** Whether a command may reach the pump: only on an operational system. */
  function Guard(operational: bool, command: string): (r: Result<(), ForceError>)
    ensures r.Success? <==> operational
    ensures r.Failure? ==> |r.error.commandId| >= |CommandPrefix|
                           && r.error.commandId[..|CommandPrefix|] == CommandPrefix
                           && r.error.commandId[|CommandPrefix|..] == command
  {
    if operational then Success(()) else Failure(SystemNotOperational(CommandId(command)))
  }

  /** The relative tolerance of the force sensor stream: three decimal places. */
  const ForceSensorRelTol: real := 0.001

  class ForceMonitoringService {
    const pump: Qmix.Pump

    constructor (pump: Qmix.Pump)
      ensures this.pump == pump
    {
      this.pump := pump;
    }

    /** `ClearForceSafetyStop`: `clear_force_safety_stop()` once operational. */
    method ClearForceSafetyStop(operational: bool) returns (r: Result<(), ForceError>)
      modifies pump
      ensures r == Guard(operational, "ClearForceSafetyStop")
      ensures pump.calls == old(pump.calls) + (if operational then [Qmix.ClearForceSafetyStop] else [])
      ensures pump.enabled == old(pump.enabled) && pump.inFault == old(pump.inFault)
    {
      if !operational {
        return Failure(SystemNotOperational(CommandId("ClearForceSafetyStop")));
      }
      pump.Send(Qmix.ClearForceSafetyStop);
      r := Success(());
    }

    /** `EnableForceMonitoring`: `enable_force_monitoring(True)` once operational. */
    method EnableForceMonitoring(operational: bool) returns (r: Result<(), ForceError>)
      modifies pump
      ensures r == Guard(operational, "EnableForceMonitoring")
      ensures pump.calls == old(pump.calls) + (if operational then [Qmix.EnableForceMonitoring(true)] else [])
      ensures pump.enabled == old(pump.enabled) && pump.inFault == old(pump.inFault)
    {
      if !operational {
        return Failure(SystemNotOperational(CommandId("EnableForceMonitoring")));
      }
      pump.Send(Qmix.EnableForceMonitoring(true));
      r := Success(());
    }

    /** `DisableForceMonitoring`: `enable_force_monitoring(False)` once operational. */
    method DisableForceMonitoring(operational: bool) returns (r: Result<(), ForceError>)
      modifies pump
      ensures r == Guard(operational, "DisableForceMonitoring")
      ensures pump.calls == old(pump.calls) + (if operational then [Qmix.EnableForceMonitoring(false)] else [])
      ensures pump.enabled == old(pump.enabled) && pump.inFault == old(pump.inFault)
    {
      if !operational {
        return Failure(SystemNotOperational(CommandId("DisableForceMonitoring")));
      }
      pump.Send(Qmix.EnableForceMonitoring(false));
      r := Success(());
    }

    /** `SetForceLimit`: the requested limit goes to `write_force_limit` unchanged. */
    method SetForceLimit(operational: bool, forceLimit: real) returns (r: Result<(), ForceError>)
      modifies pump
      ensures r == Guard(operational, "SetForceLimit")
      ensures pump.calls == old(pump.calls) + (if operational then [Qmix.WriteForceLimit(forceLimit)] else [])
      ensures pump.enabled == old(pump.enabled) && pump.inFault == old(pump.inFault)
    {
      if !operational {
        return Failure(SystemNotOperational(CommandId("SetForceLimit")));
      }
      pump.Send(Qmix.WriteForceLimit(forceLimit));
      r := Success(());
    }
  }

  /**
   * `Subscribe_ForceSensorValue` (with `relTol` 1e-3) and `Subscribe_ForceLimit`,
   * `Subscribe_MaxDeviceForce` (with the default tolerance): `first` is the
   * value read at subscription, `first + 1` the sentinel reference, and
   * `ticks` what the loop sees while the context stays active.
   */
  method SubscribeReal(first: real, ticks: seq<Tick<real>>, relTol: real) returns (published: seq<real>)
    ensures published == RealChanges(ticks, Watch(first, first + 1.0), relTol)
  {
    ghost var whole := RealChanges(ticks, Watch(first, first + 1.0), relTol);
    var current := first;
    var last := first + 1.0;
    published := [];
    var i := 0;
    assert ticks[0..] == ticks;
    while i < |ticks|
      invariant RealResumes(ticks, i, Watch(current, last), relTol, whole, published)
    {
      RealResumesStep(ticks, i, Watch(current, last), relTol, whole, published);
      if ticks[i].operational {
        current := ticks[i].reading;
      }
      if !IsClose(current, last, relTol) {
        last := current;
        published := published + [last];
      }
      i := i + 1;
    }
    RealResumesEnd(ticks, Watch(current, last), relTol, whole, published);
  }

  /**
   * `Subscribe_ForceMonitoringEnabled` and `Subscribe_ForceSafetyStopActive`:
   * the sentinel reference is the negation of the value read at subscription.
   */
  method SubscribeBool(first: bool, ticks: seq<Tick<bool>>) returns (published: seq<bool>)
    ensures published == BoolChanges(ticks, Watch(first, !first))
    ensures published == Dedup(HeldReadings(ticks, first), !first)
  {
    ghost var whole := BoolChanges(ticks, Watch(first, !first));
    var current := first;
    var last := !first;
    published := [];
    var i := 0;
    assert ticks[0..] == ticks;
    while i < |ticks|
      invariant BoolResumes(ticks, i, Watch(current, last), whole, published)
    {
      BoolResumesStep(ticks, i, Watch(current, last), whole, published);
      if ticks[i].operational {
        current := ticks[i].reading;
      }
      if current != last {
        last := current;
        published := published + [last];
      }
      i := i + 1;
    }
    BoolResumesEnd(ticks, Watch(current, last), whole, published);
    BoolChangesIsDedup(ticks, first, !first);
  }

  /**
   * The sentinel `reading + 1` makes the first tick publish only when 1
   * exceeds the tolerance band: for a non-negative force reading that
   * still holds at the first tick, exactly when it is below 999.
   */
  lemma FirstForcePublished(x: real, t: Tick<real>, rest: seq<Tick<real>>)
    requires x >= 0.0 && Hold(x, t) == x
    ensures x < 999.0 ==> var out := RealChanges([t] + rest, Watch(x, x + 1.0), ForceSensorRelTol);
                          out != [] && out[0] == x
    ensures x >= 999.0 ==> RealChanges([t] + rest, Watch(x, x + 1.0), ForceSensorRelTol)
                           == RealChanges(rest, Watch(x, x + 1.0), ForceSensorRelTol)
  {
    assert ([t] + rest)[0] == t && ([t] + rest)[1..] == rest;
    OneApartIsDistinct(x);
  }

  /** A force that stays at 999 or above from subscription on is never published at all. */
  lemma {:induction false} SteadyLargeForceNeverPublished(x: real, ticks: seq<Tick<real>>)
    requires x >= 999.0
    requires forall k :: 0 <= k < |ticks| ==> ticks[k].reading == x
    ensures RealChanges(ticks, Watch(x, x + 1.0), ForceSensorRelTol) == []
    decreases |ticks|
  {
    if ticks != [] {
      OneApartIsDistinct(x);
      assert !RealEmits(Watch(x, x + 1.0), ticks[0], ForceSensorRelTol);
      SteadyLargeForceNeverPublished(x, ticks[1..]);
    }
  }

  /** With a reading of 1000 N held through three ticks, the subscriber receives nothing. */
  lemma ForceOf1000NeverPublished()
    ensures RealChanges([Tick(true, 1000.0), Tick(false, 0.0), Tick(true, 1000.0)], Watch(1000.0, 1001.0), ForceSensorRelTol) == []
  {
    var ticks := [Tick(true, 1000.0), Tick(false, 0.0), Tick(true, 1000.0)];
    var held := [Tick(true, 1000.0), Tick(false, 1000.0), Tick(true, 1000.0)];
    SteadyLargeForceNeverPublished(1000.0, held);
    assert RealChanges(ticks, Watch(1000.0, 1001.0), ForceSensorRelTol) == RealChanges(held, Watch(1000.0, 1001.0), ForceSensorRelTol);
  }
}
