/**
 * `SyringeConfigurationControllerReal`: setting the syringe parameters after
 * rejecting negative values, and two observable properties that publish the
 * held reading at every tick.
 */
module SyringeConfiguration {
  import opened Common
  import opened Streams
  import Qmix

  /** The parameter identifier prefix of `SetSyringeParameters`. */
  const ParameterPrefix: string := "de.cetoni/pumps.syringepumps/SyringeConfigurationController/v1/Command/SetSyringeParameters/Parameter/"

  /** `SiLAValidationError` naming the offending parameter and its value. */
  datatype ValidationError = ValidationError(parameter: string, value: real)

  /** `check_less_than_zero`: only a strictly negative value is rejected. */
  function CheckNotNegative(value: real, name: string): (r: Result<(), ValidationError>)
    ensures r.Success? <==> value >= 0.0
    ensures r.Failure? ==> r.error.parameter == ParameterPrefix + name && r.error.value == value
  {
    if value < 0.0 then Failure(ValidationError(ParameterPrefix + name, value)) else Success(())
  }

  class SyringeConfigurationController {
    const pump: Qmix.Pump

    constructor (pump: Qmix.Pump)
      ensures this.pump == pump
    {
      this.pump := pump;
    }

    /**
     * `SetSyringeParameters`: the inner diameter is checked first, then the
     * piston stroke; both values reach `set_syringe_param` unchanged only
     * when neither is negative.
     */
    method SetSyringeParameters(innerDiameter: real, maxPistonStroke: real) returns (r: Result<(), ValidationError>)
      modifies pump
      ensures r.Success? <==> innerDiameter >= 0.0 && maxPistonStroke >= 0.0
      ensures innerDiameter < 0.0 ==> r == Failure(ValidationError(ParameterPrefix + "InnerDiameter", innerDiameter))
      ensures innerDiameter >= 0.0 && maxPistonStroke < 0.0 ==>
                r == Failure(ValidationError(ParameterPrefix + "MaxPistonStroke", maxPistonStroke))
      ensures pump.calls == old(pump.calls) + (if r.Success? then [Qmix.SetSyringeParam(innerDiameter, maxPistonStroke)] else [])
      ensures pump.enabled == old(pump.enabled) && pump.inFault == old(pump.inFault)
    {
      var check := CheckNotNegative(innerDiameter, "InnerDiameter");
      if check.Failure? {
        return Failure(check.error);
      }
      check := CheckNotNegative(maxPistonStroke, "MaxPistonStroke");
      if check.Failure? {
        return Failure(check.error);
      }
      pump.Send(Qmix.SetSyringeParam(innerDiameter, maxPistonStroke));
      r := Success(());
    }
  }

  /**
   * `Subscribe_InnerDiameter` and `Subscribe_MaxPistonStroke`: `first` is
   * read at subscription; every tick publishes the value held then, with
   * no change detection.
   */
  method SubscribeParameter(first: real, ticks: seq<Tick<real>>) returns (published: seq<real>)
    ensures published == HeldReadings(ticks, first)
  {
    var value := first;
    published := [];
    var i := 0;
    while i < |ticks|
      invariant 0 <= i <= |ticks|
      invariant published + HeldReadings(ticks[i..], value) == HeldReadings(ticks, first)
    {
      assert ticks[i..][1..] == ticks[i + 1..];
      if ticks[i].operational {
        value := ticks[i].reading;
      }
      published := published + [value];
      i := i + 1;
    }
  }

  /**
   * One value per tick; a degraded tick repeats the value published before
   * it (the subscription-time reading at the first tick), never a zero.
   */
  lemma SubscriptionRepeatsWhileDegraded(first: real, ticks: seq<Tick<real>>, k: nat)
    requires k < |ticks| && !ticks[k].operational
    ensures |HeldReadings(ticks, first)| == |ticks|
    ensures HeldReadings(ticks, first)[k] == if k == 0 then first else HeldReadings(ticks, first)[k - 1]
  {
    HeldIsLastOperationalReading(ticks, first, k);
  }
}
