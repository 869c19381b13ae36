/**
 * `PumpDriveControlServiceReal`: restoring the drive position counter from
 * the server's configuration, initialising the drive by a calibration that
 * is polled until it finishes or times out, switching the drive on and
 * off, and the two observable properties that report the drive state.
 */
module PumpDriveControl {
  import opened Common
  import Qmix

  // ---------------------------------------------------------------------
  // Decimal integers, as `int(...)` reads a configuration value

  predicate IsDigit(c: char)
  {
    '0' <= c <= '9'
  }

  predicate AllDigits(s: string)
  {
    forall i :: 0 <= i < |s| ==> IsDigit(s[i])
  }

  /** The value of a string of decimal digits, most significant first. */
  function DigitsValue(s: string): nat
    requires AllDigits(s)
    decreases |s|
  {
    if s == [] then 0 else DigitsValue(s[..|s| - 1]) * 10 + (s[|s| - 1] as int - '0' as int)
  }

  /** `int(text)` for an optional sign followed by decimal digits; anything else raises `ValueError`. */
  function ParseInt(text: string): (r: Option<int>)
    ensures r.Some? ==> text != []
  {
    if text != [] && (text[0] == '-' || text[0] == '+') then
      var body := text[1..];
      var magnitude: int := if body != [] && AllDigits(body) then DigitsValue(body) else 0;
      if body != [] && AllDigits(body) then Some(if text[0] == '-' then -magnitude else magnitude) else None
    else if text != [] && AllDigits(text) then Some(DigitsValue(text))
    else None
  }

  /** The decimal digits of `n`, without leading zeros. */
  function NatToString(n: nat): (r: string)
    decreases n
  {
    if n < 10 then [('0' as int + n) as char] else NatToString(n / 10) + [('0' as int + n % 10) as char]
  }

  /** `str(n)`: the decimal rendering that `int()` reads back. */
  function IntToString(n: int): string
  {
    if n < 0 then "-" + NatToString(-n) else NatToString(n)
  }

  lemma {:induction false} NatToStringDigits(n: nat)
    ensures NatToString(n) != [] && AllDigits(NatToString(n)) && DigitsValue(NatToString(n)) == n
    decreases n
  {
    if n >= 10 {
      NatToStringDigits(n / 10);
      var s := NatToString(n);
      assert s[..|s| - 1] == NatToString(n / 10);
    }
  }

  /** Reading back a written counter gives the counter. */
  lemma IntToStringRoundTrip(n: int)
    ensures ParseInt(IntToString(n)) == Some(n)
  {
    var s := IntToString(n);
    if n < 0 {
      var digits := NatToString(-n);
      NatToStringDigits(-n);
      assert s == "-" + digits;
      assert s[0] == '-' && s[1..] == digits;
      assert ParseInt(s) == Some(-(DigitsValue(digits) as int));
    } else {
      NatToStringDigits(n);
      assert IsDigit(s[0]);
      assert ParseInt(s) == Some(DigitsValue(s));
    }
  }

  // ---------------------------------------------------------------------
  // Restoring the position counter

  /** The configuration section option that holds a pump's last drive position counter. */
  const CounterOption: string := "drive_pos_counter"

  /**
   * What `_restore_last_drive_position_counter` ends with: the counter it
   * restored, or none stored. Indexing a `ConfigParser` with a missing
   * section and indexing a section with a missing option both raise
   * `KeyError`, so both end in the same logged skip.
   */
  datatype RestoreOutcome = Restored(counter: int) | NotStored

  /** `int(...)` raised `ValueError`; nothing catches it. */
  datatype RestoreError = InvalidCounter(text: string)

  /** The configuration as `ConfigParser` holds it: sections of options. */
  type Config = map<string, map<string, string>>

  /** `sila2_conf[pump_name]["drive_pos_counter"]`, decoded. */
  function RestoreOutcomeOf(config: Config, section: string): Result<RestoreOutcome, RestoreError>
  {
    if section !in config || CounterOption !in config[section] then Success(NotStored)
    else match ParseInt(config[section][CounterOption])
      case Some(counter) => Success(Restored(counter))
      case None => Failure(InvalidCounter(config[section][CounterOption]))
  }

  // ---------------------------------------------------------------------
  // Calibration

  /** The milliseconds `_wait_calibration_finished` sleeps before each poll. */
  const PollPeriodMs: int := 100

  /** The wall-clock time one poll takes: the 100 ms sleep and then the call itself. */
  type PollDurationMs = x: int | PollPeriodMs <= x witness PollPeriodMs

  /**
   * One poll: what `is_calibration_finished()` answers (`None` when it
   * raises `DeviceError`), and how long the sleep and the call took.
   */
  datatype CalibrationStep = CalibrationStep(answer: Option<bool>, elapsedMs: PollDurationMs)

  /** The polls in order. */
  type CalibrationPoll = nat -> CalibrationStep

  /** The wall-clock time from starting the timer to the start of poll `k`; at least 100 ms per poll before it. */
  function PollClock(poll: CalibrationPoll, k: nat): (r: nat)
    ensures r >= PollPeriodMs * k
  {
    if k == 0 then 0 else PollClock(poll, k - 1) + poll(k - 1).elapsedMs
  }

  /**
   * Reference outcome of polling from poll `k` on: the loop polls while its
   * timer (`periodMs` of wall-clock time from the start) has not expired,
   * stops at the first "finished" answer, and lets a `DeviceError` escape.
   */
  function CalibrationWait(periodMs: int, poll: CalibrationPoll, k: nat): Option<bool>
    decreases periodMs - PollClock(poll, k)
  {
    if PollClock(poll, k) >= periodMs then Some(false)
    else match poll(k).answer
      case None => None
      case Some(true) => Some(true)
      case Some(false) => CalibrationWait(periodMs, poll, k + 1)
  }

  /** Poll `k` is the first "finished" answer, it started before the timer expired, and no poll before it raised. */
  predicate FinishedAt(periodMs: int, poll: CalibrationPoll, k: nat)
  {
    PollClock(poll, k) < periodMs && poll(k).answer == Some(true) && forall j :: 0 <= j < k ==> poll(j).answer == Some(false)
  }

  /** Waiting succeeds with `True` exactly when some poll answered "finished" in time, before any error. */
  lemma {:induction false} CalibrationWaitFinds(periodMs: int, poll: CalibrationPoll, k: nat)
    requires forall j :: 0 <= j < k ==> poll(j).answer == Some(false)
    ensures CalibrationWait(periodMs, poll, k) == Some(true) <==> exists n :: n >= k && FinishedAt(periodMs, poll, n)
    decreases periodMs - PollClock(poll, k)
  {
    if PollClock(poll, k) >= periodMs {
      forall n | n >= k
        ensures !FinishedAt(periodMs, poll, n)
      {
        PollClockMonotone(poll, k, n);
      }
    } else if poll(k).answer == Some(true) {
      assert FinishedAt(periodMs, poll, k);
    } else if poll(k).answer == Some(false) {
      CalibrationWaitFinds(periodMs, poll, k + 1);
      if exists n :: n >= k && FinishedAt(periodMs, poll, n) {
        var n :| n >= k && FinishedAt(periodMs, poll, n);
        assert n != k;
      }
    } else {
      forall n | n >= k
        ensures !FinishedAt(periodMs, poll, n)
      {
        if n > k {
          assert poll(k).answer != Some(false);
        }
      }
    }
  }

  /** The clock never runs backwards: a later poll starts no earlier. */
  lemma {:induction false} PollClockMonotone(poll: CalibrationPoll, k: nat, n: nat)
    requires k <= n
    ensures PollClock(poll, k) <= PollClock(poll, n)
    decreases n - k
  {
    if k < n {
      PollClockMonotone(poll, k, n - 1);
    }
  }

  /**
   * However long the calls take, a "finished" answer counts only within the
   * first ⌈period / 100⌉ polls; when every poll takes the same time, the
   * timer runs out at the first poll that starts at or after the period.
   */
  lemma CalibrationPollsBounded(periodMs: int, poll: CalibrationPoll, n: nat, d: PollDurationMs)
    ensures FinishedAt(periodMs, poll, n) ==> PollPeriodMs * n < periodMs
    ensures (forall j :: 0 <= j < n ==> poll(j).elapsedMs == d) ==> PollClock(poll, n) == d * n
  {
    if forall j :: 0 <= j < n ==> poll(j).elapsedMs == d {
      SteadyPollClock(poll, n, d);
    }
  }

  /** With every poll before `n` taking `d` ms, poll `n` starts at `d * n`. */
  lemma {:induction false} SteadyPollClock(poll: CalibrationPoll, n: nat, d: PollDurationMs)
    requires forall j :: 0 <= j < n ==> poll(j).elapsedMs == d
    ensures PollClock(poll, n) == d * n
  {
    if n > 0 {
      SteadyPollClock(poll, n - 1, d);
    }
  }

  /** The calibration timeout of `InitializePumpDrive`, 60 s. */
  const CalibrationTimeoutSec: int := 60

  /** Why `InitializePumpDrive` raised `InitializationFailedError`. */
  datatype InitCause = SdkError | LastError(code: int)

  datatype DriveError = InitializationFailed(cause: InitCause)

  /** `'Enabled' if is_operational() and is_enabled() else 'Disabled'` */
  function DriveStateLabel(operational: bool, enabled: bool): (r: string)
    ensures r == "Enabled" <==> operational && enabled
    ensures r == "Enabled" || r == "Disabled"
  {
    if operational && enabled then "Enabled" else "Disabled"
  }

  class PumpDriveControlService {
    const pump: Qmix.Pump

    constructor (pump: Qmix.Pump)
      ensures this.pump == pump
    {
      this.pump := pump;
    }

    /**
     * `_restore_last_drive_position_counter`: a stored counter goes to
     * `restore_position_counter_value`; a missing section or option
     * raises `KeyError`, which is logged, and the service starts without one.
     */
    method RestoreLastDrivePositionCounter(config: Config) returns (r: Result<RestoreOutcome, RestoreError>)
      modifies pump
      ensures r == RestoreOutcomeOf(config, pump.name)
      ensures pump.calls == old(pump.calls) + (if r.Success? && r.value.Restored? then [Qmix.RestorePositionCounterValue(r.value.counter)] else [])
      ensures pump.enabled == old(pump.enabled) && pump.inFault == old(pump.inFault)
    {
      var pumpName := pump.name;
      if pumpName !in config {
        return Success(NotStored);
      }
      var section := config[pumpName];
      if CounterOption !in section {
        return Success(NotStored);
      }
      var parsed := ParseInt(section[CounterOption]);
      if parsed.None? {
        return Failure(InvalidCounter(section[CounterOption]));
      }
      pump.Send(Qmix.RestorePositionCounterValue(parsed.value));
      r := Success(Restored(parsed.value));
    }

    /** `_wait_calibration_finished(timeout_sec)`; `None` when a poll raised `DeviceError`. */
    method WaitCalibrationFinished(timeoutSec: int, poll: CalibrationPoll) returns (r: Option<bool>)
      ensures r == CalibrationWait(timeoutSec * 1000, poll, 0)
    {
      var periodMs := timeoutSec * 1000;
      var elapsed := 0;
      var result := false;
      var k: nat := 0;
      while !(result || elapsed >= periodMs)
        invariant elapsed == PollClock(poll, k)
        invariant result ==> CalibrationWait(periodMs, poll, 0) == Some(true)
        invariant !result ==> CalibrationWait(periodMs, poll, k) == CalibrationWait(periodMs, poll, 0)
        decreases periodMs - elapsed, if result then 0 else 1
      {
        elapsed := elapsed + poll(k).elapsedMs;
        var answer := poll(k).answer;
        if answer.None? {
          return None;
        }
        result := answer.value;
        k := k + 1;
      }
      r := Some(result);
    }

    /**
     * `InitializePumpDrive`: calibrate, wait up to 60 s, and fail when the
     * wait raised or when calibration did not finish and the last error
     * code is not 0; an unfinished calibration with error code 0 succeeds.
     */
    method InitializePumpDrive(poll: CalibrationPoll, lastErrorCode: int) returns (r: Result<(), DriveError>)
      modifies pump
      ensures var waited := CalibrationWait(CalibrationTimeoutSec * 1000, poll, 0);
              && (waited.None? ==> r == Failure(InitializationFailed(SdkError)))
              && (waited == Some(false) && lastErrorCode != 0 ==> r == Failure(InitializationFailed(LastError(lastErrorCode))))
              && (r.Success? <==> waited == Some(true) || (waited == Some(false) && lastErrorCode == 0))
      ensures pump.calls == old(pump.calls) + [Qmix.Calibrate]
      ensures pump.enabled == old(pump.enabled) && pump.inFault == old(pump.inFault)
    {
      pump.Send(Qmix.Calibrate);
      var finished := WaitCalibrationFinished(CalibrationTimeoutSec, poll);
      if finished.None? {
        return Failure(InitializationFailed(SdkError));
      }
      if !finished.value && lastErrorCode != 0 {
        return Failure(InitializationFailed(LastError(lastErrorCode)));
      }
      r := Success(());
    }

    /** `EnablePumpDrive`: clear a fault first, if there is one, then enable. */
    method EnablePumpDrive()
      modifies pump
      ensures pump.calls == old(pump.calls) + (if old(pump.inFault) then [Qmix.ClearFault] else []) + [Qmix.Enable(true)]
      ensures pump.enabled && !pump.inFault
    {
      if pump.inFault {
        pump.ClearFaultState();
      }
      pump.SetEnabled(true);
    }

    /** `DisablePumpDrive`: only `enable(False)`. */
    method DisablePumpDrive()
      modifies pump
      ensures pump.calls == old(pump.calls) + [Qmix.Enable(false)]
      ensures !pump.enabled && pump.inFault == old(pump.inFault)
    {
      pump.SetEnabled(false);
    }
  }

  /** `Subscribe_PumpDriveState`: each tick's reading is `is_enabled()`; one label per tick. */
  method SubscribePumpDriveState(ticks: seq<Tick<bool>>) returns (published: seq<string>)
    ensures |published| == |ticks|
    ensures forall k :: 0 <= k < |ticks| ==> published[k] == DriveStateLabel(ticks[k].operational, ticks[k].reading)
    ensures forall k :: 0 <= k < |ticks| ==> (published[k] == "Enabled" <==> ticks[k].operational && ticks[k].reading)
  {
    published := [];
    var i := 0;
    while i < |ticks|
      invariant 0 <= i <= |ticks| && |published| == i
      invariant forall k :: 0 <= k < i ==> published[k] == DriveStateLabel(ticks[k].operational, ticks[k].reading)
    {
      published := published + [DriveStateLabel(ticks[i].operational, ticks[i].reading)];
      i := i + 1;
    }
  }

  /** `Subscribe_FaultState`: each tick's reading is `is_in_fault_state()`, reported whatever the system state. */
  method SubscribeFaultState(ticks: seq<Tick<bool>>) returns (published: seq<bool>)
    ensures |published| == |ticks|
    ensures forall k :: 0 <= k < |ticks| ==> published[k] == ticks[k].reading
  {
    published := [];
    var i := 0;
    while i < |ticks|
      invariant 0 <= i <= |ticks| && |published| == i
      invariant forall k :: 0 <= k < i ==> published[k] == ticks[k].reading
    {
      published := published + [ticks[i].reading];
      i := i + 1;
    }
  }
}
