/**
 * `PumpFluidDosingServiceImpl`: dosing commands that start the pump and
 * then track the dosage on the observable command instance until the pump
 * stops or an estimated duration runs out, and four property updaters that
 * publish the pump's flow and fill level when they change.
 */
module FluidDosing {
  import opened Common
  import opened Tolerance
  import Qmix

  // ---------------------------------------------------------------------
  // The observable command instance

  /** `CommandExecutionStatus` */
  datatype Status = Waiting | Running | FinishedSuccessfully | FinishedWithError

  /**
   * One group of assignments to the instance: its status, its progress and,
   * when the group writes it, the estimated remaining time in milliseconds.
   */
  datatype InstanceUpdate = InstanceUpdate(status: Status, progress: real, remaining: Option<int>)

  /** An `ObservableCommandInstance`: its current fields and every update it published. */
  class CommandInstance {
    var status: Status
    var progress: real
    var remaining: Option<int>
    var updates: seq<InstanceUpdate>

    constructor ()
      ensures status == Waiting && progress == 0.0 && remaining == None && updates == []
    {
      status := Waiting;
      progress := 0.0;
      remaining := None;
      updates := [];
    }

    method Apply(u: InstanceUpdate)
      modifies this
      ensures updates == old(updates) + [u]
      ensures status == u.status && progress == u.progress
      ensures remaining == if u.remaining.Some? then u.remaining else old(remaining)
    {
      updates := updates + [u];
      status := u.status;
      progress := u.progress;
      if u.remaining.Some? {
        remaining := u.remaining;
      }
    }
  }

  // ---------------------------------------------------------------------
  // Tracking a dosage: `_wait_dosage_finished`

  /**
   * What the pump answers as the tracking starts: whether it is pumping,
   * its target volume, and its flow in units per second, read once and,
   * if that read is 0, once more half a second later (`retriedFlow`).
   */
  datatype DosageStart = DosageStart(pumping: bool, targetVolume: real, flow: real, retriedFlow: real)

  /** The wall-clock time one loop iteration takes, in milliseconds: never none at all. */
  type IterationMs = x: int | 1 <= x witness 1

  /**
   * What the pump answers during a loop iteration (the dosed volume and
   * whether it is still pumping) and how long the iteration took.
   */
  datatype DosageSample = DosageSample(dosedVolume: real, pumping: bool, elapsedMs: IterationMs)

  /** The pump's fault and enabled state when the loop has ended. */
  datatype DosageEnd = DosageEnd(inFault: bool, enabled: bool)

  /** The two divisions the source does not guard: by a zero flow, and by a zero target volume. */
  datatype DosingError = ZeroDivision

  /** `POLLING_TIMEOUT`: what each iteration takes off the remaining time, in milliseconds. */
  const PollMs: int := 100
  /** The progress message period (`message_timer`), in milliseconds. */
  const MessagePeriodMs: int := 500
  /** One day, in milliseconds. */
  const DayMs: int := 86400000

  /** `target_volume / flow_in_sec + 2` seconds, in whole milliseconds. */
  function EstimateMs(targetVolume: real, flow: real): int
    requires flow != 0.0
  {
    ((targetVolume / flow + 2.0) * 1000.0).Floor
  }

  /**
   * `dosing_time.seconds * 1000`, the duration timer's period: a `timedelta`
   * keeps whole days apart, so `.seconds` is the estimate's whole seconds
   * within its day, and a negative estimate wraps round to the day before.
   */
  function TimerPeriodMs(estimateMs: int): (r: int)
    ensures 0 <= r < DayMs && r % 1000 == 0
    ensures 0 <= estimateMs < DayMs ==> r <= estimateMs < r + 1000
    ensures -DayMs <= estimateMs < 0 ==> r <= estimateMs + DayMs < r + 1000
  {
    ((estimateMs / 1000) % 86400) * 1000
  }

  /** The flow the estimate is based on: the retried read replaces a first read of 0. */
  function EffectiveFlow(start: DosageStart): real
  {
    if start.flow == 0.0 then start.retriedFlow else start.flow
  }

  /**
   * The loop's outcome from iteration `n` on: the progress updates it
   * published, whether the pump was still pumping when it ended, the
   * iteration it ended at, and whether it ended normally (rather than by
   * dividing the dosed volume by a zero target).
   */
  datatype LoopOutcome = LoopOutcome(updates: seq<InstanceUpdate>, pumping: bool, polls: nat, completed: bool)

  /** The wall-clock time from the start of the loop to the start of iteration `n`. */
  function Elapsed(samples: nat -> DosageSample, n: nat): nat
  {
    if n == 0 then 0 else Elapsed(samples, n - 1) + samples(n - 1).elapsedMs
  }

  /** Whether an iteration starting at `clock` runs: the pump was pumping and the duration timer had not expired. */
  predicate LoopRuns(periodMs: int, clock: int, pumping: bool)
  {
    pumping && clock < periodMs
  }

  /** Whether the message timer, last restarted at `restart`, has expired when iteration `n` checks it. */
  predicate MessageDue(samples: nat -> DosageSample, n: nat, restart: int)
  {
    Elapsed(samples, n) - restart >= MessagePeriodMs
  }

  /** The message published at iteration `n`, if the message timer has expired then. */
  function ProgressUpdate(estimateMs: int, targetVolume: real, sample: DosageSample, n: nat): InstanceUpdate
    requires targetVolume != 0.0
  {
    InstanceUpdate(Running, sample.dosedVolume / targetVolume, Some(estimateMs - PollMs * (n + 1)))
  }

  /**
   * Reference definition of the tracking loop from iteration `n` on, with
   * the message timer last restarted at `restart`: both timers follow the
   * wall clock, the remaining time drops by 100 ms per iteration.
   */
  function DosageLoop(periodMs: int, estimateMs: int, targetVolume: real, samples: nat -> DosageSample,
                      n: nat, pumping: bool, restart: int): LoopOutcome
    decreases periodMs - Elapsed(samples, n)
  {
    if !LoopRuns(periodMs, Elapsed(samples, n), pumping) then LoopOutcome([], pumping, n, true)
    else if MessageDue(samples, n, restart) then
      if targetVolume == 0.0 then LoopOutcome([], pumping, n, false)
      else
        var rest := DosageLoop(periodMs, estimateMs, targetVolume, samples, n + 1, samples(n).pumping, Elapsed(samples, n));
        rest.(updates := [ProgressUpdate(estimateMs, targetVolume, samples(n), n)] + rest.updates)
    else DosageLoop(periodMs, estimateMs, targetVolume, samples, n + 1, samples(n).pumping, restart)
  }

  /** The closing update: success exactly when the pump stopped, is not in fault and is still enabled. */
  function FinalUpdate(stopped: bool, end: DosageEnd): InstanceUpdate
  {
    InstanceUpdate(if stopped && !end.inFault && end.enabled then FinishedSuccessfully else FinishedWithError, 1.0, Some(0))
  }

  /** Everything `_wait_dosage_finished` publishes, and whether it returns or raises. */
  datatype DosageOutcome = DosageOutcome(updates: seq<InstanceUpdate>, result: Result<(), DosingError>)

  /** Reference definition of `_wait_dosage_finished`. */
  function Dosage(start: DosageStart, samples: nat -> DosageSample, end: DosageEnd): DosageOutcome
  {
    var early := if !start.pumping then [InstanceUpdate(FinishedSuccessfully, 1.0, None)] else [];
    var flow := EffectiveFlow(start);
    if flow == 0.0 then DosageOutcome(early + [InstanceUpdate(FinishedWithError, 1.0, None)], Failure(ZeroDivision))
    else
      var estimate := EstimateMs(start.targetVolume, flow);
      var opening := early + [InstanceUpdate(Running, 0.0, Some(estimate))];
      var loop := DosageLoop(TimerPeriodMs(estimate), estimate, start.targetVolume, samples, 0, true, 0);
      if !loop.completed then DosageOutcome(opening + loop.updates, Failure(ZeroDivision))
      else DosageOutcome(opening + loop.updates + [FinalUpdate(!loop.pumping, end)], Success(()))
  }

  /** After `published`, the loop from iteration 0 goes on as the loop from iteration `n`. */
  ghost predicate LoopResumes(periodMs: int, estimateMs: int, targetVolume: real, samples: nat -> DosageSample,
                              n: nat, pumping: bool, restart: int, published: seq<InstanceUpdate>)
  {
    var rest := DosageLoop(periodMs, estimateMs, targetVolume, samples, n, pumping, restart);
    DosageLoop(periodMs, estimateMs, targetVolume, samples, 0, true, 0) == rest.(updates := published + rest.updates)
  }

  /** One iteration moves a resumed loop on, publishing a message when the message timer has expired. */
  lemma LoopResumesStep(periodMs: int, estimateMs: int, targetVolume: real, samples: nat -> DosageSample,
                        n: nat, pumping: bool, restart: int, published: seq<InstanceUpdate>)
    requires LoopRuns(periodMs, Elapsed(samples, n), pumping)
    requires LoopResumes(periodMs, estimateMs, targetVolume, samples, n, pumping, restart, published)
    ensures MessageDue(samples, n, restart) && targetVolume == 0.0 ==>
              DosageLoop(periodMs, estimateMs, targetVolume, samples, 0, true, 0) == LoopOutcome(published, pumping, n, false)
    ensures MessageDue(samples, n, restart) && targetVolume != 0.0 ==>
              LoopResumes(periodMs, estimateMs, targetVolume, samples, n + 1, samples(n).pumping, Elapsed(samples, n),
                          published + [ProgressUpdate(estimateMs, targetVolume, samples(n), n)])
    ensures !MessageDue(samples, n, restart) ==>
              LoopResumes(periodMs, estimateMs, targetVolume, samples, n + 1, samples(n).pumping, restart, published)
  {
  }

  /** The updates a single iteration published. */
  function MessageSeq(message: Option<InstanceUpdate>): seq<InstanceUpdate>
  {
    if message.Some? then [message.value] else []
  }

  /**
   * One iteration of the loop, starting at `clock`: the countdown of the
   * remaining time, the message when the message timer has expired (or the
   * division by a zero target), and the time the iteration takes.
   */
  method Poll(instance: CommandInstance, periodMs: int, estimateMs: int, targetVolume: real, samples: nat -> DosageSample,
              n: nat, pumping: bool, restart: int, published: seq<InstanceUpdate>, dosingTime: int, clock: int)
    returns (dosingTime': int, clock': int, restart': int, message: Option<InstanceUpdate>, aborted: bool)
    requires clock == Elapsed(samples, n) && LoopRuns(periodMs, clock, pumping)
    requires LoopResumes(periodMs, estimateMs, targetVolume, samples, n, pumping, restart, published)
    requires dosingTime == estimateMs - PollMs * n
    modifies instance
    ensures instance.updates == old(instance.updates) + MessageSeq(message)
    ensures aborted ==> message == None
                        && DosageLoop(periodMs, estimateMs, targetVolume, samples, 0, true, 0) == LoopOutcome(published, pumping, n, false)
    ensures !aborted ==> && LoopResumes(periodMs, estimateMs, targetVolume, samples, n + 1, samples(n).pumping, restart',
                                        published + MessageSeq(message))
                         && dosingTime' == estimateMs - PollMs * (n + 1)
                         && clock' == clock + samples(n).elapsedMs == Elapsed(samples, n + 1)
  {
    LoopResumesStep(periodMs, estimateMs, targetVolume, samples, n, pumping, restart, published);
    dosingTime' := dosingTime - PollMs;
    restart' := restart;
    message := None;
    aborted := false;
    if clock - restart >= MessagePeriodMs {
      if targetVolume == 0.0 {
        return dosingTime', clock, restart, None, true;
      }
      var u := InstanceUpdate(Running, samples(n).dosedVolume / targetVolume, Some(dosingTime'));
      instance.Apply(u);
      message := Some(u);
      restart' := clock;
    }
    clock' := clock + samples(n).elapsedMs;
  }

  /**
   * The loop, as the source runs it: `samples(n)` is what the pump answers
   * in iteration `n` and how long that iteration takes; `clock` and
   * `restart` give the two timers.
   */
  method TrackDosage(instance: CommandInstance, periodMs: int, estimateMs: int, targetVolume: real,
                     samples: nat -> DosageSample) returns (outcome: LoopOutcome)
    modifies instance
    ensures outcome == DosageLoop(periodMs, estimateMs, targetVolume, samples, 0, true, 0)
    ensures instance.updates == old(instance.updates) + outcome.updates
  {
    var dosingTime := estimateMs;
    var clock := 0;
    var restart := 0;
    var isPumping := true;
    var n: nat := 0;
    var published: seq<InstanceUpdate> := [];
    while isPumping && clock < periodMs
      invariant clock == Elapsed(samples, n) && dosingTime == estimateMs - PollMs * n
      invariant instance.updates == old(instance.updates) + published
      invariant LoopResumes(periodMs, estimateMs, targetVolume, samples, n, isPumping, restart, published)
      decreases periodMs - clock
    {
      var message, aborted;
      dosingTime, clock, restart, message, aborted :=
        Poll(instance, periodMs, estimateMs, targetVolume, samples, n, isPumping, restart, published, dosingTime, clock);
      if aborted {
        return LoopOutcome(published, isPumping, n, false);
      }
      published := published + MessageSeq(message);
      isPumping := samples(n).pumping;
      n := n + 1;
    }
    outcome := LoopOutcome(published, isPumping, n, true);
  }

  /**
   * `_wait_dosage_finished`, as the source runs it, over the answers the
   * pump gives: it publishes exactly the updates of `Dosage` on the
   * instance and returns or raises as `Dosage` says.
   */
  method WaitDosageFinished(instance: CommandInstance, start: DosageStart, samples: nat -> DosageSample,
                            end: DosageEnd) returns (r: Result<(), DosingError>)
    modifies instance
    ensures instance.updates == old(instance.updates) + Dosage(start, samples, end).updates
    ensures r == Dosage(start, samples, end).result
  {
    if !start.pumping {
      instance.Apply(InstanceUpdate(FinishedSuccessfully, 1.0, None));
    }
    var flow := start.flow;
    if flow == 0.0 {
      flow := start.retriedFlow;
    }
    if flow == 0.0 {
      instance.Apply(InstanceUpdate(FinishedWithError, 1.0, None));
      return Failure(ZeroDivision);
    }
    var estimate := EstimateMs(start.targetVolume, flow);
    instance.Apply(InstanceUpdate(Running, 0.0, Some(estimate)));
    var loop := TrackDosage(instance, TimerPeriodMs(estimate), estimate, start.targetVolume, samples);
    if !loop.completed {
      return Failure(ZeroDivision);
    }
    instance.Apply(FinalUpdate(!loop.pumping, end));
    r := Success(());
  }

  /**
   * The loop runs exactly while the pump pumps and the duration timer has
   * not expired: every iteration up to `polls` ran, and, if the loop
   * completed, iteration `polls` did not.
   */
  lemma {:induction false} LoopEndsWhenStoppedOrExpired(periodMs: int, estimateMs: int, targetVolume: real,
                                                        samples: nat -> DosageSample, n: nat, pumping: bool, restart: int)
    ensures var o := DosageLoop(periodMs, estimateMs, targetVolume, samples, n, pumping, restart);
            && n <= o.polls
            && o.pumping == (if o.polls == n then pumping else samples(o.polls - 1).pumping)
            && (n < o.polls ==> LoopRuns(periodMs, Elapsed(samples, n), pumping))
            && (forall m :: n <= m && m + 1 < o.polls ==> LoopRuns(periodMs, Elapsed(samples, m + 1), samples(m).pumping))
            && (o.completed <==> !LoopRuns(periodMs, Elapsed(samples, o.polls), o.pumping))
            && (!o.completed ==> targetVolume == 0.0)
    decreases periodMs - Elapsed(samples, n)
  {
    if LoopRuns(periodMs, Elapsed(samples, n), pumping) && !(MessageDue(samples, n, restart) && targetVolume == 0.0) {
      var restart' := if MessageDue(samples, n, restart) then Elapsed(samples, n) else restart;
      LoopEndsWhenStoppedOrExpired(periodMs, estimateMs, targetVolume, samples, n + 1, samples(n).pumping, restart');
    }
  }

  /**
   * Every message the loop publishes reports the dosed volume as a fraction
   * of the target, and the remaining time counted down by 100 ms per
   * iteration, whatever the iterations took; the `k`-th one comes at an
   * iteration that starts at least `k + 1` message periods after `restart`.
   */
  lemma {:induction false} ProgressMessages(periodMs: int, estimateMs: int, targetVolume: real,
                                            samples: nat -> DosageSample, n: nat, pumping: bool, restart: int, k: nat)
    requires k < |DosageLoop(periodMs, estimateMs, targetVolume, samples, n, pumping, restart).updates|
    ensures targetVolume != 0.0
    ensures exists m: nat :: && n <= m
                             && DosageLoop(periodMs, estimateMs, targetVolume, samples, n, pumping, restart).updates[k]
                                == ProgressUpdate(estimateMs, targetVolume, samples(m), m)
                             && Elapsed(samples, m) - restart >= MessagePeriodMs * (k + 1)
    decreases periodMs - Elapsed(samples, n)
  {
    var o := DosageLoop(periodMs, estimateMs, targetVolume, samples, n, pumping, restart);
    if MessageDue(samples, n, restart) {
      var next := DosageLoop(periodMs, estimateMs, targetVolume, samples, n + 1, samples(n).pumping, Elapsed(samples, n));
      if k == 0 {
        assert o.updates[k] == ProgressUpdate(estimateMs, targetVolume, samples(n), n);
      } else {
        ProgressMessages(periodMs, estimateMs, targetVolume, samples, n + 1, samples(n).pumping, Elapsed(samples, n), k - 1);
        var m: nat :| && n + 1 <= m
                      && next.updates[k - 1] == ProgressUpdate(estimateMs, targetVolume, samples(m), m)
                      && Elapsed(samples, m) - Elapsed(samples, n) >= MessagePeriodMs * k;
        assert o.updates[k] == next.updates[k - 1];
      }
    } else {
      ProgressMessages(periodMs, estimateMs, targetVolume, samples, n + 1, samples(n).pumping, restart, k);
      var m: nat :| && n + 1 <= m
                    && DosageLoop(periodMs, estimateMs, targetVolume, samples, n + 1, samples(n).pumping, restart).updates[k]
                       == ProgressUpdate(estimateMs, targetVolume, samples(m), m)
                    && Elapsed(samples, m) - restart >= MessagePeriodMs * (k + 1);
    }
  }

  /**
   * The duration timer at its edges: an estimate under one second leaves
   * no time, so the loop runs no iteration; a negative estimate of less
   * than a day (a target of more than twice the flow per second, pumped
   * backwards) wraps round to a timer of almost a day, so the loop runs.
   */
  lemma TimerPeriodEdges(estimateMs: int)
    ensures 0 <= estimateMs < 1000 ==> TimerPeriodMs(estimateMs) == 0 && !LoopRuns(TimerPeriodMs(estimateMs), 0, true)
    ensures -DayMs + 1000 <= estimateMs < 0 ==>
              TimerPeriodMs(estimateMs) > DayMs + estimateMs - 1000 && LoopRuns(TimerPeriodMs(estimateMs), 0, true)
  {
  }

  /** A negative flow whose volume per second is under half the target gives a negative estimate. */
  lemma NegativeFlowEstimate(targetVolume: real, flow: real)
    requires flow < 0.0 && targetVolume > -2.0 * flow
    ensures EstimateMs(targetVolume, flow) < 0
  {
  }

  /** The updates that come before the loop's: the early success report, if the pump was idle. */
  function Early(start: DosageStart): seq<InstanceUpdate>
  {
    if !start.pumping then [InstanceUpdate(FinishedSuccessfully, 1.0, None)] else []
  }

  /**
   * A dosage returns exactly when it had a non-zero flow and its loop
   * completed, and then its last update is terminal: success exactly when
   * the pump stopped by itself, is not in fault and is enabled.
   */
  lemma DosageTerminal(start: DosageStart, samples: nat -> DosageSample, end: DosageEnd)
    ensures var d := Dosage(start, samples, end);
            d.result.Success? <==>
              EffectiveFlow(start) != 0.0
              && DosageLoop(TimerPeriodMs(EstimateMs(start.targetVolume, EffectiveFlow(start))),
                            EstimateMs(start.targetVolume, EffectiveFlow(start)), start.targetVolume, samples, 0, true, 0).completed
    ensures var d := Dosage(start, samples, end);
            d.result.Success? ==>
              var loop := DosageLoop(TimerPeriodMs(EstimateMs(start.targetVolume, EffectiveFlow(start))),
                                     EstimateMs(start.targetVolume, EffectiveFlow(start)), start.targetVolume, samples, 0, true, 0);
              && d.updates[|d.updates| - 1].progress == 1.0
              && d.updates[|d.updates| - 1].remaining == Some(0)
              && (d.updates[|d.updates| - 1].status == FinishedSuccessfully <==> !loop.pumping && !end.inFault && end.enabled)
              && (d.updates[|d.updates| - 1].status == FinishedWithError <==> !(!loop.pumping && !end.inFault && end.enabled))
  {
  }

  /**
   * With a non-zero flow the first update after the early report announces
   * the running dosage with no progress and the full estimate; an idle pump
   * is reported finished and then reported running again.
   */
  lemma DosageOpening(start: DosageStart, samples: nat -> DosageSample, end: DosageEnd)
    requires EffectiveFlow(start) != 0.0
    ensures var d := Dosage(start, samples, end);
            && |d.updates| > |Early(start)|
            && d.updates[..|Early(start)|] == Early(start)
            && d.updates[|Early(start)|] == InstanceUpdate(Running, 0.0, Some(EstimateMs(start.targetVolume, EffectiveFlow(start))))
  {
    var d := Dosage(start, samples, end);
    var opening := Early(start) + [InstanceUpdate(Running, 0.0, Some(EstimateMs(start.targetVolume, EffectiveFlow(start))))];
    assert d.updates[..|opening|] == opening;
    assert d.updates[..|Early(start)|] == opening[..|Early(start)|];
  }

  /**
   * A flow that stays 0 after the retry ends the dosage with an error
   * report and a division by zero, before anything is reported running.
   */
  lemma ZeroFlowFails(start: DosageStart, samples: nat -> DosageSample, end: DosageEnd)
    requires start.flow == 0.0 && start.retriedFlow == 0.0
    ensures Dosage(start, samples, end) == DosageOutcome(Early(start) + [InstanceUpdate(FinishedWithError, 1.0, None)], Failure(ZeroDivision))
  {
  }

  /** The retried read matters only when the first read is 0, and then it replaces it. */
  lemma RetryReplacesZeroFlow(start: DosageStart, samples: nat -> DosageSample, end: DosageEnd, retried: real)
    ensures start.flow != 0.0 ==> Dosage(start.(retriedFlow := retried), samples, end) == Dosage(start, samples, end)
    ensures start.flow == 0.0 ==> Dosage(start, samples, end) == Dosage(start.(flow := start.retriedFlow), samples, end)
  {
  }

  // ---------------------------------------------------------------------
  // The property updaters

  /**
   * One pass of an updater thread: whether a client subscribed since the
   * last pass, whether the system was operational, and what the pump would
   * answer if it were read.
   */
  datatype UpdaterTick = UpdaterTick(subscribed: bool, operational: bool, reading: real)

  /**
   * An updater's state between passes: its force flag, and the thread's two
   * locals, the value it read (`new_x`) and the value it last published
   * (`x`), each unbound until first assigned.
   */
  datatype UpdaterState = UpdaterState(force: bool, held: Option<real>, last: Option<real>)

  /** What one pass does: publish a value, publish nothing, or fail on a local that is still unbound. */
  datatype Pass = Published(value: real, next: UpdaterState) | Quiet(next: UpdaterState) | Unbound

  /**
   * The value a pass works with. The flow rate updater reads 0 while the
   * system is degraded; the three gated updaters keep what they read last.
   */
  function PassReading(gated: bool, s: UpdaterState, t: UpdaterTick): (r: Option<real>)
    ensures t.operational ==> r == Some(t.reading)
    ensures !t.operational ==> r == if gated then s.held else Some(0.0)
  {
    if t.operational then Some(t.reading) else if gated then s.held else Some(0.0)
  }

  /** One pass of an updater thread's loop. */
  function UpdaterPass(gated: bool, s: UpdaterState, t: UpdaterTick): (r: Pass)
    ensures r.Unbound? <==> PassReading(gated, s, t).None? || (!(s.force || t.subscribed) && s.last.None?)
    ensures r.Published? <==>
              !r.Unbound? && (s.force || t.subscribed || !IsClose(PassReading(gated, s, t).value, s.last.value, DefaultRelTol))
    ensures r.Published? ==> r.value == PassReading(gated, s, t).value && r.next == UpdaterState(false, Some(r.value), Some(r.value))
    ensures r.Quiet? ==> r.next == UpdaterState(false, PassReading(gated, s, t), s.last) && IsClose(r.next.held.value, s.last.value, DefaultRelTol)
  {
    var force := s.force || t.subscribed;
    var held := PassReading(gated, s, t);
    if held.None? then Unbound
    else if force then Published(held.value, UpdaterState(false, held, held))
    else if s.last.None? then Unbound
    else if !IsClose(held.value, s.last.value, DefaultRelTol) then Published(held.value, UpdaterState(false, held, held))
    else Quiet(UpdaterState(false, held, s.last))
  }

  /** What a run of passes publishes, the state it leaves, and whether the thread failed. */
  datatype UpdaterRun = UpdaterRun(published: seq<real>, state: UpdaterState, failed: bool)

  /** Reference definition of an updater thread over a sequence of passes. */
  function UpdaterPasses(gated: bool, s: UpdaterState, ticks: seq<UpdaterTick>): UpdaterRun
    decreases |ticks|
  {
    if ticks == [] then UpdaterRun([], s, false)
    else match UpdaterPass(gated, s, ticks[0])
      case Unbound => UpdaterRun([], s.(force := s.force || ticks[0].subscribed), true)
      case Quiet(next) => UpdaterPasses(gated, next, ticks[1..])
      case Published(v, next) =>
        var rest := UpdaterPasses(gated, next, ticks[1..]);
        rest.(published := [v] + rest.published)
  }

  /**
   * After `emitted`, a run from `initial` over `ticks` goes on as a run from
   * state `s` over `ticks[i..]`.
   */
  ghost predicate Resumes(gated: bool, initial: UpdaterState, ticks: seq<UpdaterTick>, i: nat, s: UpdaterState, emitted: seq<real>)
  {
    i <= |ticks| &&
    var run := UpdaterPasses(gated, initial, ticks);
    var rest := UpdaterPasses(gated, s, ticks[i..]);
    run.published == emitted + rest.published && run.state == rest.state && run.failed == rest.failed
  }

  /** One pass moves a resumed run on by one tick, or ends it with a failure. */
  lemma ResumesStep(gated: bool, initial: UpdaterState, ticks: seq<UpdaterTick>, i: nat, s: UpdaterState, emitted: seq<real>)
    requires i < |ticks| && Resumes(gated, initial, ticks, i, s, emitted)
    ensures var p := UpdaterPass(gated, s, ticks[i]);
            && (p.Unbound? ==> UpdaterPasses(gated, initial, ticks) == UpdaterRun(emitted, s.(force := s.force || ticks[i].subscribed), true))
            && (!p.Unbound? ==> Resumes(gated, initial, ticks, i + 1, p.next, emitted + MessageValues(p)))
  {
    var tail := ticks[i..];
    assert tail[0] == ticks[i] && tail[1..] == ticks[i + 1..];
    PassesUnfold(gated, s, tail);
    var p := UpdaterPass(gated, s, ticks[i]);
    if !p.Unbound? {
      var rest := UpdaterPasses(gated, p.next, ticks[i + 1..]);
      assert UpdaterPasses(gated, s, tail).published == MessageValues(p) + rest.published;
      assert emitted + (MessageValues(p) + rest.published) == (emitted + MessageValues(p)) + rest.published;
    }
  }

  /** A run of passes is its first pass followed by the run of the rest. */
  lemma PassesUnfold(gated: bool, s: UpdaterState, ticks: seq<UpdaterTick>)
    requires ticks != []
    ensures var p := UpdaterPass(gated, s, ticks[0]);
            var run := UpdaterPasses(gated, s, ticks);
            && (p.Unbound? ==> run == UpdaterRun([], s.(force := s.force || ticks[0].subscribed), true))
            && (!p.Unbound? ==>
                  var rest := UpdaterPasses(gated, p.next, ticks[1..]);
                  && run.published == MessageValues(p) + rest.published
                  && run.state == rest.state && run.failed == rest.failed)
  {
  }

  /** What a pass publishes. */
  function MessageValues(p: Pass): seq<real>
  {
    if p.Published? then [p.value] else []
  }

  /** Once both locals are bound an updater never fails, gated or not. */
  lemma {:induction false} BoundNeverFails(gated: bool, s: UpdaterState, ticks: seq<UpdaterTick>)
    requires s.held.Some? && s.last.Some?
    ensures !UpdaterPasses(gated, s, ticks).failed
    decreases |ticks|
  {
    if ticks != [] {
      BoundNeverFails(gated, UpdaterPass(gated, s, ticks[0]).next, ticks[1..]);
    }
  }

  /** The flow rate updater, started forced, never fails. */
  lemma FlowRateNeverFails(ticks: seq<UpdaterTick>)
    ensures !UpdaterPasses(false, UpdaterState(true, None, None), ticks).failed
  {
    if ticks != [] {
      BoundNeverFails(false, UpdaterPass(false, UpdaterState(true, None, None), ticks[0]).next, ticks[1..]);
    }
  }

  /**
   * A gated updater, started forced, fails exactly when its first pass
   * finds the system degraded: nothing was ever read into its local.
   */
  lemma GatedFailsIffFirstPassDegraded(ticks: seq<UpdaterTick>)
    requires ticks != []
    ensures UpdaterPasses(true, UpdaterState(true, None, None), ticks).failed <==> !ticks[0].operational
  {
    if ticks[0].operational {
      BoundNeverFails(true, UpdaterPass(true, UpdaterState(true, None, None), ticks[0]).next, ticks[1..]);
    }
  }

  /**
   * While the system stays degraded and nobody subscribes, a gated updater
   * that is not forced and has published what it holds publishes nothing more.
   */
  lemma {:induction false} DegradedGatedIsQuiet(s: UpdaterState, ticks: seq<UpdaterTick>)
    requires !s.force && s.held.Some? && s.held == s.last
    requires forall k :: 0 <= k < |ticks| ==> !ticks[k].operational && !ticks[k].subscribed
    ensures UpdaterPasses(true, s, ticks) == UpdaterRun([], s, false)
    decreases |ticks|
  {
    if ticks != [] {
      IsCloseReflexive(s.held.value, DefaultRelTol);
      assert UpdaterPass(true, s, ticks[0]) == Quiet(s);
      DegradedGatedIsQuiet(s, ticks[1..]);
    }
  }

  /**
   * While the system stays degraded and nobody subscribes, the flow rate
   * updater that last published a non-zero flow publishes 0 once.
   */
  lemma DegradedFlowRateDropsToZero(v: real, ticks: seq<UpdaterTick>)
    requires v != 0.0 && ticks != []
    requires forall k :: 0 <= k < |ticks| ==> !ticks[k].operational && !ticks[k].subscribed
    ensures UpdaterPasses(false, UpdaterState(false, Some(v), Some(v)), ticks).published == [0.0]
  {
    assert !IsClose(0.0, v, DefaultRelTol) by {
      assert Abs(0.0 - v) == Abs(v);
      assert Max(Abs(0.0), Abs(v)) == Abs(v);
    }
    var s' := UpdaterState(false, Some(0.0), Some(0.0));
    assert UpdaterPass(false, UpdaterState(false, Some(v), Some(v)), ticks[0]) == Published(0.0, s');
    DegradedFlowQuiet(s', ticks[1..]);
  }

  /** The flow rate updater that has published 0 stays quiet while degraded and unsubscribed. */
  lemma {:induction false} DegradedFlowQuiet(s: UpdaterState, ticks: seq<UpdaterTick>)
    requires s == UpdaterState(false, Some(0.0), Some(0.0))
    requires forall k :: 0 <= k < |ticks| ==> !ticks[k].operational && !ticks[k].subscribed
    ensures UpdaterPasses(false, s, ticks).published == []
    decreases |ticks|
  {
    if ticks != [] {
      IsCloseReflexive(0.0, DefaultRelTol);
      assert UpdaterPass(false, s, ticks[0]) == Quiet(s);
      DegradedFlowQuiet(s, ticks[1..]);
    }
  }

  /**
   * One property updater: its force flag (set by a new subscription,
   * cleared once a value is published) and what it has published.
   */
  class PropertyUpdater {
    /** False for the flow rate updater, which reads even when degraded; true for the others. */
    const gated: bool
    var force: bool
    var published: seq<real>

    constructor (gated: bool)
      ensures this.gated == gated && force && published == []
    {
      this.gated := gated;
      force := true;
      published := [];
    }

    /** `<Property>_on_subscription`: the next pass publishes whatever it reads. */
    method OnSubscription()
      modifies this`force
      ensures force
    {
      force := true;
    }

    /** One pass of the updater thread's loop, over the thread's two locals. */
    method Pass(t: UpdaterTick, held: Option<real>, last: Option<real>) returns (held': Option<real>, last': Option<real>, failed: bool)
      modifies this`force, this`published
      ensures var p := UpdaterPass(gated, UpdaterState(old(force), held, last), t);
              && failed == p.Unbound?
              && (failed ==> force == (old(force) || t.subscribed) && published == old(published))
              && (!failed ==> UpdaterState(force, held', last') == p.next)
              && published == old(published) + MessageValues(p)
    {
      if t.subscribed {
        OnSubscription();
      }
      held' := held;
      if t.operational {
        held' := Some(t.reading);
      } else if !gated {
        held' := Some(0.0);
      }
      last' := last;
      if held'.None? || (!force && last.None?) {
        return held', last', true;
      }
      if force || !IsClose(held'.value, last.value, DefaultRelTol) {
        last' := held';
        published := published + [last'.value];
        force := false;
      }
      failed := false;
    }

    /**
     * The updater thread, from its start, over the given passes; a
     * subscription flagged on a pass arrives just before that pass.
     */
    method Run(ticks: seq<UpdaterTick>) returns (failed: bool)
      modifies this`force, this`published
      ensures var run := UpdaterPasses(gated, UpdaterState(old(force), None, None), ticks);
              published == old(published) + run.published && force == run.state.force && failed == run.failed
    {
      ghost var initial := UpdaterState(force, None, None);
      var held: Option<real> := None;
      var last: Option<real> := None;
      ghost var emitted: seq<real> := [];
      var i := 0;
      while i < |ticks|
        invariant published == old(published) + emitted
        invariant Resumes(gated, initial, ticks, i, UpdaterState(force, held, last), emitted)
      {
        ghost var p := UpdaterPass(gated, UpdaterState(force, held, last), ticks[i]);
        ResumesStep(gated, initial, ticks, i, UpdaterState(force, held, last), emitted);
        var h, l, f := Pass(ticks[i], held, last);
        if f {
          return true;
        }
        emitted := emitted + MessageValues(p);
        held, last := h, l;
        i := i + 1;
      }
      assert ticks[i..] == [];
      failed := false;
    }
  }

  // ---------------------------------------------------------------------
  // The feature

  /** Errors the dosing commands raise. */
  datatype CommandError =
    | SystemNotOperational(command: string)
    | ValidationFailed(command: string)
    | DosingFailed(error: DosingError)

  /** `PumpFluidDosingServiceImpl` for one pump. */
  class PumpFluidDosingService {
    const pump: Qmix.Pump
    const flowRate: PropertyUpdater
    const maxFlowRate: PropertyUpdater
    const fillLevel: PropertyUpdater
    const maxFillLevel: PropertyUpdater
    var stopped: bool

    constructor (pump: Qmix.Pump)
      ensures this.pump == pump && !stopped
      ensures fresh(flowRate) && fresh(maxFlowRate) && fresh(fillLevel) && fresh(maxFillLevel)
      ensures !flowRate.gated && maxFlowRate.gated && fillLevel.gated && maxFillLevel.gated
      ensures flowRate.force && maxFlowRate.force && fillLevel.force && maxFillLevel.force
    {
      this.pump := pump;
      flowRate := new PropertyUpdater(false);
      maxFlowRate := new PropertyUpdater(true);
      fillLevel := new PropertyUpdater(true);
      maxFillLevel := new PropertyUpdater(true);
      stopped := false;
    }

    /** `StopDosage`: stops the pump when the system is operational. */
    method StopDosage(operational: bool) returns (r: Result<(), CommandError>)
      modifies pump
      ensures r.Success? <==> operational
      ensures r.Failure? ==> r.error == SystemNotOperational("StopDosage")
      ensures pump.calls == old(pump.calls) + (if operational then [Qmix.StopPumping] else [])
      ensures pump.enabled == old(pump.enabled) && pump.inFault == old(pump.inFault)
    {
      if !operational {
        return Failure(SystemNotOperational("StopDosage"));
      }
      pump.Send(Qmix.StopPumping);
      r := Success(());
    }

    /**
     * The shape the three dosing commands share: refuse when degraded,
     * refuse when the parameters do not validate, otherwise start the pump
     * and track the dosage.
     */
    method Dose(command: string, call: Qmix.PumpCall, operational: bool, valid: bool, instance: CommandInstance,
                start: DosageStart, samples: nat -> DosageSample, end: DosageEnd) returns (r: Result<(), CommandError>)
      requires !call.ClearFault? && !call.Enable?
      modifies pump, instance
      ensures var d := Dosage(start, samples, end);
              && (!operational ==> r == Failure(SystemNotOperational(command)))
              && (operational && !valid ==> r == Failure(ValidationFailed(command)))
              && (operational && valid ==> r == if d.result.Success? then Success(()) else Failure(DosingFailed(d.result.error)))
              && pump.calls == old(pump.calls) + (if operational && valid then [call] else [])
              && instance.updates == old(instance.updates) + (if operational && valid then d.updates else [])
              && pump.enabled == old(pump.enabled) && pump.inFault == old(pump.inFault)
    {
      if !operational {
        return Failure(SystemNotOperational(command));
      }
      if !valid {
        return Failure(ValidationFailed(command));
      }
      pump.Send(call);
      var w := WaitDosageFinished(instance, start, samples, end);
      r := if w.Success? then Success(()) else Failure(DosingFailed(w.error));
    }

    /** `SetFillLevel` */
    method SetFillLevel(fillLevel: real, flowRate: real, operational: bool, valid: bool, instance: CommandInstance,
                        start: DosageStart, samples: nat -> DosageSample, end: DosageEnd) returns (r: Result<(), CommandError>)
      modifies pump, instance
      ensures var d := Dosage(start, samples, end);
              && (!operational ==> r == Failure(SystemNotOperational("SetFillLevel")))
              && (operational && !valid ==> r == Failure(ValidationFailed("SetFillLevel")))
              && (operational && valid ==> r == if d.result.Success? then Success(()) else Failure(DosingFailed(d.result.error)))
              && pump.calls == old(pump.calls) + (if operational && valid then [Qmix.SetFillLevel(fillLevel, flowRate)] else [])
              && instance.updates == old(instance.updates) + (if operational && valid then d.updates else [])
              && pump.enabled == old(pump.enabled) && pump.inFault == old(pump.inFault)
    {
      r := Dose("SetFillLevel", Qmix.SetFillLevel(fillLevel, flowRate), operational, valid, instance, start, samples, end);
    }

    /** `DoseVolume` */
    method DoseVolume(volume: real, flowRate: real, operational: bool, valid: bool, instance: CommandInstance,
                      start: DosageStart, samples: nat -> DosageSample, end: DosageEnd) returns (r: Result<(), CommandError>)
      modifies pump, instance
      ensures var d := Dosage(start, samples, end);
              && (!operational ==> r == Failure(SystemNotOperational("DoseVolume")))
              && (operational && !valid ==> r == Failure(ValidationFailed("DoseVolume")))
              && (operational && valid ==> r == if d.result.Success? then Success(()) else Failure(DosingFailed(d.result.error)))
              && pump.calls == old(pump.calls) + (if operational && valid then [Qmix.PumpVolume(volume, flowRate)] else [])
              && instance.updates == old(instance.updates) + (if operational && valid then d.updates else [])
              && pump.enabled == old(pump.enabled) && pump.inFault == old(pump.inFault)
    {
      r := Dose("DoseVolume", Qmix.PumpVolume(volume, flowRate), operational, valid, instance, start, samples, end);
    }

    /** `GenerateFlow`: a negative flow rate aspirates; the validation sees its magnitude. */
    method GenerateFlow(flowRate: real, operational: bool, valid: bool, instance: CommandInstance,
                        start: DosageStart, samples: nat -> DosageSample, end: DosageEnd) returns (r: Result<(), CommandError>)
      modifies pump, instance
      ensures var d := Dosage(start, samples, end);
              && (!operational ==> r == Failure(SystemNotOperational("GenerateFlow")))
              && (operational && !valid ==> r == Failure(ValidationFailed("GenerateFlow")))
              && (operational && valid ==> r == if d.result.Success? then Success(()) else Failure(DosingFailed(d.result.error)))
              && pump.calls == old(pump.calls) + (if operational && valid then [Qmix.GenerateFlow(flowRate)] else [])
              && instance.updates == old(instance.updates) + (if operational && valid then d.updates else [])
              && pump.enabled == old(pump.enabled) && pump.inFault == old(pump.inFault)
    {
      r := Dose("GenerateFlow", Qmix.GenerateFlow(flowRate), operational, valid, instance, start, samples, end);
    }

    /** `FlowRate_on_subscription` */
    method FlowRateOnSubscription()
      modifies flowRate`force
      ensures flowRate.force
    {
      flowRate.OnSubscription();
    }

    /** `MaxFlowRate_on_subscription` */
    method MaxFlowRateOnSubscription()
      modifies maxFlowRate`force
      ensures maxFlowRate.force
    {
      maxFlowRate.OnSubscription();
    }

    /** `SyringeFillLevel_on_subscription` */
    method SyringeFillLevelOnSubscription()
      modifies fillLevel`force
      ensures fillLevel.force
    {
      fillLevel.OnSubscription();
    }

    /** `MaxSyringeFillLevel_on_subscription` */
    method MaxSyringeFillLevelOnSubscription()
      modifies maxFillLevel`force
      ensures maxFillLevel.force
    {
      maxFillLevel.OnSubscription();
    }

    /** `stop`: sets the event the four updater threads watch. */
    method Stop()
      modifies this`stopped
      ensures stopped
    {
      stopped := true;
    }
  }
}
