# sila_cetoni in Dafny

A model of the core of sila_cetoni. sila_cetoni is a Python application that exposes CETONI laboratory devices (syringe pumps, axis systems, valves, controllers and I/O modules on a CAN bus) as SiLA 2 servers. The model covers the application's bus supervisor, its device discovery and server layout, and several per-device feature implementations:

- pump fluid dosing;
- force monitoring;
- pump drive control;
- syringe configuration;
- digital output channels;
- the analog output feature base.

The hardware SDK (qmixsdk) is an external collaborator. `Qmix.Pump` logs every command the services send and keeps the pump's fault and enabled state. Every value a loop reads from the hardware is supplied as a sequence of per-tick answers (`Common.Tick`): whether the system was operational at that tick, and what the read would return.

Each polling thread and each `while` loop is a Dafny `method` with a loop. It is proved equal to a reference function over the ticks it sees, and the properties of that function are proved as lemmas. Objects whose fields the source updates are classes:

- the application's `system_operational` flag;
- the configured devices, whose class and valve list discovery changes;
- the observable command instance;
- the property updaters with their force flags;
- the per-channel queues.

Files, one module each:

- `common.dfy`: `Option`, `Result`, `Tick`.
- `tolerance.dfy`: `math.isclose` over exact reals.
- `qmix.dfy`: the pump interface the services call.
- `queues.dfy`: `queue.Queue`.
- `streams.dfy`: the shared shape of the sampling and change-detecting subscription loops.
- `application_supervisor.dfy`: `Application.monitor_events` as a two-state automaton (operational / degraded).
- `application_discovery.dfy`: `get_availabe_pumps`, `get_availabe_axis_systems`, `get_availabe_valves` and `enable_pumps`.
- `application_servers.dfy`: the ports, names, classes and descriptions `create_servers` assigns.
- `fluid_dosing.dfy`: `PumpFluidDosingServiceImpl`, that is, `_wait_dosage_finished`, the four updater threads, the subscription hooks, the guarded commands and `stop`.
- `force_monitoring.dfy`: `ForceMonitoringServiceReal`.
- `pump_drive_control.dfy`: `PumpDriveControlServiceReal`.
- `syringe_configuration.dfy`: `SyringeConfigurationControllerReal`.
- `digital_out.dfy`: `DigitalOutChannelControllerImpl`.
- `analog_out.dfy`: `AnalogOutChannelControllerBase`.

Where the program's documentation and its code differ, the model follows the code. For example:

- a zero flow in `_wait_dosage_finished` does not return early; it goes on to divide by zero;
- a gated updater whose first pass is degraded fails on an unbound local;
- `InitializePumpDrive` succeeds when calibration did not finish but the last error code is 0;
- the force stream's `reading + 1` sentinel does not publish a first reading of 999 N or more;
- the boolean streams' `not first` sentinel, commented as forcing the first value out, publishes nothing at the first tick when the value flipped between the subscription's read and that tick's read (`Streams.FirstBoolPublished`).

## Model

| member | source | states |
|---|---|---|
| Tolerance.IsCloseReflexive | new/pumps/syringepumps/syringepump_service/feature_implementations/pumpfluiddosingservice_impl.py:79 | `math.isclose(x, x)` holds for every non-negative tolerance, so re-reading the published value never publishes it again |
| Tolerance.IsCloseSymmetric | impl/de/cetoni/pumps/syringepumps/ForceMonitoringService/ForceMonitoringService_real.py:188 | closeness does not depend on which of the two values is the new reading |
| Tolerance.OneApartIsDistinct | impl/de/cetoni/pumps/syringepumps/ForceMonitoringService/ForceMonitoringService_real.py:181-188 | for x >= 0, x and the sentinel x + 1 are told apart under `rel_tol=1e-3` exactly when x < 999 |
| Qmix.Pump.Send | impl/de/cetoni/pumps/syringepumps/PumpDriveControlService/PumpDriveControlService_real.py:126 | a command other than clear-fault/enable is appended to the pump's call log and leaves its fault and enabled state alone |
| Qmix.Pump.ClearFaultState | impl/de/cetoni/pumps/syringepumps/PumpDriveControlService/PumpDriveControlService_real.py:156 | `clear_fault()` is logged and the pump leaves its fault state; enabled is unchanged |
| Qmix.Pump.SetEnabled | impl/de/cetoni/pumps/syringepumps/PumpDriveControlService/PumpDriveControlService_real.py:157 | `enable(on)` is logged and the pump's enabled state becomes `on`; the fault state is unchanged |
| Queues.Queue.Put | new/io/io_service/generated/analogoutchannelcontroller/analogoutchannelcontroller_base.py:41 | `put` appends the value at the back of the queue |
| Queues.Queue.Get | new/io/io_service/generated/analogoutchannelcontroller/analogoutchannelcontroller_base.py:15 | taking from a non-empty queue yields its oldest value and leaves the rest in order |
| AnalogOut.AnalogOutChannelControllerBase.constructor | new/io/io_service/generated/analogoutchannelcontroller/analogoutchannelcontroller_base.py:17-22 | a new base owns a fresh, empty producer queue |
| AnalogOut.AnalogOutChannelControllerBase.UpdateValue | new/io/io_service/generated/analogoutchannelcontroller/analogoutchannelcontroller_base.py:34-43 | with a queue the value goes to the back of that queue and a distinct producer queue is untouched; without one the value goes to the back of the producer queue |
| AnalogOut.AnalogOutChannelControllerBase.ValueOnSubscription | new/io/io_service/generated/analogoutchannelcontroller/analogoutchannelcontroller_base.py:45-54 | the default subscription hook hands out no queue |
| AnalogOut.UpdatesComeOutInOrder | new/io/io_service/generated/analogoutchannelcontroller/analogoutchannelcontroller_base.py:40-43 | two updates without a queue leave the producer queue in the order they were made (FIFO) |
| Supervisor.Step | application/application.py:212-223 | an invalid event keeps the flag; a degraded system becomes operational exactly on "heartbeat resolved"; an operational one stays so unless the event degrades it, and a degrading event leaves it operational only if it also counts as "resolved" |
| Supervisor.DegradingEventTakesEffect | application/application.py:218-220 | with distinct guard codes, a valid DC-link under-voltage or heartbeat-lost event leaves the system degraded from either state |
| Supervisor.AtMostOneTransition | application/application.py:218-223 | the flag changes only by a degrading event while operational or a resolving event while degraded |
| Supervisor.SuperviseSnoc | application/application.py:209-223 | reading one more event applies one more step to the flag reached so far |
| Supervisor.SuperviseIsLastDecisive | application/application.py:209-223 | the flag after a run of events is decided by the last valid degrading or resolving event (the start value if there is none) |
| Supervisor.RecoveryNeedsResolvedEvent | application/application.py:222-223 | a degraded system that ends operational has read a valid "heartbeat resolved" event |
| Supervisor.InvalidEventsAreIgnored | application/application.py:212-214 | dropping an invalid event does not change the outcome |
| Supervisor.Application.MonitorEvents | application/application.py:181-223 | starting from operational, after the loop has read `events` the flag is the automaton's final state |
| Supervisor.SupervisorScenarios | application/application.py:193-223 | an under-voltage degrades, an under-voltage then "resolved" recovers, a lost heartbeat degrades, a repeated under-voltage stays degraded |
| Discovery.IndexOfName | application/application.py:250 | `device_by_name` finds a device with that name, or reports that no device has it |
| Discovery.PumpKindAfterIsLastNamed | application/application.py:239-252 | after the scan each device's class is set by the last pump unit of its name (flagged ContiFlow iff that unit's probe answered), and left as it was if no unit has its name |
| Discovery.ConvertPump | application/application.py:250-251 | converting the device of one unit changes that device's class only |
| Discovery.GetAvailablePumps | application/application.py:227-254 | success iff every unit's name is declared; then one entry per unit, in unit order, each the configured device of that name, with classes as the reference scan says; an undeclared name stops the scan at the first such unit with the earlier conversions done |
| Discovery.AxisKindAfterIsLastNamed | application/application.py:280-287 | after the scan each device's class is set by the last axis system of its name |
| Discovery.ConvertAxis | application/application.py:285-286 | converting the device of one axis system changes that device's class only |
| Discovery.GetAvailableAxisSystems | application/application.py:268-289 | success iff every axis system's name is declared; then one entry per system, in order, each the configured device of that name; otherwise the scan stops at the first undeclared name |
| Discovery.LastIndexFromFinds | application/application.py:331 | the backward search finds an occurrence of the needle with none after it, or proves there is none |
| Discovery.ContainsOccurs | application/application.py:331 | the model of Python's `needle in haystack` holds exactly when the needle occurs somewhere |
| Discovery.BaseNameCut | application/application.py:331 | `rsplit('_Pump', 1)[0]` keeps a name without "_Pump" whole, and otherwise is the prefix just before its last "_Pump" |
| Discovery.AttachOne | application/application.py:338-341 | an owning device gains the valve; it becomes a valve device, and is reported new, exactly when it was a plain device |
| Discovery.NoOwnersWithoutName | application/application.py:316-327 | a unit whose name lookup raised `OSError` turns no device into a valve device |
| Discovery.AttachToOwners | application/application.py:330-341 | every owning device gains the valve, only plain owners become valve devices, and they join the result in configuration order |
| Discovery.ScanUnit | application/application.py:313-341 | one unit extends each device's valves and class by what that unit gives it, and the result by the devices it promotes |
| Discovery.GetAvailableValves | application/application.py:300-342 | each device receives exactly the valves it owns, in unit order (a device owns a valve when its name cut at the last "_Pump" is a substring of the valve name and it does not contain "QmixIO"); the result is the reference list of promoted devices |
| Discovery.PromotedMembers | application/application.py:339-341 | the returned list holds exactly the configured devices that were plain when the scan started and received at least one valve |
| Discovery.PromotedDistinct | application/application.py:339-341 | no device appears twice in the returned list |
| Discovery.EnablePumps | application/application.py:256-264 | each pump gets `clear_fault` only if it was faulted and `enable(True)` only if it was disabled, and ends enabled and not faulted |
| ServerLayout.ServerName | application/application.py:416 | the server name has the device name's length, with every `_` shown as a space and no `_` left |
| ServerLayout.LayoutAppend | application/application.py:414-499 | laying out two categories one after the other is laying out their concatenation, ports continuing |
| ServerLayout.AddServers | application/application.py:414-437 | one category loop appends, for the k-th request, a server on the current port + 1 + k, and advances the port by the number of requests |
| ServerLayout.AddCategory | application/application.py:441-499 | the loop of a later category continues the layout of the categories before it |
| ServerLayout.LayoutOrdered | application/application.py:406-499 | the laid-out servers have strictly increasing ports above the base, and names without `_` |
| ServerLayout.CreateServers | application/application.py:398-501 | the k-th server (pumps, axes, valves, controllers, I/O) serves the k-th device on port 50052 + k, so ports are distinct and increasing, and names have no `_` |
| ServerLayout.PumpServerClass | application/application.py:417-436 | a pump gets a ContiFlow server iff it is a ContiFlow pump, else a syringe-pump server with its first valve if any; the description matches |
| ServerLayout.CreateServersExample | application/application.py:406-469 | a ContiFlow pump, a syringe pump with valve 3 and one valve device get ports 50052, 50053, 50054 and the name "P 2" for "P_2" |
| Streams.HeldIsLastOperationalReading | impl/de/cetoni/pumps/syringepumps/ForceMonitoringService/ForceMonitoringService_real.py:184-185 | the held value at a tick is that tick's reading if the system was operational, else the value held before (the subscription value at the first tick) |
| Streams.BoolChangesIsDedup | impl/de/cetoni/pumps/syringepumps/ForceMonitoringService/ForceMonitoringService_real.py:267-275 | a boolean stream publishes exactly the held values that differ from the one published before them |
| Streams.DedupAlternates | impl/de/cetoni/pumps/syringepumps/ForceMonitoringService/ForceMonitoringService_real.py:272-273 | published booleans alternate, starting with the opposite of the reference |
| Streams.FirstBoolPublished | impl/de/cetoni/pumps/syringepumps/ForceMonitoringService/ForceMonitoringService_real.py:267-268 | with the sentinel `not first`, the first tick publishes `first` whenever the held value is still `first` |
| Streams.RealStep | impl/de/cetoni/pumps/syringepumps/ForceMonitoringService/ForceMonitoringService_real.py:188-190 | a tick holds the fresh reading only while operational, and a reading that is not close to the reference becomes the new reference |
| Streams.RealStepSettles | impl/de/cetoni/pumps/syringepumps/ForceMonitoringService/ForceMonitoringService_real.py:188-190 | after any tick the held value is within tolerance of the reference |
| Streams.DegradedSettledIsQuiet | impl/de/cetoni/pumps/syringepumps/ForceMonitoringService/ForceMonitoringService_real.py:184-190 | while degraded, a settled real stream publishes nothing |
| Streams.DegradedAfterFirstTick | impl/de/cetoni/pumps/syringepumps/ForceMonitoringService/ForceMonitoringService_real.py:184-190 | if the system is degraded from the second tick on, at most one value is published |
| Streams.RealChangesDiffer | impl/de/cetoni/pumps/syringepumps/ForceMonitoringService/ForceMonitoringService_real.py:188-194 | the first published value is not close to the sentinel, and each published value is not close to the one before it |
| ForceMonitoring.CommandId | impl/de/cetoni/pumps/syringepumps/ForceMonitoringService/ForceMonitoringService_real.py:74-78 | the command id is the feature's command prefix followed by the command name |
| ForceMonitoring.Guard | impl/de/cetoni/pumps/syringepumps/ForceMonitoringService/ForceMonitoringService_real.py:94-95 | a command is let through exactly when the system is operational; the error carries the prefixed command id |
| ForceMonitoring.ForceMonitoringService.ClearForceSafetyStop | impl/de/cetoni/pumps/syringepumps/ForceMonitoringService/ForceMonitoringService_real.py:80-99 | when degraded it raises with the command id and sends nothing; otherwise it sends `clear_force_safety_stop` |
| ForceMonitoring.ForceMonitoringService.EnableForceMonitoring | impl/de/cetoni/pumps/syringepumps/ForceMonitoringService/ForceMonitoringService_real.py:102-121 | when degraded it raises and sends nothing; otherwise it sends `enable_force_monitoring(True)` |
| ForceMonitoring.ForceMonitoringService.DisableForceMonitoring | impl/de/cetoni/pumps/syringepumps/ForceMonitoringService/ForceMonitoringService_real.py:124-143 | when degraded it raises and sends nothing; otherwise it sends `enable_force_monitoring(False)` |
| ForceMonitoring.ForceMonitoringService.SetForceLimit | impl/de/cetoni/pumps/syringepumps/ForceMonitoringService/ForceMonitoringService_real.py:146-166 | when degraded it raises and sends nothing; otherwise it forwards the requested limit unchanged |
| ForceMonitoring.SubscribeReal | impl/de/cetoni/pumps/syringepumps/ForceMonitoringService/ForceMonitoringService_real.py:169-196 | the loop publishes exactly the tolerance-filtered changes of the held readings, starting from the sentinel `first + 1` |
| ForceMonitoring.SubscribeBool | impl/de/cetoni/pumps/syringepumps/ForceMonitoringService/ForceMonitoringService_real.py:255-278 | the loop publishes exactly the changes of the held readings, starting from the sentinel `not first` |
| ForceMonitoring.FirstForcePublished | impl/de/cetoni/pumps/syringepumps/ForceMonitoringService/ForceMonitoringService_real.py:181-194 | a non-negative force held at the first tick is published first iff it is below 999; otherwise the first tick publishes nothing |
| ForceMonitoring.SteadyLargeForceNeverPublished | impl/de/cetoni/pumps/syringepumps/ForceMonitoringService/ForceMonitoringService_real.py:181-194 | a force that stays at x >= 999 from subscription on is never published |
| ForceMonitoring.ForceOf1000NeverPublished | impl/de/cetoni/pumps/syringepumps/ForceMonitoringService/ForceMonitoringService_real.py:181-194 | a force of 1000 N, through an operational, a degraded and an operational tick, publishes nothing |
| DigitalOut.StateLabel | new/io/io_service/feature_implementations/digitaloutchannelcontroller_impl.py:42 | the label is "On" exactly for an on state, and "Off" otherwise |
| DigitalOut.DigitalOutChannel.WriteOn | new/io/io_service/feature_implementations/digitaloutchannelcontroller_impl.py:76 | `write_on` sets the output and is recorded |
| DigitalOut.ListIndex | new/io/io_service/feature_implementations/digitaloutchannelcontroller_impl.py:66 | a Python list index is valid iff -n <= i < n, and a negative one counts from the end |
| DigitalOut.DigitalOutController.constructor | new/io/io_service/feature_implementations/digitaloutchannelcontroller_impl.py:31-45 | one fresh queue per channel, in channel order, pairwise distinct, each holding just that channel's initial label |
| DigitalOut.DigitalOutController.NumberOfChannels | new/io/io_service/feature_implementations/digitaloutchannelcontroller_impl.py:60-61 | the number of channels |
| DigitalOut.DigitalOutController.StateOnSubscription | new/io/io_service/feature_implementations/digitaloutchannelcontroller_impl.py:63-70 | the index key is popped; a missing key raises `KeyError`, a valid index yields that channel's queue, any other raises `InvalidChannelIndex` |
| DigitalOut.DigitalOutController.SetOutput | new/io/io_service/feature_implementations/digitaloutchannelcontroller_impl.py:72-80 | the index key is popped; it succeeds iff the index is valid, and then writes `State == "On"` to that channel only; on failure nothing is written |
| DigitalOut.DigitalOutController.RunStateUpdater | new/io/io_service/feature_implementations/digitaloutchannelcontroller_impl.py:47-58 | updater i appends to queue i exactly the labels of the state changes it sees, and leaves every other queue alone |
| DigitalOut.DigitalOutController.Stop | new/io/io_service/feature_implementations/digitaloutchannelcontroller_impl.py:90-91 | the stop event is set |
| DigitalOut.UpdaterPublishesChangesOnly | new/io/io_service/feature_implementations/digitaloutchannelcontroller_impl.py:49-55 | an updater's first label differs from the initial state and no label repeats the one before it |
| DigitalOut.DegradedUpdaterIsQuiet | new/io/io_service/feature_implementations/digitaloutchannelcontroller_impl.py:51-55 | an updater that only sees degraded ticks publishes nothing |
| PumpDriveControl.NatToStringDigits | impl/de/cetoni/pumps/syringepumps/PumpDriveControlService/PumpDriveControlService_real.py:89 | the decimal rendering of a natural number is a non-empty digit string denoting it |
| PumpDriveControl.IntToStringRoundTrip | impl/de/cetoni/pumps/syringepumps/PumpDriveControlService/PumpDriveControlService_real.py:89 | `int()` reads back every decimal rendering of an integer, signs included |
| PumpDriveControl.CalibrationWaitFinds | impl/de/cetoni/pumps/syringepumps/PumpDriveControlService/PumpDriveControlService_real.py:104-109 | the wait returns True exactly when some poll answered "finished" in a poll that started before the wall-clock timer expired and no earlier poll raised |
| PumpDriveControl.PollClock | impl/de/cetoni/pumps/syringepumps/PumpDriveControlService/PumpDriveControlService_real.py:104-108 | each poll starts at least 100 ms (its sleep) after the one before, however long the SDK call takes |
| PumpDriveControl.PollClockMonotone | impl/de/cetoni/pumps/syringepumps/PumpDriveControlService/PumpDriveControlService_real.py:104-108 | a later poll never starts earlier on the wall clock |
| PumpDriveControl.CalibrationPollsBounded | impl/de/cetoni/pumps/syringepumps/PumpDriveControlService/PumpDriveControlService_real.py:104-108 | a "finished" answer counts only within the first ceil(period / 100) polls; with every poll taking d ms, poll n starts at d * n |
| PumpDriveControl.SteadyPollClock | impl/de/cetoni/pumps/syringepumps/PumpDriveControlService/PumpDriveControlService_real.py:104-108 | when every poll before n takes d ms, poll n starts d * n ms after the timer |
| PumpDriveControl.DriveStateLabel | impl/de/cetoni/pumps/syringepumps/PumpDriveControlService/PumpDriveControlService_real.py:197 | the label is "Enabled" iff the system is operational and the pump enabled, else "Disabled" |
| PumpDriveControl.PumpDriveControlService.RestoreLastDrivePositionCounter | impl/de/cetoni/pumps/syringepumps/PumpDriveControlService/PumpDriveControlService_real.py:83-96 | a stored counter is restored; a missing section or option (both a `KeyError`) restores nothing and is not an error; an unparsable counter raises |
| PumpDriveControl.PumpDriveControlService.WaitCalibrationFinished | impl/de/cetoni/pumps/syringepumps/PumpDriveControlService/PumpDriveControlService_real.py:99-109 | the polling loop, its timer charged with each poll's sleep and SDK call, returns the reference outcome: the first "finished" answer in time, False on expiry, an error if a poll raised |
| PumpDriveControl.PumpDriveControlService.InitializePumpDrive | impl/de/cetoni/pumps/syringepumps/PumpDriveControlService/PumpDriveControlService_real.py:112-139 | it calibrates; an SDK error in the wait fails; an unfinished calibration fails iff the last error code is not 0 |
| PumpDriveControl.PumpDriveControlService.EnablePumpDrive | impl/de/cetoni/pumps/syringepumps/PumpDriveControlService/PumpDriveControlService_real.py:141-159 | `clear_fault` is sent only to a faulted pump, `enable(True)` always; the pump ends enabled and not faulted |
| PumpDriveControl.PumpDriveControlService.DisablePumpDrive | impl/de/cetoni/pumps/syringepumps/PumpDriveControlService/PumpDriveControlService_real.py:161-177 | only `enable(False)` is sent |
| PumpDriveControl.SubscribePumpDriveState | impl/de/cetoni/pumps/syringepumps/PumpDriveControlService/PumpDriveControlService_real.py:179-202 | one label per tick, the tick's `DriveStateLabel`: "Enabled" iff operational and enabled at that tick, otherwise "Disabled" |
| PumpDriveControl.SubscribeFaultState | impl/de/cetoni/pumps/syringepumps/PumpDriveControlService/PumpDriveControlService_real.py:205-226 | one value per tick, the fault state whatever the system state |
| SyringeConfiguration.CheckNotNegative | impl/de/cetoni/pumps/syringepumps/SyringeConfigurationController/SyringeConfigurationController_real.py:86-99 | a value passes iff it is >= 0 (zero included); the error names the parameter and carries the value |
| SyringeConfiguration.SyringeConfigurationController.SetSyringeParameters | impl/de/cetoni/pumps/syringepumps/SyringeConfigurationController/SyringeConfigurationController_real.py:70-108 | success iff both values are >= 0; the inner diameter is checked first; `set_syringe_param` gets both values unchanged only on success |
| SyringeConfiguration.SubscribeParameter | impl/de/cetoni/pumps/syringepumps/SyringeConfigurationController/SyringeConfigurationController_real.py:110-130 | one value per tick, the held reading, with no change detection |
| SyringeConfiguration.SubscriptionRepeatsWhileDegraded | impl/de/cetoni/pumps/syringepumps/SyringeConfigurationController/SyringeConfigurationController_real.py:122-125 | a degraded tick repeats the value published before it (the subscription value at the first tick) |
| FluidDosing.CommandInstance.Apply | new/pumps/syringepumps/syringepump_service/feature_implementations/pumpfluiddosingservice_impl.py:165-167 | an update is recorded and sets status and progress, and the remaining time only when it carries one |
| FluidDosing.TimerPeriodMs | new/pumps/syringepumps/syringepump_service/feature_implementations/pumpfluiddosingservice_impl.py:162-169 | the duration timer's period is a whole number of seconds below a day: the estimate rounded down to whole seconds, wrapped round to the day before when the estimate is negative |
| FluidDosing.TimerPeriodEdges | new/pumps/syringepumps/syringepump_service/feature_implementations/pumpfluiddosingservice_impl.py:162-173 | an estimate under one second gives a period of 0, so no iteration runs; a negative estimate under a day from 0 gives a period of almost a day, so the loop runs |
| FluidDosing.NegativeFlowEstimate | new/pumps/syringepumps/syringepump_service/feature_implementations/pumpfluiddosingservice_impl.py:162 | a negative flow (as `GenerateFlow` passes for aspiration) whose volume per second is under half the target gives a negative estimate |
| FluidDosing.Poll | new/pumps/syringepumps/syringepump_service/feature_implementations/pumpfluiddosingservice_impl.py:173-181 | one iteration counts the remaining time down by 100 ms and, when the 500 ms message timer has expired by the wall clock, publishes dosed/target and restarts the timer, or ends on a zero target; the wall clock then advances by the time the iteration took |
| FluidDosing.TrackDosage | new/pumps/syringepumps/syringepump_service/feature_implementations/pumpfluiddosingservice_impl.py:169-182 | the loop, with both timers on the wall clock and the remaining time counted per iteration, publishes exactly the reference loop's updates and ends where it ends |
| FluidDosing.WaitDosageFinished | new/pumps/syringepumps/syringepump_service/feature_implementations/pumpfluiddosingservice_impl.py:138-192 | the instance receives exactly the reference dosage's updates, and it returns or raises as the reference says |
| FluidDosing.LoopEndsWhenStoppedOrExpired | new/pumps/syringepumps/syringepump_service/feature_implementations/pumpfluiddosingservice_impl.py:173-182 | every iteration ran while the pump was pumping and the duration timer had not expired by the wall clock, and a completed loop stops at the first iteration where either fails; an aborted one had a zero target |
| FluidDosing.ProgressMessages | new/pumps/syringepumps/syringepump_service/feature_implementations/pumpfluiddosingservice_impl.py:174-181 | every message reports progress dosed/target and the estimate counted down by 100 ms per iteration, however long the iterations took; the k-th comes at an iteration starting at least (k+1) x 500 ms of wall time after the timer's start |
| FluidDosing.DosageTerminal | new/pumps/syringepumps/syringepump_service/feature_implementations/pumpfluiddosingservice_impl.py:184-191 | a dosage returns iff its flow was non-zero and its loop completed; its last update then has progress 1, remaining 0, and success iff the pump stopped, is not faulted and is enabled |
| FluidDosing.DosageOpening | new/pumps/syringepumps/syringepump_service/feature_implementations/pumpfluiddosingservice_impl.py:162-167 | after the early report (idle pump), the first update is running, progress 0, remaining the estimate `target/flow + 2` s |
| FluidDosing.ZeroFlowFails | new/pumps/syringepumps/syringepump_service/feature_implementations/pumpfluiddosingservice_impl.py:156-162 | a flow still 0 after the retry reports finished-with-error, progress 1, and ends with a division by zero |
| FluidDosing.RetryReplacesZeroFlow | new/pumps/syringepumps/syringepump_service/feature_implementations/pumpfluiddosingservice_impl.py:151-155 | the retried flow read matters only when the first read is 0, and then replaces it |
| FluidDosing.PassReading | new/pumps/syringepumps/syringepump_service/feature_implementations/pumpfluiddosingservice_impl.py:78-88 | an operational pass reads the pump; a degraded one reads 0 for the flow rate and keeps the held value for the others |
| FluidDosing.UpdaterPass | new/pumps/syringepumps/syringepump_service/feature_implementations/pumpfluiddosingservice_impl.py:79-82 | a pass publishes iff the force flag is set (or a subscription arrived) or the value is not close to the last published one, and then clears the flag; it fails on a still-unbound local |
| FluidDosing.BoundNeverFails | new/pumps/syringepumps/syringepump_service/feature_implementations/pumpfluiddosingservice_impl.py:85-113 | once both locals are bound an updater never fails |
| FluidDosing.FlowRateNeverFails | new/pumps/syringepumps/syringepump_service/feature_implementations/pumpfluiddosingservice_impl.py:76-83 | the flow rate updater, started forced, never fails |
| FluidDosing.GatedFailsIffFirstPassDegraded | new/pumps/syringepumps/syringepump_service/feature_implementations/pumpfluiddosingservice_impl.py:85-93 | a gated updater started forced fails exactly when its first pass is degraded |
| FluidDosing.DegradedGatedIsQuiet | new/pumps/syringepumps/syringepump_service/feature_implementations/pumpfluiddosingservice_impl.py:95-103 | an unforced gated updater that has published what it holds stays quiet while degraded and unsubscribed |
| FluidDosing.DegradedFlowRateDropsToZero | new/pumps/syringepumps/syringepump_service/feature_implementations/pumpfluiddosingservice_impl.py:76-83 | after publishing a non-zero flow, degraded unsubscribed passes publish exactly one 0 |
| FluidDosing.DegradedFlowQuiet | new/pumps/syringepumps/syringepump_service/feature_implementations/pumpfluiddosingservice_impl.py:76-83 | a flow rate updater that has published 0 stays quiet while degraded and unsubscribed |
| FluidDosing.PropertyUpdater.constructor | new/pumps/syringepumps/syringepump_service/feature_implementations/pumpfluiddosingservice_impl.py:65-68 | an updater starts with its force flag set and nothing published |
| FluidDosing.PropertyUpdater.OnSubscription | new/pumps/syringepumps/syringepump_service/feature_implementations/pumpfluiddosingservice_impl.py:120-121 | a subscription sets the force flag |
| FluidDosing.PropertyUpdater.Pass | new/pumps/syringepumps/syringepump_service/feature_implementations/pumpfluiddosingservice_impl.py:77-82 | one pass changes the flag, the locals and the published values as the reference pass says |
| FluidDosing.PropertyUpdater.Run | new/pumps/syringepumps/syringepump_service/feature_implementations/pumpfluiddosingservice_impl.py:76-113 | the updater thread publishes exactly the reference run's values and fails exactly when it does |
| FluidDosing.PumpFluidDosingService.constructor | new/pumps/syringepumps/syringepump_service/feature_implementations/pumpfluiddosingservice_impl.py:65-118 | four fresh updaters, all forced; only the flow rate updater reads while degraded |
| FluidDosing.PumpFluidDosingService.StopDosage | new/pumps/syringepumps/syringepump_service/feature_implementations/pumpfluiddosingservice_impl.py:133-136 | when degraded it raises and sends nothing; otherwise it stops the pump |
| FluidDosing.PumpFluidDosingService.Dose | new/pumps/syringepumps/syringepump_service/feature_implementations/pumpfluiddosingservice_impl.py:202-210 | degraded: raises before any pump call; invalid parameters: raises before any pump call; otherwise it starts the pump and tracks the dosage |
| FluidDosing.PumpFluidDosingService.SetFillLevel | new/pumps/syringepumps/syringepump_service/feature_implementations/pumpfluiddosingservice_impl.py:194-210 | as `Dose`, starting the pump with `set_fill_level(FillLevel, FlowRate)` |
| FluidDosing.PumpFluidDosingService.DoseVolume | new/pumps/syringepumps/syringepump_service/feature_implementations/pumpfluiddosingservice_impl.py:212-228 | as `Dose`, starting the pump with `pump_volume(Volume, FlowRate)` |
| FluidDosing.PumpFluidDosingService.GenerateFlow | new/pumps/syringepumps/syringepump_service/feature_implementations/pumpfluiddosingservice_impl.py:230-244 | as `Dose`, starting the pump with `generate_flow(FlowRate)` |
| FluidDosing.PumpFluidDosingService.FlowRateOnSubscription | new/pumps/syringepumps/syringepump_service/feature_implementations/pumpfluiddosingservice_impl.py:120-121 | the flow rate updater's force flag is set |
| FluidDosing.PumpFluidDosingService.MaxFlowRateOnSubscription | new/pumps/syringepumps/syringepump_service/feature_implementations/pumpfluiddosingservice_impl.py:123-124 | the maximum flow rate updater's force flag is set |
| FluidDosing.PumpFluidDosingService.SyringeFillLevelOnSubscription | new/pumps/syringepumps/syringepump_service/feature_implementations/pumpfluiddosingservice_impl.py:126-127 | the fill level updater's force flag is set |
| FluidDosing.PumpFluidDosingService.MaxSyringeFillLevelOnSubscription | new/pumps/syringepumps/syringepump_service/feature_implementations/pumpfluiddosingservice_impl.py:129-130 | the maximum fill level updater's force flag is set |
| FluidDosing.PumpFluidDosingService.Stop | new/pumps/syringepumps/syringepump_service/feature_implementations/pumpfluiddosingservice_impl.py:246-247 | the stop event is set |

## Left out

- Threads, executors and interleaving: each updater or subscription loop runs alone over the ticks it sees. A new subscription is a flag on the pass it arrives before. `stop` only sets a flag; the runs are given the ticks seen before it.
- Clocks and `time.sleep`: loop iterations are steps. `_wait_dosage_finished` counts in whole milliseconds, and its estimate is `floor((target / flow + 2) * 1000)` ms.
- FluidDosing.TrackDosage: the wall clock is given as the time each iteration takes (`elapsedMs`, at least 1 ms). The source sleeps `POLLING_TIMEOUT.seconds`, which is 0 s, so an iteration takes as long as its pump reads. Both timers are read when an iteration starts, and the message timer is restarted at that same instant rather than after the pump reads.
- FluidDosing.TimerPeriodMs: the period is taken from the estimate in whole milliseconds. `timedelta` first rounds the seconds to whole microseconds, so an estimate less than half a microsecond below a whole second gets one second more in the source.
- Floating point: every reading is an exact `real`, and `math.isclose` is its formula over reals with `abs_tol` 0.
- The flow's time unit: the flow is taken as already given per second, so the division by `get_flow_unit().time_unitid.value` is not modelled.
- FluidDosing.WaitDosageFinished: the target volume is read once. The source calls `get_target_volume()` twice and could, in principle, get two different answers.
- FluidDosing.WaitDosageFinished: a zero target raises at the first progress message. The model drops that message's `status = running` assignment, which the source makes just before the division.
- FluidDosing.WaitDosageFinished: the pump reads inside the loop that are only logged (`get_fill_level`) are not modelled, and neither are `read_last_error` calls.
- FluidDosing.PumpFluidDosingService.Dose: `validate(...)` is not part of this model. Its verdict is the parameter `valid`, and its error is `ValidationFailed`. `GenerateFlow` passes it the magnitude of the flow rate.
- The `requires_operational_system` decorator on `StopDosage` is not modelled: it only prints debug output and then calls the command.
- FluidDosing.PropertyUpdater.Run: Python's unbound-local error (a gated updater whose first pass is degraded, or a stale `flow_rate`) is modelled as the thread failing and publishing nothing more.
- The SiLA error messages' text and the fully qualified ids of the fluid dosing feature are not modelled. Errors carry the command name; force monitoring carries the full command id.
- PumpDriveControl.ParseInt: accepts an optional sign and decimal digits. Python's `int()` also allows surrounding whitespace and underscores between digits, which are not modelled.
- PumpDriveControl.RestoreOutcomeOf: the configuration is a map of sections. The `DEFAULT` section inheritance of `ConfigParser` is not modelled. Indexing a `ConfigParser` with a missing section raises `KeyError`, as indexing a section with a missing option does, so both are caught by the handler at lines 94-96 and the `NoSectionError` handler at lines 92-93 is never reached. The model has one outcome for both, `NotStored`.
- PumpDriveControl.PumpDriveControlService.WaitCalibrationFinished: each poll's wall-clock duration is an input of at least 100 ms (the sleep plus the `is_calibration_finished()` call), and the timer is read when a poll starts.
- `qmixbus.PollingTimer` belongs to the SDK and is not part of this model. `is_expired()` is taken to mean that the wall-clock time since the timer started is at least its period. This is the reading behind PumpDriveControl.CalibrationWait and FluidDosing.LoopRuns.
- PumpDriveControl.PumpDriveControlService.InitializePumpDrive: the 0.2 s sleep is not modelled, and `read_last_error()` is passed in as its code.
- Discovery: `device_by_name` is not part of this model. It is modelled as a lookup by (unique) name, and a missing name stops the scan with `UndeclaredDevice`.
- Discovery.GetAvailablePumps: a pump's `ContiFlowPump` wrapper and device handles are not modelled. They appear only as a ContiFlow flag and the unit index the device receives. When the probe answers, the source only rebinds its local `pump` and then passes `handle=pump.handle` to `PumpDevice.convert_to_class`. That method is not part of this model. That the converted device is a ContiFlow pump exactly when the probe answered is an assumption about it, and the same holds for Discovery.PumpKindAfterIsLastNamed and Discovery.ConvertPump.
- `get_availabe_controllers`, `get_availabe_io_channels` and `add_channels_to_device`: these scans and the channel helper are not part of the modelled core. `create_servers` takes their results (and those of the other scans) as inputs.
- `enable_axis_systems`, `Application.run`/`stop`, `start_servers`/`stop_servers`, `open_bus` and `_start_bus_monitoring`: left out as process lifecycle, or as a single unconditional SDK call.
- ServerLayout.CreateServers: server objects are described by their class, port, name, description and (for syringe pumps) first valve. The other constructor arguments (`io_channels`, device properties, simulation mode) are not modelled.
- Qmix.Pump.ClearFaultState and Qmix.Pump.SetEnabled give the SDK calls their nominal effect (no fault, the requested enabled state). The SDK itself is not part of this model.
- The guard codes `heartbeat_err_occurred` / `heartbeat_err_resolved` belong to the SDK. They are parameters, and the lemmas that need them distinct say so.
- Logging calls, `print` and the gRPC/SiLA framework plumbing are not modelled.
