# Verified model of the spacecraft FDIR system

The FDIR system is five Linux processes: the on-board computer (OBC), which runs a watchdog, and its four
children POWER, THERMAL, COMMS and LOGGER. They share a telemetry bus in shared memory guarded by one
semaphore, a bounded priority message queue that carries alerts to the logger, and signals by which the OBC
broadcasts the mode, SAFE or NORMAL. The logger keeps a flight-recorder file.

This project models the system in Dafny and proves what its parts guarantee together. `dafny verify
dfyconfig.toml` checks all of it.

## How it is modelled

**The running system** (`Spacecraft`) is one labelled transition system with ten threads. Every thread has an
explicit program counter, and one step is one lock operation, one queue operation, one load or store of data
that no mutex guards, or one update of data under its mutex. A lock held across a blocking call is therefore
visible, and so is a signal that is handled between a load of `g_safe_mode` and the store of what was loaded. An action is a step of a thread, with the value
that `rand()` (or the FIFO) returns, or the handling of one pending signal by one child. `Execution` is a
finite run from power-up; `Settling` speaks of infinite ones. The one history variable is `Obc.last`, the mode
broadcast last, which no step reads; everything else that is said about the past is a function of the run.

- `Locks`, `Progress`: mutual exclusion, lock order, freedom from deadlock, loop bodies that end.
- `Ledger`: what becomes of every alert that is sent; `MessageQueue` is the queue itself.
- `Telemetry`, `ModeChanges`, `PlantRuns`, `BatteryRuns`: what the watchdog sees, what it decides, how the plant evolves
  and what alerts that forces.
- `SafeMode`, `BusMode`: agreement of the children and of the bus on the mode, with the exact condition under which
  the bus is right.
- `Witnesses`, `StaleBus`, `LostBroadcast`: runs built step by step in which the bus is wrong, and in which a broadcast
  is lost.
- `Fairness`, `Settling`, `Delivery`, `FairSchedule`: under a fair scheduler nobody starves, every run ends in NORMAL
  mode for ever, every CRITICAL alert reaches the file, and such runs exist.
- `Latch`, `LatchRuns`: the three fault latches against a specification by history, with every threshold, source and
  wording given outright.
- `CommsRuns`: what the downlink draws, shows and sends, and what the uplink answers.

**The processes, one thread at a time** (`PowerUnit`, `ThermalUnit`, `CommsUnit`, `ObcUnit`, `LoggerUnit`,
`SharedMemory`) are classes whose methods update fields in loops, as the C code does. They are proved against
functions of the values drawn (`BatteryPasses`, `SensorPasses`, `DownlinkPasses`, `BroadcastsOf`), and those
are tied to the steps of the transition system by `PassIsTwoSteps`, `PassIsFiveSteps`, `CopyIsFourSteps` (power
and thermal), `PassIsItsSteps` (comms and logger), `RestOfPass` and `DecisionStep`.

**The flight recorder** (`Records`, `FlightLog`, `CrashLog`, `Float32`) is modelled byte by byte and file call
by file call. `MissionLog` joins it to the running system: it builds the file of a run by the file calls of the
logger's steps, shows that it is the log of the alerts that were logged, and reads them back.

**Shutdown** (`Reaping`) is a transition system of its own.

Every float the system assigns is a whole number and so is every threshold, so plant values are whole numbers
here; `Float32` shows that those numbers survive the four bytes of the log.

## Where the code differs from its comments

The model follows the code.

- `elapsed` counts passes of a loop, not seconds. `ECLIPSE_START` is 10 and
  `THERMAL_SPIKE` is 30 (common.h:41-43), not the 90 seconds of the comment at thermal/thermal_threads.c:12.
- The battery drains by 8 to 15 (power/power_threads.c:76), not by 2 to 5 as the comments above it say.
- The log header has 116 bytes and an entry 136 (common.h:137-159), not 128 each.
- Alerts are raised at the thresholds themselves (`<=`, `>=`), not only beyond them.
- A WARNING does not set the latch; only a CRITICAL does.
- `msgq_send` and the priorities are used by the children; the OBC sends no alerts.
- The heater thread is live code, but the zone temperatures it looks at never fall below 15 degrees, so in no
  run is the heater switched on (`PlantRuns.PlantHolds`).
- The watchdog's write of the mode can be undone by the power process, even after that process has handled the
  broadcast (`StaleBus.BusMayDisagree`); `BusMode.BusIsRightIff` says exactly when the bus is right.

## Hypotheses

- Shutdown has not begun: the logger runs, and all four children are alive with their handlers installed.
- `SafeMode.Timely`: when the OBC begins a broadcast, every child has handled the signals of the one before. Nothing
  in the code guarantees it: signals to the OBC cut its `sleep` short. `LostBroadcast.BroadcastMayBeLost` is a run
  without it in which all four children end in SAFE mode after NORMAL was broadcast. What is proved of one child
  (`BroadcastIsFollowed`, `BusIsRightIff`) asks it of that child and that broadcast alone.
- `Fairness.FairSteps` and `Fairness.FairSignals`: a thread whose next step is enabled infinitely often takes it
  (a lock, or room in the queue, that becomes free again and again is in the end granted), and a signal that can be
  handled infinitely often is handled. That nobody starves is not assumed: it follows.

Safety results need none of the last two items unless their statement says so.

## Model

| member | source | states |
|---|---|---|
| Locks.LockInvStep | power/power_threads.c:103-173 | every step keeps: each lock names exactly the thread that stands inside its critical section, and the queue never holds more than ten messages |
| Locks.LocksHold | thermal/thermal_threads.c:122-182 | so in every state of every run, including those where a mutex is held across a blocking send |
| Locks.SendWaitsWhenFull | ipc/ipc.h:14 | in every run a thread that is about to send waits exactly while ten messages are queued, and there are never more |
| Locks.OtherSemStep | ipc/shm_manager.c:128-145 | no thread enters or leaves another thread's critical section of the semaphore |
| Progress.LocksAreTakenInOrder | comms/comms_threads.c:66-162 | a thread that holds a lock waits only for something later in the order semaphore, subsystem mutex, room in the queue |
| Progress.NoWaitCycle | power/power_threads.c:156-173 | no state has a cycle of waiting threads, nor a chain of more than two waits |
| Progress.BodyStepsComeCloser | logger/logger.c:56-101 | every step inside a loop body, and every handling of a signal, lowers one measure, although sends refill the queue |
| Progress.SomeoneMoves | power/power_threads.c:131-144 | freedom from deadlock: unless every thread sleeps, some loop body can take its next step, a pending signal first |
| Progress.BodyRunsEnd | main.c:65-99 | however steps and signals interleave, only boundedly many happen before some thread must wake up |
| Progress.IdleHoldsNothing | thermal/thermal_threads.c:125-155 | when all threads sleep no lock is held and the queue is empty |
| Progress.Quiesce | logger/logger.c:78-94 | from every state that keeps the lock discipline, loop bodies alone can reach such a state of rest |
| Progress.AnyThreadCanRun | main.c:126-135 | every run can be continued so that a chosen thread takes a step |
| Fairness.EveryThreadSteps | power/power_threads.c:103-173 | under a fair scheduler no thread starves: through all contention for semaphore, mutexes and queue, each takes another step |
| Fairness.FreeAgain | thermal/thermal_threads.c:122-182 | every lock is released, and the full queue drained, again and again |
| Fairness.EveryInboxDrains | signals/signal_handler.c:26-39 | in a fair and timely run every child has sooner or later handled every signal sent to it |
| Delivery.CriticalIsLogged | logger/logger.c:78-94 | in every fair run a CRITICAL alert that is queued or in the logger's hand is in the end the newest entry of the log |
| Delivery.CriticalReachesFile | logger/file_io.c:58-89 | and the last entry of the file, where it reads back as itself |
| FairSchedule.FairRunExists | main.c:114-124 | there is an infinite run that is fair and in which every broadcast is timely |
| Ledger.Movement | ipc/msgq_manager.c:67-106 | an action sends one alert, or receives the head of the queue, or disposes of the one in hand, or leaves all of them alone |
| Ledger.AlertsAreConserved | logger/logger.c:56-101 | at every point of every run the multiset of alerts sent equals queued + in the logger's hand + logged + skipped, and no CRITICAL alert is among the skipped |
| Ledger.PauseSkips | logger/logger.c:89-100 | in every run, an alert handled while the logger is paused is skipped unless it is CRITICAL, every other alert handled becomes the newest entry of the log, and nothing else changes either |
| Ledger.SeverityInSendOrder | ipc/ipc.h:14-23 | of each severity, the alerts handled followed by those on their way are the alerts sent, in order |
| Ledger.CriticalLogIsPrefix | logger/logger.c:89-94 | the CRITICAL entries of the log are a prefix of the CRITICAL alerts in send order, the rest being in hand or queued |
| Ledger.NotOvertaken | ipc/msgq_manager.c:20-41 | a CRITICAL alert at place i of the queue is at place i - r after r receipts, whatever is sent meanwhile |
| Ledger.ReceivedAfterItsPredecessors | power/power.c:38-43 | and is received after exactly those i, at most nine |
| Ledger.QueueIsOrdered | ipc/msgq_manager.c:20-41 | in every run the queue stays in the order of delivery |
| Ledger.QueueIsOrderedBySeverity | ipc/ipc.h:21-23 | in every run no other severity waits before a CRITICAL alert and no INFO before a WARNING |
| MessageQueue.OrderIsBySeverity | power/power.c:38-41 | ordering by priority is exactly that ordering by severity |
| Ledger.StaleDecisionsAreBounded | logger/logger.c:58-69 | the messages handled on an outdated g_paused are at most as many as the mode changes delivered to the logger |
| MessageQueue.InsertKeepsSeverity | ipc/ipc.h:17-23 | a new message goes behind all those of its own severity, and the order within every severity stays as it was |
| MessageQueue.DeliveryOrderIsPosix | ipc/msgq_manager.c:92-106 | receiving from the ordered queue is receiving the oldest message of the highest priority from the messages in order of arrival, and leaves the others in theirs |
| MessageQueue.Pick | ipc/msgq_manager.c:86-91 | the message mq_receive takes has the highest priority and is the oldest with it |
| MessageQueue.MsgQueue.Create | ipc/msgq_manager.c:20-41 | a new queue is empty |
| MessageQueue.MsgQueue.Send | ipc/msgq_manager.c:67-84 | a message is accepted exactly if fewer than ten are held, and takes its place by severity |
| MessageQueue.MsgQueue.Receive | ipc/msgq_manager.c:92-107 | the message taken has at least the priority of all that remain, and nothing else leaves; after an INFO only INFO remains, after a WARNING no CRITICAL |
| Telemetry.PowerTelemetryIsCoherent | power/power_threads.c:163-173 | battery and solar reading on the bus are a pair that the power process held at one earlier instant |
| Telemetry.ThermalTelemetryIsCoherent | thermal/thermal_threads.c:172-182 | the four temperatures on the bus were held together at one earlier instant |
| Telemetry.SnapshotIsCoherent | main.c:67-74 | so was what the watchdog decides on: one pair and one temperature tuple from the bus as it stood at one instant |
| Telemetry.BusMovesForward | power/power_threads.c:156-177 | the bus never goes back in time: what it shows at two looks was held at two instants in that order |
| Telemetry.SnapshotsGoForward | main.c:67-74 | nor do the values behind two snapshots of the watchdog |
| PlantRuns.PlantHolds | thermal/thermal_threads.c:28-46 | in every run the battery is within 0 to 100 and full before the eclipse, the panel gives 0 or 90 to 129 W by the eclipse clock, the CPU follows its trajectory, and the heater is never on |
| PlantRuns.PowerEvolves | power/power_threads.c:30-86 | within the eclipse the battery never rises, after it never falls, and it gains at most 6 a charging step |
| PlantRuns.CpuEvolves | thermal/thermal_threads.c:34-46 | the CPU trajectory advances by exactly the readings taken |
| PlantRuns.SpikeIsReportedOnce | thermal/thermal_threads.c:59-107 | in every run the sensor's alerts are a prefix of CRITICAL 110 then INFO 80; there is no WARNING |
| BatteryRuns.EclipseEnvelope | power/power_threads.c:74-79 | in every run, within the eclipse, k drains take the level from b to between max(0, b - 15k) and max(0, b - 8k) |
| BatteryRuns.SunEnvelope | power/power_threads.c:80-86 | after it, k charges take it to between min(100, b + 3k) and min(100, b + 6k) |
| BatteryRuns.EclipseTimeline | power/power_threads.c:103-128 | in every run up to the end of the eclipse: silence before the 6th drain, an alert once the 10th is judged, latch set and CRITICAL the latest alert once the 12th is |
| BatteryRuns.SunTimeline | power/power_threads.c:130-144 | after it, 7 charges lift the battery above 20 and clear the latch once judged, 34 fill it |
| ModeChanges.WhyEnter | main.c:77-86 | every switch to SAFE rests on a battery sample of at most 10 or a CPU sample of at least 95 |
| ModeChanges.WhyLeave | main.c:88-98 | every switch to NORMAL rests on a battery sample above 20 taken with power from the panel, and a CPU sample below 85 |
| ModeChanges.WhenItDecides | main.c:76-98 | and the other way round: on a bus that said NORMAL the watchdog begins to broadcast SAFE if the battery sample is at most 10 or the CPU sample at least 95, on one that said SAFE it begins to broadcast NORMAL if the battery sample is above 20, the panel gave power and the CPU sample is below 85, and otherwise it broadcasts nothing |
| ModeChanges.EverySecondPass | main.c:124-135 | in every run, of n passes of the main loop n / 2 call the watchdog |
| ModeChanges.NoChattering | common.h:49-57 | between the samples behind a switch to SAFE and those behind a later switch to NORMAL lie at least two charging steps or three CPU readings |
| ModeChanges.EmergenciesDiffer | main.c:77-98 | the second switch to SAFE is for the other reason than the first |
| ModeChanges.AtMostTwoEmergencies | main.c:77-98 | in no run does the broadcast mode switch to SAFE more than twice |
| SafeMode.BroadcastIsFollowed | signals/signal_handler.c:116-134 | a broadcast that finds nothing pending for a child is obeyed by it, whatever became of other broadcasts and children: until the next one the child has the mode or exactly that signal pending |
| SafeMode.ChildrenAgree | signals/signal_handler.c:116-134 | in every timely run each child the broadcast has reached is in the mode broadcast last or has exactly that signal pending |
| SafeMode.OnlyTimelyBroadcastsAreObeyed | signals/signal_handler.c:26-39 | a broadcast is obeyed in every order of delivery if and only if no opposite signal was pending |
| LostBroadcast.BroadcastMayBeLost | signals/signal_handler.c:26-39 | a run that ends with NORMAL broadcast and written, no signal pending, and all four children in SAFE mode |
| BusMode.BusIsRightIff | power/power_threads.c:163-173 | after the watchdog's write for a broadcast that found nothing pending for the power process, and before the next broadcast, the bus shows the mode broadcast if and only if no store by the bus writer has come since, or the load behind the latest one came after the power process handled the broadcast, or that process was in the mode already |
| BusMode.BusAgrees | main.c:77-98 | once the power process has handled the broadcast, the watchdog's write or any bus-writer pass that loads the mode after that makes the bus show the mode broadcast last, and so it stays until the next broadcast |
| StaleBus.BusMayDisagree | power/power_threads.c:156-173 | a load before the handler and a store after it break the claim: a timely run that ends with SAFE broadcast, written and handled by the power process, watchdog and bus writer asleep, and NORMAL on the bus |
| Settling.FactStays | main.c:77-98 | each stage on the way to NORMAL, once reached, is never lost |
| Settling.Reaches | power/power_threads.c:30-86 | however far a fair run has come, every thread comes again to every chosen step of its loop |
| Settling.BatteryRecovers | power/power_threads.c:80-86 | after the eclipse the battery climbs by at least 3 a pass and stays there |
| Settling.NormalIsBroadcast | main.c:88-98 | in every fair run NORMAL is in the end the mode broadcast last, with healthy telemetry |
| Settling.SystemSettles | main.c:77-98 | and from some point on, for ever, the last broadcast, the bus and all four children are in NORMAL mode |
| Latch.LatchRefinesHistory | power/power_threads.c:104-142 | the latch is set exactly if a critical reading has come since the last nominal one, and each alert is the one that the history calls for |
| Latch.ReportsAreWellShaped | comms/comms_threads.c:102-142 | the alerts have the form (WARNING* CRITICAL INFO)*, cut anywhere |
| LatchRuns.LatchFollowsReadings | thermal/thermal_threads.c:60-107 | in every run of the whole system, for each of the three latches, the flag is that function of the readings judged, the alerts are those that this history calls for, with their values and thresholds, and their severities have that form |
| LatchRuns.BatteryAlertsAreExact | power/power_threads.c:104-142 | in every run each alert of the battery thread names POWER, gives a reading that was judged, and has the threshold, the range of values and the wording of its severity |
| LatchRuns.CpuAlertsAreExact | thermal/thermal_threads.c:59-107 | the same for the CPU temperature |
| LatchRuns.SignalAlertsAreExact | comms/comms_threads.c:102-142 | the same for the signal quality |
| CommsRuns.SignalsAreDrawn | comms/comms_threads.c:71-93 | in every run the quality is 0, 5 to 24 or 60 to 99, the bus shows one of the ranges, and what is written to the bus is the present quality |
| CommsRuns.QualityFollowsDraws | comms/comms_threads.c:83-90 | in every run a first draw divisible by 20 makes the second a quality of 5 to 24, any other first draw one of 60 to 99, and safe mode gives 0 |
| CommsRuns.SnapshotsArePeriodic | comms/comms_threads.c:146-155 | in every run exactly every 30th pass that comes that far sends a snapshot, with the present quality and threshold 0, and nothing else is sent as one |
| CommsRuns.UplinkAnswersSnapshots | comms/comms.c:44-105 | in every run the uplink sends exactly one alert for each SNAPSHOT it has read, and none for any other command |
| PowerUnit.PassIsTwoSteps | power/power_threads.c:66-148 | the steps of the system model inside one pass of the battery thread are the pass the class runs |
| PowerUnit.CopyIsFourSteps | power/power_threads.c:162-168 | the same for the power bus writer, as long as no signal is handled in between |
| PowerUnit.PowerProcess.constructor | power/power.c:78-84 | the initial state |
| PowerUnit.PowerProcess.SolarThread | power/power_threads.c:17-57 | after any number of passes the eclipse flag matches the pass number, and the panel gives 0 W exactly in eclipse |
| PowerUnit.PowerProcess.BatteryPassOnce | power/power_threads.c:72-144 | one pass: the level clamped after a drain of 8 to 15 or a charge of 3 to 6 by the draw, the latch, and the alert with its value, threshold and wording |
| PowerUnit.PowerProcess.BatteryThread | power/power_threads.c:66-148 | level, latch and alerts after any number of passes |
| PowerUnit.PowerProcess.BusWriterPass | power/power_threads.c:156-177 | the bus gets panel, level and the process's own mode, and nothing else changes |
| PowerUnit.DrainEnvelope | power/power_threads.c:74-79 | after k draining passes from b the level is between max(0, b - 15k) and max(0, b - 8k) |
| PowerUnit.ChargeEnvelope | power/power_threads.c:80-86 | after k charging passes it is between min(100, b + 3k) and min(100, b + 6k) |
| PowerUnit.DrainReports | power/power_threads.c:103-128 | while draining, the latch is set exactly at a critical level, CRITICAL is sent exactly then, and silence means a level above 20 |
| PowerUnit.FullBatteryTimeline | power/power_threads.c:74-128 | from a full battery: an alert by the 10th drain, no CRITICAL before the 6th, a CRITICAL by the 12th |
| PowerUnit.RecoveryTimeline | power/power_threads.c:80-142 | seven charging passes always give more than 20 and a clear latch, 34 a full battery |
| ThermalUnit.PassIsFiveSteps | thermal/thermal_threads.c:26-109 | the steps of the system model inside one sensor pass are the pass the class runs |
| ThermalUnit.CopyIsFourSteps | thermal/thermal_threads.c:171-182 | the same for the thermal bus writer |
| ThermalUnit.ExactRun | thermal/thermal_threads.c:34-107 | for all random values: CPU 110 - 5(n - 30) at pass n in 30..37, so the clamp at 35 is never reached; CRITICAL 110 at pass 30, INFO 80 at pass 36, nothing else |
| ThermalUnit.ThermalProcess.constructor | thermal/thermal.c:75-83 | the initial state |
| ThermalUnit.ThermalProcess.SensorPassOnce | thermal/thermal_threads.c:26-109 | one pass: four temperatures by the draws, the latch, and the alert with its value, threshold and wording |
| ThermalUnit.ThermalProcess.SensorThread | thermal/thermal_threads.c:16-113 | any number of passes from power-up give the exact trajectory and the exact alerts |
| ThermalUnit.ThermalProcess.HeaterPassOnce | thermal/thermal_threads.c:122-158 | the heater goes on only with a zone at 5 degrees or less, off only with all zones above 10, with a WARNING exactly on switching on |
| ThermalUnit.ThermalProcess.BusWriterPass | thermal/thermal_threads.c:165-186 | the bus gets the four temperatures and nothing else changes |
| CommsUnit.SuspensionIsInvisible | comms/comms_threads.c:71-155 | leaving out the snapshots, the downlink's alerts are those of a latch that judged only the readings taken outside safe mode |
| CommsUnit.PassIsItsSteps | comms/comms_threads.c:69-144 | the steps of the system model inside one downlink pass are the pass the class runs |
| CommsUnit.DispatchIsByText | comms/comms.c:49-98 | the dispatch of the system model by the text of the command |
| CommsUnit.RestOfPass | comms/comms_threads.c:144-161 | and so are the snapshot and the write to the bus that follow |
| CommsUnit.CommsProcess.constructor | comms/comms.c:146-153 | the initial state |
| CommsUnit.CommsProcess.DownlinkPassOnce | comms/comms_threads.c:65-161 | one pass: quality 0 and silence in safe mode; else the range by the first draw, the latch, the alert or every 30th time the snapshot, with their values, and no WARNING or CRITICAL without a dropout; the bus is written unless the pass ended early |
| CommsUnit.CommsProcess.DownlinkThread | comms/comms_threads.c:59-165 | signal, latch and alerts after any number of passes |
| CommsUnit.CommsProcess.HandleCommand | comms/comms.c:44-105 | only SNAPSHOT sends an alert, only SAFE_MODE and RESET_ADCS signal the OBC, every command is remembered |
| CommsUnit.CommsProcess.UplinkPassOnce | comms/comms_threads.c:24-45 | the uplink is active exactly if a command was read, and without one nothing is sent |
| ObcUnit.ModeIsHistory | main.c:65-99 | whatever the other processes write, the mode on the bus is SAFE exactly if the last second that decided it decided for SAFE: by a dangerous reading, or by an overwriting SAFE not overruled by a clear one |
| ObcUnit.RepeatsNeedOverwrites | main.c:77-98 | the watchdog repeats a broadcast at most as often as another process has overwritten the mode |
| ObcUnit.BroadcastsAlternate | main.c:77-98 | without overwriting the broadcasts alternate, and the last one is the mode |
| ObcUnit.DecisionsAreStable | main.c:76-98 | a second watchdog call on unchanged telemetry decides nothing new |
| ObcUnit.DecisionStep | main.c:76-98 | the decision step of the system model takes exactly those decisions |
| ObcUnit.OnBoardComputer.Broadcast | signals/signal_handler.c:116-134 | the signal becomes pending for exactly the children whose pid is positive |
| ObcUnit.OnBoardComputer.RunWatchdog | main.c:65-99 | the mode afterwards by the numbers (10 or 95 to enter SAFE; 20, 85 and power to leave it), with broadcast and signals, all of them or none |
| ObcUnit.OnBoardComputer.OneSecond | main.c:126-135 | one pass of the main loop: on every second tick, and only then, mode, broadcast and signals of the live children follow the telemetry |
| ObcUnit.OnBoardComputer.MainLoop | main.c:124-136 | mode and broadcasts after any number of seconds, with the watchdog run on every second one and the mode overwritten at will in between |
| SharedMemory.TelemetryBus.Create | ipc/shm_manager.c:51-62 | a new bus is the bus on which every run begins |
| Records.EntryDecodes | logger/file_io.c:65-78 | an entry decodes to its id and to the strings and floats of the report |
| Records.EntryBytes | common.h:151-159 | which byte range of an entry holds its id, strings and floats |
| Records.ReportRoundTrip | common.h:123-159 | whatever is passed to a send helper reads back from the entry, strings cut to 15, 11, 63 and 31 bytes, floats unchanged |
| Float32.ValueOfBits | common.h:126-127 | every whole number below 2^24 has an IEEE 754 single-precision encoding that denotes exactly it |
| Float32.FloatRoundTrip | common.h:155-156 | and reads back from its four bytes |
| FlightLog.CountOfRendered | common.h:137-144 | a file is 116 + 136 n bytes long and its count is read at offset 28 |
| FlightLog.EntryOfRendered | common.h:151-159 | its k-th stretch of 136 bytes decodes to its k-th entry |
| FlightLog.LogBytes | logger/file_io.c:25-33 | the header of every log byte by byte: FDRLOG, APEX-SAT-01, version 1, the count, zeros; then 136 bytes an entry |
| FlightLog.AppendRendered | logger/file_io.c:76-78 | the first write appends one entry and changes nothing else |
| FlightLog.PatchRendered | logger/file_io.c:80-84 | the second replaces the four bytes of the count and no other byte |
| FlightLog.LogReadsBack | logger/file_io.c:57-89 | in a log of n reports entry k has id k and reads back as the k-th report |
| FlightLog.FlightRecorder.Open | logger/file_io.c:11-42 | an empty file becomes the log of no reports, any other stays |
| FlightLog.FlightRecorder.ReadHeader | logger/file_io.c:45-55 | succeeds exactly on a file that is not empty; of a shorter file the rest of the header is what the stack held |
| FlightLog.FlightRecorder.WriteEntry | logger/file_io.c:58-89 | the bytes of the file afterwards, for every file and every stack; an empty file is left alone and the call fails |
| FlightLog.FlightRecorder.Append | logger/file_io.c:58-89 | the log of some reports becomes the log of those and one more |
| CrashLog.ThreeCallsAppend | logger/file_io.c:58-89 | the three file calls of the crash model, uninterrupted, are that method |
| CrashLog.CountIsConsistent | logger/file_io.c:11-42 | wherever the logger stopped and however often it restarted, the file holds whole entries, as many as its count plus the interrupted appends |
| CrashLog.EntriesAreReports | logger/file_io.c:65-78 | the k-th entry of the file decodes to the report of the k-th entry ever appended, across all stops and restarts |
| CrashLog.IdsAreConsistent | logger/file_io.c:62-84 | ids along the file start at 1 and go up by 0 or 1, and every id from 1 to the count is present |
| LoggerUnit.FillReport | power/power.c:24-44 | the report is valid, its strings are the truncated arguments, and its priority is 9 exactly if the logger will find it CRITICAL |
| LoggerUnit.EveryArrivalIsAccounted | logger/logger.c:92-100 | every report that arrives is written or skipped, once, and no CRITICAL one is skipped |
| LoggerUnit.LoggerProcess.OnePass | logger/logger.c:56-101 | one pass: in safe mode a report that is not CRITICAL leaves the file alone and is skipped; every other report is appended |
| LoggerUnit.LoggerProcess.MainLoop | logger/logger.c:34-101 | the log found on disk, or a new one, is extended by exactly the accepted reports, in order of arrival |
| MissionLog.SendFault | thermal/thermal.c:22-41 | the report and the priority of an alert; the priority is the one by which the system model orders the queue |
| MissionLog.EntrySpells | power/power.c:31-32 | the names of subsystem and severity, as spelled in an entry that reads as an alert |
| MissionLog.ReportOfIsValid | thermal/thermal.c:22-41 | the report of an alert carries its subsystem, severity, floats and description whole |
| MissionLog.PassIsItsSteps | logger/logger.c:56-101 | the steps of the logger thread in the system model are one pass of the logger process: the alert is logged exactly if its report is written |
| MissionLog.FileIsLog | logger/file_io.c:58-89 | for every run, the file that the logger's file calls produce is the log that was there before with the reports of the alerts logged, in order |
| MissionLog.LogReadsBackAsAlerts | logger/file_io.c:58-89 | end to end: the bytes of that file read back, entry by entry, as the alerts that were logged |
| Reaping.NoChildUnreaped | main.c:54-62 | in every interleaving of the SIGCHLD handler with the four waits, if the waits return each child has been reaped exactly once |
| Reaping.Parent.HandleSigchld | signals/signal_handler.c:49-68 | the handler reaps every terminated child and forgets exactly their pids |

## Left out

- Shutdown in the running system: once the logger stops nothing drains a full queue, so progress is claimed while it runs; reaping is partial correctness (if `wait_children` returns).
- fork, exec, the installation of handlers, and children that die during the mission: in the transition system all four children are alive. `ObcUnit` does model the test of each pid.
- Opening, mapping and unlinking of shared memory, semaphore, queue and FIFO: thin wrappers of system calls.
- printf output and colours; time stamps are arbitrary bounded strings.
- ADCS fields, `fault_flags`, `downlink_active`, and `uplink_active` on the bus with its unprotected read: nothing depends on them.
- The ground commands SAFE_MODE and RESET_ADCS set variables of the OBC that nothing reads: they change nothing in the running system.
- The descriptions of the alerts: which call site words an alert is modelled, the text itself is a parameter.
- Bytes of a FIFO command beyond what the commands are compared with; a read that fails counts as no command.
- Failing file calls and short writes. The system's log starts from an empty file or a log, and holds fewer than 2^31 entries.
- FlightLog.FlightRecorder.WriteEntry: a count of 2^31 - 1 is excluded, whose increment C leaves undefined.
- Messages left in the queue by an earlier mission: the queue starts empty.
- The overflow of the pass counters after 2^31 passes.
- The byte order of an `int` is little-endian and `float` has 32 bits, as on the machines the program is built for.
- Real time: sleeps are steps without duration, so `SafeMode.Timely` is a hypothesis of the results that need it.
- MessageQueue.MsgQueue.Send: reports a full queue instead of blocking; blocking is in `Spacecraft`, where a send waits for room.
- MessageQueue.MsgQueue.Receive: reports an empty queue instead of blocking; the logger's timed receive is in `Spacecraft`.
- CommsUnit.CommsProcess.HandleCommand: the semaphore, the mutex and the blocking send of a command are in `Spacecraft`, not here; the printout of STATUS is nowhere.
- SharedMemory.TelemetryBus.Create: the ADCS fields, `fault_flags`, `uplink_active` and the time stamp are not on the modelled bus.
- ObcUnit.OnBoardComputer.MainLoop: other processes write the bus between two calls of the watchdog, not within one.
- ObcUnit.OnBoardComputer.RunWatchdog: nothing runs between its reads and its write; what other processes can do meanwhile is in `Spacecraft`, `SafeMode`, `BusMode` and `StaleBus`.
