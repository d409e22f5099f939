# Switching Circuit V2: a verified model

Dafny models of the battery switching circuit's control software and proofs of what it guarantees.
A Raspberry Pi decides modes, sequences and frequencies and talks over a serial line to an RP2040,
whose timer interrupt switches four FETs (P1, P2 on the high side, N1, N2 on the low side) through a
programmed cycle. Around that core stand a detector of the external cycler's state, a recorder, a
schedule's plan clock, the sensor stream, a command queue for a fleet of Pis, and the schematic
generator's text matcher.

`dafny verify dfyconfig.toml` checks everything.

## How it is laid out

| file | models |
|---|---|
| `Switching.dfy` | `switching.c` statement by statement, with complete interrupt runs between any two statements that have interrupts enabled |
| `Firmware.dfy` | the same firmware with each command and each tick as one step; the methods above are proved to behave like these steps |
| `Config.dfy`, `GpioDriver.dfy`, `SequenceEngine.dfy`, `AutoFollow.dfy`, `ModeController.dfy` | the Pi side: functions for what each call does and sends, classes that do it on fields, and the agreement of Pi and firmware over whole runs |
| `OpenCircuit.dfy` | commands of one transition delivered one by one with ticks in between: when the circuit can open |
| `StepLabels.dfy`, `LateStart.dfy`, `LabelRuns.dfy` | firmware time: which step a sample is labelled with and which one was live, after one start, after one whose timer is armed late, and over runs |
| `UsbCdc.dfy`, `CmdParser.dfy`, `Wire.dfy` | bytes to lines to tokens to commands, and the two machines joined by them |
| `Slope.dfy`, `Detector.dfy`, `CyclerPhase.dfy` | the least-squares slope, the cycler detector over it, and when its CV phase is reached and left |
| `Recorder.dfy` | recording sessions, their queues and writers |
| `Schedule.dfy`, `ScheduleMonitor.dfy` | schedule validation and the plan clock |
| `Streaming.dfy` | stream rate, cap and bus decimation |
| `Fleet.dfy` | the fleet's command store and access-point cycler |
| `SExpr.dfy` | matching parentheses in KiCad text |
| `Basics.dfy` | an optional value, and named products of reals |

Code that changes state in place is a class or a method with loops, proved against functions on
values; the theorems are about those functions. Monotonic time, sensor readings, round-trip times,
whether a join, a poll or a write succeeds, and the interleaving of threads are parameters or events.
Floating-point numbers are reals. A command is taken as received and acknowledged; the bytes of the
line are modelled separately and joined to the commands in `Wire.dfy`.

## What the proofs found

* mode_controller.py:115-119 says that the cycler never sees an open circuit in auto-follow. That holds
  for the seamless transitions as such (`NeverOpen`), with each command and each interrupt taken as one
  step: inside the four pin writes of a tick or of G, P1 goes off before P2 comes on. It does not hold
  when the target is changed while engaged or a setting is flushed: the first takes the dead-time path
  and the second goes through C, both of which turn everything off (`ClosedExactlyWhen`, `FlushOpens`).
  Choose sequence 1, enable, and measure more than the enter threshold: current passes, and retargeting
  to pulse charge, or flushing a new frequency, opens the circuit (`RetargetingRunOpens`,
  `FlushRunOpens`). With sequence 0 the cycle itself is off.
* On the live path (sequence_engine.py:287-304) the engine assumes that G starts at step 0, but the
  firmware keeps its index through E. A discharge chosen by hand leaves the index of an earlier cycle
  behind: charge for two firings, go idle, discharge, charge again, and every sample is labelled two
  steps off (`TwoFiringsMislabelEverything`). From such a discharge all labels are exact if and only if
  that index is 0 or beyond the new cycle; out of silent discharge, if and only if the timer fires a
  multiple of the new cycle's length between E and G, so always if it does not (`LabelsOutOfDischarge`).
* Once in the CV phase, a current that never rises should not be reported as CC charging again. It is
  with thresholds whose rest band splits the charging currents (charge_min below -rest_threshold and
  discharge_min at least rest_threshold), which nothing rejects: with five samples of a falling current,
  a rest, and then -0.01 A, a reverse current is reported as CC charging (`SplitMisreads`). From any
  state in the phase that happens for exactly those thresholds (`FallingIsNeverCcExactlyWhen`), and over
  runs from the start for those of them with which the phase can be reached at all
  (`NeverMisreadExactlyWhen`, `ReachableExactlyWhen`); the defaults are not among them.
* pause() sends no H once pause_silent() has run, so leaving silent discharge for idle is safe only
  because S halts a running timer by itself (`SwitchedOff`).
* tests/test_auto_follow.py:104-123 expects an immediate exit; auto_follow.py:218-223 holds it off for
  two seconds, and the model follows the code (`HoldoffHolds`).
* The plan clock's fallthrough (schedule_monitor.py:194-206) cannot be reached in exact arithmetic,
  whatever the schedule (`ComputePlan`).

## Model

| member | source | states |
|---|---|---|
| OpenCircuit.ClosedExactlyWhen | server/mode_controller.py:106-162 | From any agreeing state, even with a setting waiting to be flushed, a mode change keeps a high-side and a low-side FET conducting in every interleaving of its single commands with timer interrupts if and only if current passes to begin with, the change takes the seamless path, and the mode entered does not run sequence 0 |
| OpenCircuit.CarryingBySettings | server/config.py:79-108 | With nothing pending, current passes in a switching mode exactly in pulse mode or with a sequence other than 0 |
| OpenCircuit.NeverOpen | server/mode_controller.py:115-142 | Over whole runs with auto-follow enabled and nothing pending: whatever sensor ticks, threshold changes, deliveries of single E/Y/F/G commands and interrupts occur in whatever order, the circuit is closed after each; a command or an interrupt is one step here, so the moments inside its four pin writes are not covered |
| OpenCircuit.EnablingIsSteady | server/auto_follow.py:95-118 | Enabling auto-follow from any agreeing state with a sequence other than 0 reaches a state NeverOpen starts from |
| OpenCircuit.FlushOpens | server/sequence_engine.py:324-354 | A flush of a pending setting always opens the circuit for a moment, whatever state the firmware is in: it goes through C |
| OpenCircuit.DeadTimeOpens | server/mode_controller.py:143-146 | Every transition on the dead-time path opens the circuit |
| OpenCircuit.RetargetingOpens | server/mode_controller.py:143-146 | From any agreeing state with auto-follow engaged, applying another target opens the circuit |
| OpenCircuit.SettingOpens | server/sequence_engine.py:81-98 | In a switching mode, setting a frequency sends nothing, and the flush that follows opens the circuit |
| OpenCircuit.RetargetingRunOpens | server/auto_follow.py:140-156 | A run from start-up that engages with current passing, after which retargeting to pulse charge opens the circuit |
| OpenCircuit.FlushRunOpens | server/sequence_engine.py:324-354 | The same run, after which flushing a new frequency opens the circuit |
| ModeController.AgreementOverRuns | server/mode_controller.py:69-162 | Over all runs of calls and interrupts: idle means timer off and pins off, discharge means pins on under any further ticks, charge and pulse charge mean timer armed on the engine's cycle and period when nothing is pending, debug means timer off, and the FET cache equals the pins whenever the engine is paused; auto-follow holds the mode it wants |
| ModeController.AgreementFromStart | server/mode_controller.py:38-65 | The agreement holds in every run from start-up |
| ModeController.PickedMode | server/mode_controller.py:69-104 | From any state the runs can be in: picking a switching mode while auto-follow is on makes it the target, applied at once only if engaged, and nothing else; any other pick is the mode afterwards, with auto-follow off |
| ModeController.PickedRun | server/mode_controller.py:69-104 | Any run that ends by picking idle leaves the timer off and all four pins off, and by picking discharge all four pins on, whatever interrupts follow |
| ModeController.FetsAsSet | server/mode_controller.py:207-217 | In debug mode, over any run of single-FET calls and interrupts, P1, P2, N1 and N2 are each as last set under their numbers 0 to 3, or as before |
| ModeController.StepsThroughFets | server/mode_controller.py:219-236 | After entering debug mode the steps light P1, P2, N1, N2 and none in turn, over and over, exactly one at a time |
| ModeController.OffsetFollowsP | server/sequence_engine.py:256-304 | The clock offset is measured afresh by every call that sends P and kept by every other |
| ModeController.EngineSettingsOfRun | server/sequence_engine.py:81-113 | Over any run the frequency and the sequence are the last ones asked for, brought into range: no change of mode, start or flush loses them |
| ModeController.SwitchedOff | server/sequence_engine.py:132-149 | pause then all-off leaves the firmware halted even after pause_silent, when no H is sent: S halts a running timer itself |
| Wire.FirmwareHears | server/gpio_driver.py:200-222 | Every command that any run sends fits the wire, and the firmware's line reader and parser hear exactly those commands, once each and in order, however the bytes are split between polls |
| StepLabels.LabelsAreExact | server/sequence_engine.py:237-285 | After C, F and G every sample is labelled with the firmware's index at its stamp and with the FET states then on the pins, whatever the clock-offset error and the history |
| LabelRuns.RunsAreLabelled | server/sequence_engine.py:237-285 | Over every timed run of calls, whatever the delays and the clock-offset error: every sample stamped at or after an acknowledged C/F/P/G start, until a call next sends a command or changes the engine, is labelled with the step and the FET states the firmware had at that stamp |
| LabelRuns.RunsFromStartAreLabelled | server/sequence_engine.py:237-285 | The same for every timed run from start-up |
| LabelRuns.StartStaysLabelled | server/sequence_engine.py:256-285 | Charging from idle, debug or the other target, or flushing pending settings, with its G acknowledged: every sample from the stamp of that G on is labelled exactly, through any further calls that start nothing afresh (picks of the same mode, sensor ticks with auto-follow off, empty flushes) |
| LabelRuns.LabelsOutOfDischarge | server/sequence_engine.py:287-304 | Entering a switching mode from any discharge any run can be in: with the timer off all labels are exact if and only if the index left behind is 0 or beyond the new cycle, and with it running if and only if it fires a multiple of the new cycle's length between E and G |
| LabelRuns.ByHandMislabels | server/sequence_engine.py:287-304 | After choosing a sequence, charging for k firings, idle and discharge by hand, charging again labels every sample k mod 4 behind the firmware's index, so all samples wrongly unless k is a multiple of 4 |
| LabelRuns.TwoFiringsMislabelEverything | server/sequence_engine.py:287-304 | A concrete run from start-up after which no sample is labelled with the step that was live |
| LabelRuns.HeldByHand | firmware-c/src/switching.c:203-210 | Such a run ends in discharge with the timer off and the index at k mod 4: H and S leave the index where it was |
| StepLabels.TimerOffLabelsExactIff | server/sequence_engine.py:287-304 | After E, F and G with the timer off before, all labels are exact if and only if the index before the call is 0 or beyond the new cycle |
| StepLabels.TimerOnLabelsExactIff | server/sequence_engine.py:287-304 | With the timer running, all labels are exact if and only if the index E keeps and the firings between E and G make whole rounds of the new cycle |
| StepLabels.SilentDischargeLabelsExactIff | server/sequence_engine.py:287-304 | Out of silent discharge, if and only if the firings between E and G make whole rounds; so always if there are none |
| StepLabels.LiveLabelsExactIff | server/sequence_engine.py:287-304 | In terms of the firmware as G arrives: all labels are exact if and only if it holds index 0 |
| StepLabels.LabelAfterGo | server/sequence_engine.py:237-254 | Otherwise the label differs from the index by exactly the index held at G |
| StepLabels.HeldOnTheLivePath | firmware-c/src/switching.c:121-201 | What index is held as G arrives on the live path: the one kept by E, moved on by every firing since |
| StepLabels.QuietAfterRestart | firmware-c/src/switching.c:153-198 | After a G, or an F on a running timer, the timer does not fire for a full period |
| StepLabels.OthersKeepTheAlarm | firmware-c/src/switching.c:71-135 | A command other than G and F that leaves the timer armed leaves its firings where they were |
| StepLabels.EstimateCountsPeriods | server/gpio_driver.py:566-567 | The estimate is the number of whole periods between two firmware stamps: the clock offset is subtracted from both and cancels |
| GpioDriver.SyncIsWithinHalfTheRoundTrip | server/gpio_driver.py:430-475 | Whenever within the round trip the firmware took its stamp, the offset is off by at most half the round trip, and exact if and only if the stamp was taken half-way; without a stamp the old offset stays |
| GpioDriver.StampsAreOffByTheOffset | server/gpio_driver.py:526-570 | The time of a stamped sample and the anchor of an acknowledged start are off by exactly the error of the offset |
| GpioDriver.AnchorIsWithinHalfTheRoundTrip | server/gpio_driver.py:526-570 | Without an offset or a stamp the anchor is within half the round trip of the start; there is one exactly if G was answered |
| GpioDriver.DirectCommandsAreCached | server/gpio_driver.py:226-231 | After S, H and Y all on the FET cache shows the pins |
| LateStart.LateStartLabelsExactWhen | firmware-c/src/switching.c:182-198 | With the timer armed some time within a period after the anchor was stamped: after C, F, P and G a sample is labelled with the firmware's index exactly when its stamp is not within that delay after a whole number of periods since the anchor, and one step ahead otherwise |
| LateStart.LateLiveLabelsExactIff | firmware-c/src/switching.c:182-198 | On the live path, outside those delays, labels are exact if and only if the index held and the firing of the old alarm between stamp and cancel, at most one, make whole rounds |
| LateStart.LateLabel | firmware-c/src/switching.c:182-198 | In general the label is off by the index held, that firing and that lag, around the cycle |
| LateStart.NoDelayIsGo | firmware-c/src/switching.c:175-201 | Without any delay such a start is G as one step |
| SequenceEngine.BurstThenFlushIsOneResume | server/sequence_engine.py:81-162 | Any burst of frequency, sequence and pulse settings followed by a flush leaves the firmware exactly as one direct resume with the final settings |
| SequenceEngine.PausedBurstIsSilent | server/sequence_engine.py:81-130 | While paused no setting sends anything or leaves anything pending, frequencies leave the count where it was, and a flush changes nothing |
| SequenceEngine.NothingToFlush | server/sequence_engine.py:339-349 | A flush after a flush changes and sends nothing |
| SequenceEngine.FrequencyKeepsStep | server/sequence_engine.py:81-98 | Setting a frequency does not move the estimated step at that moment |
| SequenceEngine.RestartsTheCount | server/sequence_engine.py:104-130 | After setting a sequence or pulse mode, or starting, the estimate is the whole periods since that moment or the anchor, from step 0, and 0 before it |
| SequenceEngine.ClampsAreNearest | server/sequence_engine.py:81-113 | A frequency or sequence out of range becomes the nearest one from 0.1 Hz to 2 kHz or 0 to 7 |
| SequenceEngine.GoStartsAfresh | server/sequence_engine.py:256-285 | C, F, P, G leaves any firmware state with this cycle and period, index 0, timer armed and state 0 on the pins |
| Slope.LeastSquares | server/cycler_detector.py:268-279 | When the times are not all equal, the computed slope and its intercept have a sum of squared residuals no larger than any other line, and equal only for that line itself |
| Slope.ExactOnALine | server/cycler_detector.py:268-279 | On points of y = a + b x that are not all at one x, the slope is b |
| Slope.ShiftInvariant | server/cycler_detector.py:231-234 | Subtracting the first time from all times does not change the slope |
| Slope.SlopeSign | server/cycler_detector.py:268-279 | Ordered times: values that never fall have slope at least 0, values that never rise at most 0 (Chebyshev's sum inequality) |
| Slope.NoSpreadNoSlope | server/cycler_detector.py:277-278 | With all samples at one time the slope is reported as 0 |
| CyclerDetector.NoCvWhileCurrentNeverFalls | server/cycler_detector.py:211-251 | Outside the phase, a current that never falls over the CV window is never classified as CV charging, for any voltages, decline rate at most 0 and drop ratio above 0 |
| CyclerDetector.NoExitWhileCurrentNeverRises | server/cycler_detector.py:253-265 | Inside the phase, a current that never rises over the split window is never classified as CC charging, for exit slope at least 0 |
| CyclerDetector.RisingCurrentIsNeverCv | server/cycler_detector.py:103-135 | Over any run from outside the phase, while the current does not fall within the CV window looked at for any sample, CV charging is never confirmed |
| CyclerDetector.FallingCurrentIsNeverCc | server/cycler_detector.py:103-135 | Over any run from inside the phase, while the current never rises, CC charging is never confirmed, even after the phase has ended; for exit slope at least 0 and thresholds whose charging currents are not split by the rest band, as any with charge_min of at least 0 |
| CyclerPhase.FallingIsNeverCcExactlyWhen | server/cycler_detector.py:186-209 | From every state inside the phase, those thresholds are exactly the ones for which it holds over all runs; for any other the current rests, falls just below the rest band, and is confirmed as CC charging |
| CyclerPhase.ReachableExactlyWhen | server/cycler_detector.py:211-251 | For which thresholds any run from the start gets into the phase: exactly those whose CV window is not negative and of whose three signals two can be kept up, namely a decline (a split window of at least 0, and either a decline rate above 0 or windows above 0), a drop (a ratio below 1, or a debounce count below the 300 samples held and a current of at most 0 that counts as charging and is far enough down), and a plateau range above 0 |
| CyclerPhase.NeverMisreadExactlyWhen | server/cycler_detector.py:103-265 | Over all runs from the start in time order, a current that never rises from within the phase on is never confirmed as CC charging, if and only if the rest band does not split the charging currents or no run gets into the phase; for exit slope at least 0 |
| CyclerPhase.DefaultsReadRight | server/cycler_detector.py:36-52 | With the default thresholds the phase can be reached and no such run is misread |
| CyclerPhase.SplitMisreads | server/cycler_detector.py:103-265 | A concrete run from the start: five falling samples lead into the phase, then the current rests, falls to -0.01 A, and is reported as CC charging |
| CyclerDetector.EntryOnALine | server/cycler_detector.py:211-251 | On a flat voltage, a straight current that has not dropped far enters the phase if and only if it declines faster than the threshold |
| CyclerDetector.ExitOnALine | server/cycler_detector.py:253-265 | A charging current on a straight line leaves the phase if and only if it climbs faster than the exit slope |
| CyclerDetector.RunMeaning | server/cycler_detector.py:281-301 | After any run the confirmed state is the most recent classification to have held for the debounce count, and the phase flag is set exactly when that is CV charging |
| CyclerDetector.DebounceMeaning | server/cycler_detector.py:281-301 | The same for any series of candidates; a count below one acts as one |
| CyclerDetector.ChangesAreSpaced | server/cycler_detector.py:281-301 | Any two changes of the confirmed state are at least the debounce count of feeds apart |
| CyclerDetector.SinceIsSuffix | server/cycler_detector.py:218-219 | On time-ordered samples the time filter keeps exactly a suffix, the samples at or after the cutoff |
| CyclerDetector.ChargingDecides | server/cycler_detector.py:186-209 | Whether a sample counts as charging, in either kind, depends on its current and the thresholds alone |
| CyclerDetector.RangesDecide | server/cycler_detector.py:186-209 | Rest exactly when the current is within the rest threshold of 0, discharge exactly when it is not and is below minus the discharge threshold, unknown exactly in the gap that is left up to the charge threshold, whatever the phase and the history |
| CyclerPhase.HeldRangeIsReported | server/cycler_detector.py:103-135 | Whatever was fed before, once the debounce count of samples in a row lie in the range of rest, of discharge or of neither, that is what is reported |
| CyclerDetector.ReportedWasHeld | server/cycler_detector.py:103-135 | Rest or discharge is reported only after the debounce count of samples in a row in its range |
| CyclerDetector.FewSamplesDecideNothing | server/cycler_detector.py:211-265 | Fewer than five samples in the CV window begin no phase, fewer than five in the split window end none, and fewer than three are no decline |
| CyclerDetector.CurrentIsThatOfTheBus | server/cycler_detector.py:156-184 | With all sensors working the estimate is the bus current, however it is split between the FETs on either side |
| CyclerDetector.MissingIsNoCurrent | server/cycler_detector.py:156-184 | A missing or failed sensor counts as carrying nothing |
| CyclerDetector.VoltageIsMeanOfLive | server/cycler_detector.py:156-184 | The voltage is the mean of the working sensors above 0.01 V, and 0 without any |
| CyclerDetector.AgreeingCounts | server/cycler_detector.py:116-124 | The confidence counts exactly the samples of the window that are classified as the confirmed state |
| PiRecorder.EverySession | server/recorder.py:81-310 | In every interleaving of start, record, stop and writer steps and for every session: the writer takes the kept rows in order, a finished one all of them; the file holds, in order, exactly the taken rows whose write succeeded, a prefix of the kept rows while none fails; sample_count counts the kept rows and never passes a positive maximum; and the gap warning is raised exactly when the kept emit numbers are not contiguous |
| PiRecorder.RunKeeps | server/recorder.py:229-255 | Every session's queue holds no sentinel while active, and after that exactly one, behind all rows, until the writer takes it and is done |
| PiRecorder.SessionsAsAsked | server/recorder.py:81-250 | In every interleaving there is one session for each start, with the maximum and alignment asked for; of all frames recorded until the next stop or start it keeps those from the transition on, up to exactly the maximum; and it is active exactly until that stop or start or until the maximum is reached |
| PiRecorder.FirstRowIsATransition | server/recorder.py:147-160 | In every run, an aligned session's first kept row is a frame in the target step offered directly after one outside it, no earlier frame entered the step, all later offered frames are kept, and it is the first row of the file unless writing it failed |
| PiRecorder.WriteWrites | server/recorder.py:262-310 | A row goes into the file exactly if the file opened and its write succeeds; the sentinel ends the writer |
| PiRecorder.UnopenedStaysEmpty | server/recorder.py:262-310 | A file that could not be opened gets nothing in any run |
| PiRecorder.WriterFinishes | server/recorder.py:262-310 | A stopped session's writer is done after one step per queued item, whether or not its file opened and whichever writes fail, having taken every kept row |
| PiRecorder.WriterFinishesWithEverything | server/recorder.py:262-310 | If the file opened and no write fails, the file then holds every kept row |
| ScheduleMonitor.WalkIsExact | server/schedule_monitor.py:160-192 | Before the total duration the plan stands at the one position whose cycle, step and offset add up to the elapsed time; from the total duration on it is complete, and not before |
| ScheduleMonitor.WalkIsMonotone | server/schedule_monitor.py:160-192 | Later times give the same or a lexicographically later position, or completion |
| ScheduleMonitor.PositionsAreOrdered | server/schedule_monitor.py:172-192 | Two positions are ordered as their elapsed times are, so a time has at most one position |
| ScheduleMonitor.PlanAddsUp | server/schedule_monitor.py:160-192 | The plan shown at a time: repetitions, steps before and time in the step add up to the time elapsed, with less than the step's own time in it and the fields of that step; complete exactly from the total duration on |
| ScheduleMonitor.ScheduleMonitor.ComputePlan | server/schedule_monitor.py:137-206 | For a valid schedule the floor-and-scan computation shows exactly what walking the repeated steps one at a time shows, never the empty plan; the defensive fallthrough is unreachable for any schedule whatever |
| Schedule.ValidateSchedule | server/schedule.py:130-184 | The list of problems contains every problem of the schedule and no other; it is empty exactly for a valid schedule |
| Schedule.ValidMeans | server/schedule.py:130-184 | A schedule has no problem exactly if name, steps, repeat count and default are in order and every step has a name, a positive time, known action, state and timeout policy, and for charging a sequence 0 to 7 and a positive frequency |
| CmdParser.CommandsArrive | firmware-c/src/usb_cdc.c:34-68 | Whatever bytes came before a newline, even an overlong line, the commands written after it are all received once and in order, for any split of the bytes between polls |
| CmdParser.StreamRoundTrip | firmware-c/src/cmd_parser.c:487-530 | Parsing the lines of the byte stream for a list of commands gives that list back |
| CmdParser.CommandRoundTrip | firmware-c/src/cmd_parser.c:317-386 | Every sendable S, Y, C, E, F, G, H, K or P command is read back from its line; for C and E that is every cycle of 1..64 states in 0..15 |
| CmdParser.LineFits | server/gpio_driver.py:485-509 | Every such line has at most 255 bytes and 70 tokens and contains no byte the framing treats specially |
| CmdParser.CycleLineExactly | firmware-c/src/cmd_parser.c:317-386 | A C or E line is accepted exactly if its count is the number of words that follow, 1 to 64, and each is a number from 0 to 15; those are the states |
| CmdParser.PinLineExactly | firmware-c/src/cmd_parser.c:75-97 | S and Y lines are accepted exactly with four numbers, in the order P1, P2, N1, N2; S looks at the lowest bit, Y at the lowest byte |
| CmdParser.PeriodLineExactly | firmware-c/src/cmd_parser.c:402-418 | F is accepted exactly with one number of at least 50 |
| CmdParser.VerbsAlone | firmware-c/src/cmd_parser.c:524-543 | G, H, K and P take no notice of the words after them |
| CmdParser.CaseDoesNotMatter | firmware-c/src/cmd_parser.c:487-530 | A verb in lower case means the same |
| CmdParser.SignedNumbers | firmware-c/src/cmd_parser.c:54-61 | A decimal number with or without a sign is read as the nearest 32-bit integer |
| CmdParser.NotNumbers | firmware-c/src/cmd_parser.c:54-61 | Anything with a character other than a digit after the sign is no number |
| UsbCdc.ChunkingDoesNotMatter | firmware-c/src/usb_cdc.c:34-68 | For any mixture of arriving bytes and polls, the lines delivered are a prefix of the lines of the whole byte stream, and all of them once everything has been read |
| UsbCdc.LineThenRest | firmware-c/src/usb_cdc.c:41-67 | A line of 1..255 plain bytes is delivered as sent, an empty or longer one is dropped whole, and the bytes after it are read independently of it |
| SExpr.FoundExactly | pcb/v2/gen_schematic.py:47-70 | From an opening parenthesis the match is at k if and only if the text up to k is a printed nested list, with quoted strings and escapes |
| SExpr.FindsTheList | pcb/v2/gen_schematic.py:47-70 | For every nested list, prefix and suffix, the match of the list's opening parenthesis is its own closing one |
| Fleet.Delivery | fleet/ap_cycler.py:223-264 | In every run: each command is sent at most once, commands to one Pi in the order queued, the commands sent are exactly those confirmed or failed, and none is SENT between visits |
| Fleet.StatusAdvances | fleet/state_store.py:117-140 | A step leaves a command itself unchanged and moves its status only from pending to sent to confirmed or failed |
| Fleet.VisitDelivers | fleet/ap_cycler.py:241-262 | A visit that gets through sends every command pending for that Pi, oldest first and once, marks it confirmed if its send succeeded and failed if not, and touches nothing else |
| Fleet.OutcomesOfRun | fleet/state_store.py:133-140 | In any run a command is confirmed exactly if a send of it succeeded, and failed exactly if one did not |
| Fleet.KnownOfPi | fleet/state_store.py:78-97 | In any run the store knows nothing of a Pi before the first attempt to reach it; then it is online exactly if the last attempt got a reply, with the last reply and the last signal there were |
| Fleet.PolledAfter | fleet/ap_cycler.py:182-264 | A Pi counts as polled after a visit with a reply, until visited in vain, found invisible or asked to be polled again |
| Fleet.JoinList | fleet/ap_cycler.py:190-207 | Exactly the visible Pis that have pending commands or are unpolled, without duplicates, those with pending commands first, in order within both groups |
| Streaming.RunFromBoot | firmware-c/src/streaming.c:99-150 | Over any run of T, A, V, Z and ticks: the rate is within the current cap, the period is the rate's and at least the cap's, bus reads stay decimated, and each tick-driven line comes at least its period after the one before |
| Streaming.ReadsAfterDecimation | firmware-c/src/streaming.c:55-62 | After V n with n at least 1, any k sweeps make exactly k / n bus reads, rounded down |
| Streaming.RateIsGranted | firmware-c/src/streaming.c:113-138 | After every command the rate is exactly the one asked for, or the current cap if that is lower; T asks for its argument, the others for the rate there was |
| Streaming.LineExactlyWhenDue | firmware-c/src/streaming.c:140-150 | A tick sends a line exactly when the stream is on and a period has passed, so none is overdue right after a tick |
| Streaming.CapIsTheLongest | firmware-c/src/streaming.c:99-111 | The shortest period is the measured cost, or else 200 us more than the longer of conversions and bus transfers |
| Streaming.PeriodIsOneCycle | firmware-c/src/streaming.c:113-127 | The period is the whole microseconds in one cycle of the rate, and at least one |
| Streaming.ProfileMeasures | firmware-c/src/streaming.c:159-221 | Z makes twice as many sweeps as rounds asked for, kept within 10 to 500, and takes the whole microseconds of a round's average as the cost |
| Streaming.SettingsTaken | firmware-c/src/cmd_parser.c:151-184 | A takes the eight averaging counts and no other, V takes 0 to 1000, and both forget the measured cost |
| Firmware.ExecKeepsWellFormed | firmware-c/src/switching.c:105-221 | Between commands the index is 0 or below the length, at most 64 states, armed implies running and a programmed cycle: kept by every command |
| Firmware.TicksAdvance | firmware-c/src/switching.c:161-170 | After k ticks of an armed timer the index is k further round the cycle and the pins show that state |
| Firmware.NewPeriodGoesOn | firmware-c/src/switching.c:139-150 | An accepted F on a running timer changes the period and nothing else: the held state goes back on the pins over an earlier Y, and the ticks show what they would have shown; below 50 us it is rejected |
| Firmware.PackRoundTrip | server/sequence_engine.py:40-47 | Unpacking a packed FET state gives it back |
| Firmware.UnpackRoundTrip | server/sequence_engine.py:356-363 | Packing an unpacked state in 0..15 gives it back |
| Switching.SwitchingModule.TickIsr | firmware-c/src/switching.c:161-170 | The interrupt performs one tick, keeps the index in range and its byte arithmetic from overflowing; with an all-on cycle it turns nothing off |
| Switching.SwitchingModule.SetDirect | firmware-c/src/switching.c:71-77 | S with interrupts between any two statements: the state of S after some ticks, and always with the timer off |
| Switching.SwitchingModule.SetDirectNoHalt | firmware-c/src/switching.c:79-87 | Y with interrupts between the pin writes: each pin as written or as in a state of the cycle; widening: over an all-on cycle no pin write, of the command or of an interrupt, turns a FET off, and all four end on |
| Switching.SwitchingModule.DropToDischarge | server/mode_controller.py:124-131 | The drop to discharge, E [15] and then Y all on, pin write by pin write: only ticks before the new cycle is in place turn FETs off, at most four each, no write after that does, and all FETs end on |
| Switching.SwitchingModule.ProgramCycle | firmware-c/src/switching.c:105-119 | C with interrupts anywhere is C after some ticks; refused exactly for an invalid cycle |
| Switching.SwitchingModule.ProgramCycleLive | firmware-c/src/switching.c:121-135 | E with interrupts outside its critical section: some ticks on the old cycle, E, then ticks on the new one |
| Switching.SwitchingModule.SetPeriodUs | firmware-c/src/switching.c:139-150 | F below 50 us is refused; otherwise the period is set and a running timer restarted at the held index, or left disarmed with the running flag set if no alarm is free |
| Switching.SwitchingModule.SwitchingStart | firmware-c/src/switching.c:175-201 | G: held state shown, timer armed and running, up to ticks before and after, where an interrupt between reading the state and the last pin write can leave each pin as in some state of the cycle; refused without a cycle, a period or a free alarm, in the last case disarmed |
| Switching.SwitchingModule.SwitchingHalt | firmware-c/src/switching.c:203-210 | H with interrupts before the timer is cancelled: halted with all pins off |
| Switching.SwitchingModule.StepOnceCmd | firmware-c/src/switching.c:214-221 | K: the index becomes the one after that held k ticks in, written l ticks in, and m ticks follow, so ticks in between are lost; with the timer disarmed exactly one step |
| Config.PackedCycleAccepted | server/sequence_engine.py:230-235 | The cycle programmed for any settings is one the firmware accepts |
| Config.ConductsUnlessOff | server/config.py:79-108 | Every state of the cycle conducts, except when sequence 0 is selected, when none does |
| Config.ProgrammedIsOneKind | server/config.py:79-108 | In the cycle of any settings all states conduct or none does, so one conducting state is enough to know the rest |
| Config.PeriodArithmetic | server/sequence_engine.py:221-228 | In the allowed frequency range the 50 us floor never binds and the four-step and two-step cycles last the same up to 2 us |
| Config.StatesAreBridges | server/config.py:79-86 | States 0 to 3 join one high-side to one low-side FET, P1 in 0 and 1, N1 in 0 and 2; 4 is all on, 5 all off |
| Config.BridgesNeedBoth | server/config.py:79-86 | A bridge state conducts, and with either of its two FETs turned off it does not |
| Config.SequencesAreOrders | server/config.py:91-100 | Sequences 1 to 6 are the six orders of states 0 to 3 that begin with 0, in lexicographic order; 0 is all off and 7 all on |
| Config.CycleShowsSequence | server/sequence_engine.py:230-235 | The firmware's k-th state shows the FETs of the k-th state of the selected sequence, or in pulse mode P1 with N1, then P2 with N2 |
| Config.EachBridgeOncePerRound | server/config.py:91-100 | A round of sequences 1 to 6 shows each high-side FET with each low-side FET exactly once |
| Config.BitOfEachFet | server/sequence_engine.py:40-43 | P1 is bit 3, P2 bit 2, N1 bit 1 and N2 bit 0 |
| SequenceEngine.SequenceEngine.CurrentPackedSequence | server/sequence_engine.py:230-235 | The packed cycle of the current settings |
| SequenceEngine.SequenceEngine.EstimateStep | server/sequence_engine.py:237-254 | The estimated step for a given time |
| SequenceEngine.SequenceEngine.GetStateAt | server/sequence_engine.py:196-217 | While running the estimated step with its state's FETs, while paused the stored step and the FET cache |
| SequenceEngine.SequenceEngine.SetFrequency | server/sequence_engine.py:81-98 | Clamped frequency, new period, the step estimate carried over, and a flush scheduled when running |
| SequenceEngine.SequenceEngine.SetSequence | server/sequence_engine.py:104-113 | Clamped index, estimate restarted, and a flush scheduled when running |
| SequenceEngine.SequenceEngine.SetPulseMode | server/sequence_engine.py:119-130 | Pulse flag and period, estimate restarted, and a flush scheduled when running |
| SequenceEngine.SequenceEngine.Pause | server/sequence_engine.py:132-141 | Paused with nothing pending; H is sent exactly if it was running |
| SequenceEngine.SequenceEngine.PauseSilent | server/sequence_engine.py:143-149 | Paused with nothing pending and nothing sent |
| SequenceEngine.SequenceEngine.Resume | server/sequence_engine.py:151-162 | C, F, P, G sent in order and the estimate anchored at G |
| SequenceEngine.SequenceEngine.ResumeLive | server/sequence_engine.py:164-172 | E, F, G sent in order and the estimate anchored at G |
| SequenceEngine.SequenceEngine.Flush | server/sequence_engine.py:324-354 | Sends C, F, P, G exactly when running with something pending, and clears what was pending |
| GpioDriver.GPIODriver.ApplyState | server/gpio_driver.py:226-231 | S sent and the FET cache set |
| GpioDriver.GPIODriver.AllOnNoHalt | server/gpio_driver.py:511-516 | Y all on sent and the FET cache set |
| GpioDriver.GPIODriver.StopSwitching | server/gpio_driver.py:572-578 | H sent and the FET cache cleared |
| GpioDriver.GPIODriver.ProgramSequence | server/gpio_driver.py:485-498 | C sent with the low four bits of each state, or nothing for an empty list |
| GpioDriver.GPIODriver.ProgramSequenceLive | server/gpio_driver.py:500-509 | E sent with the low four bits of each state, or nothing for an empty list |
| GpioDriver.LowBitsKeepFets | server/gpio_driver.py:485-509 | Whatever number is given for a state, each FET goes out on exactly if its bit is set |
| GpioDriver.GPIODriver.SetStepPeriodUs | server/gpio_driver.py:518-524 | F sent with at least 50 us |
| GpioDriver.GPIODriver.SyncFirmwareClock | server/gpio_driver.py:430-475 | P sent; the offset is firmware stamp less round-trip midpoint, or kept when there is no usable reply |
| GpioDriver.GPIODriver.StartSwitching | server/gpio_driver.py:526-570 | G sent; the anchor comes from the firmware stamp when offset and stamp are known, else from the midpoint, and is absent without an answer |
| AutoFollow.StepAsksForTheWantedMode | server/auto_follow.py:95-156 | Every call keeps active implies enabled and enter above exit, and asks for a mode exactly when it enables the controller or changes the mode an enabled one wants, and then for that mode |
| AutoFollow.HoldoffHolds | server/auto_follow.py:198-227 | Once a tick has engaged, nothing measured within the next two seconds disengages it, however thresholds and target change |
| AutoFollow.ActiveExactlyWhen | server/auto_follow.py:198-227 | Over any run of calls: engaged exactly if some tick above the enter threshold then in force found it enabled and not engaged, and since then it has not been disabled and no tick two seconds or more later was below the exit threshold then in force |
| AutoFollow.SettingsOfRun | server/auto_follow.py:95-156 | Over any run of calls: enabled as last set; the target is the last switching mode given; the thresholds are the last acceptable ones, with enter above exit, enter positive and exit not negative |
| AutoFollow.BandHolds | server/auto_follow.py:198-227 | Ticks with currents between the thresholds change nothing |
| AutoFollow.AutoFollow.SetEnabled | server/auto_follow.py:95-118 | Enabling resets to the transparent baseline; disabling leaves the mode alone |
| AutoFollow.AutoFollow.SetThresholds | server/auto_follow.py:120-133 | Thresholds taken exactly when enter exceeds exit, enter is positive and exit is not negative |
| AutoFollow.AutoFollow.SetTargetMode | server/auto_follow.py:140-156 | Only switching modes are taken, and applied at once when engaged |
| AutoFollow.AutoFollow.Tick | server/auto_follow.py:198-227 | Engage above enter, disengage below exit once the hold-off is over: the step that ActiveExactlyWhen describes over runs |
| ModeController.ModeController.SetModeInternal | server/mode_controller.py:106-162 | The seamless or dead-time transition with its commands in order; nothing for the current mode |
| ModeController.ModeController.SetMode | server/mode_controller.py:69-104 | On the object's fields, the pick that PickedMode describes |
| ModeController.ModeController.AutoFollowCall | server/mode_controller.py:192-200 | An auto-follow call followed by the mode it asks for |
| ModeController.ModeController.SetFet | server/mode_controller.py:207-217 | One FET changed through the cache, in debug mode and for index 0..3 only |
| ModeController.ModeController.StepDebug | server/mode_controller.py:219-236 | Debug steps light P1, P2, N1, N2, then none |
| ModeController.LiveStart | server/sequence_engine.py:287-304 | E, F, G on any well-formed firmware: new cycle and period, index kept if it fits else 0, timer armed, that state on the pins |
| OpenCircuit.HarmlessPlay | firmware-c/src/switching.c:79-201 | From a conducting state, E with a conducting cycle followed by Y all on, F and G keeps the circuit closed in every interleaving with ticks |
| CyclerDetector.CyclerDetector.Feed | server/cycler_detector.py:103-135 | Windows extended, state classified and debounced, confidence the share of the window that agrees with the confirmed state |
| CyclerDetector.CyclerDetector.UpdateDebounce | server/cycler_detector.py:281-301 | The debounce step on the object's fields |
| CyclerDetector.CyclerDetector.ExtractAverages | server/cycler_detector.py:156-184 | Half the sum of all four currents, and the mean of the voltages above 0.01 V, or 0 without any; missing and failed sensors are skipped |
| CyclerDetector.CyclerDetector.Reset | server/cycler_detector.py:141-152 | All history dropped and the state unknown again |
| PiRecorder.PiRecorder.Start | server/recorder.py:81-121 | An active session is stopped first, and the new one has a queue of its own |
| PiRecorder.PiRecorder.Record | server/recorder.py:123-236 | On the object's fields, a step of the sessions that SessionsAsAsked describes; answers whether the session goes on |
| PiRecorder.PiRecorder.Stop | server/recorder.py:238-250 | The sentinel is queued exactly if the session was active |
| PiRecorder.PiRecorder.WriterLoop | server/recorder.py:262-310 | With items still arriving while it runs, the sentinel last: every row that can be written is in the file in order, the others are counted, and the queue is empty |
| ScheduleMonitor.ScheduleMonitor.LoadSchedule | server/schedule_monitor.py:81-88 | Schedule taken and clock started |
| ScheduleMonitor.ScheduleMonitor.Restart | server/schedule_monitor.py:90-97 | Clock restarted, or refused without a schedule |
| ScheduleMonitor.ValidIsPositive | server/schedule.py:139-165 | A valid schedule has steps, all with positive duration, and repeats at least once |
| CmdParser.Tokenize | firmware-c/src/cmd_parser.c:36-52 | In place: the first words of the line, at most the token array's size, each now a C string of its own in the buffer |
| CmdParser.NextToken | firmware-c/src/cmd_parser.c:39-50 | One word: spaces skipped, a NUL written over the space after it, the rest of the buffer untouched |
| CmdParser.ReadCycle | firmware-c/src/cmd_parser.c:317-343 | The states of a C or E line exactly when count, number of tokens and every state are in order |
| CmdParser.HandleLine | firmware-c/src/cmd_parser.c:487-530 | A received line gives the command it spells, or none |
| CmdParser.ParseDecimal | firmware-c/src/cmd_parser.c:54-61 | Parsing the decimal form of a number up to 2^31 - 1 gives the number |
| CmdParser.WordsOfJoined | firmware-c/src/cmd_parser.c:36-52 | Splitting words joined by spaces gives the words back |
| CmdParser.WordsApart | firmware-c/src/cmd_parser.c:36-52 | Any of the six white-space characters ends a word |
| UsbCdc.UsbCdc.ReadLine | firmware-c/src/usb_cdc.c:34-68 | One poll on the 256-byte buffer: the next complete line copied out and cut to the caller's buffer, carriage returns skipped, overlong lines dropped with one error each |
| UsbCdc.PollReads | firmware-c/src/usb_cdc.c:34-68 | A poll delivers exactly the line that the bytes it read complete, reports one error for each line in them that is too long, and keeps the rest of the line so far |
| SExpr.ParenMatch | pcb/v2/gen_schematic.py:47-70 | The index loop finds what the search from the rest of the text finds; an error exactly when there is none |
| SExpr.ExtractSymbol | pcb/v2/gen_schematic.py:73-81 | The block starting at the first place that opens the named symbol, which is a printed list; not found or unmatched otherwise |
| SExpr.PinBlocks | pcb/v2/gen_schematic.py:84-103 | The blocks the pin loop visits: printed lists in order and apart, with every place that opens a pin inside one of them; an error exactly if some pin is never closed |
| Fleet.RunKeeps | fleet/state_store.py:117-140 | Kept by every step: SENT commands are exactly those the current visit has still to send, and of two commands to one Pi the older is never behind |
| Fleet.FleetStateStore.EnqueueCommand | fleet/state_store.py:117-123 | A new pending command with the next id at the end of the queue |
| Fleet.FleetStateStore.DrainCommands | fleet/state_store.py:125-131 | The Pi's pending commands in order, now marked SENT; all others unchanged |
| Fleet.FleetStateStore.MarkCommandResult | fleet/state_store.py:133-140 | The first command with this id becomes confirmed or failed as told; an unknown id changes nothing |
| Fleet.FleetStateStore.PisWithPendingCommands | fleet/state_store.py:160-163 | Exactly the Pis that have a pending command |
| Fleet.FleetStateStore.UpdateState | fleet/state_store.py:84-92 | Online with this state; the signal kept when none is given |
| Fleet.FleetStateStore.MarkOffline | fleet/state_store.py:94-97 | Offline, created if unknown |
| Fleet.APCycler.VisitPi | fleet/ap_cycler.py:223-264 | With other threads queueing commands and asking for polls before and during it, a visit is a run of the events Delivery speaks of: its own are the begin and one send per drained command in order; nothing is drained when joining or polling fails |
| Fleet.APCycler.ReconcileOffline | fleet/ap_cycler.py:182-188 | Known Pis that are not visible are offline and no longer counted as polled; others unchanged |
| Streaming.Streaming.DecideReadBus | firmware-c/src/streaming.c:55-62 | Reads the bus on every n-th sweep, never for n = 0 |
| Streaming.Streaming.StreamingMaxHz | firmware-c/src/streaming.c:99-111 | The cap from the measured cost, or else from the estimate |
| Streaming.Streaming.SetRateHz | firmware-c/src/streaming.c:113-127 | Off for a rate of 0 or less; else the rate within the cap and its period of at least 1 us, counted from now |
| Streaming.Streaming.StreamingTick | firmware-c/src/streaming.c:140-150 | A line exactly when a period has passed since the last reference, which becomes now |
| Streaming.Streaming.Profile | firmware-c/src/streaming.c:159-221 | Two rounds of sweeps with streaming suspended, the average time of a line in the first stored, and the former rate restored within the new cap |
| Streaming.Streaming.CmdA | firmware-c/src/cmd_parser.c:151-166 | An allowed averaging count is taken and the rate clamped to the new cap; others are refused |
| Streaming.Streaming.CmdV | firmware-c/src/cmd_parser.c:168-184 | A decimation of 0..1000 is taken, the counter restarted and the rate clamped to the new cap; others are refused |

## Left out

- SwitchingStart: an interrupt between reading the held state and the last of its four pin writes can leave a mixture of the cycle's states on the pins until the next tick; the contract says so (a torn start) instead of claiming every pin pattern is a programmed state. A failed alarm is stated at this level only.
- NeverOpen: takes each command and each interrupt as one step; between the four pin writes of a tick or of G the circuit can be open.
- LabelsAreExact: G is one step here and in the other results of StepLabels.dfy and LabelRuns.dfy, so the anchor is the moment the timer is armed and the old alarm cancelled; LateStart.dfy says by how much labels are off when these come later within a period.
- EverySession: a start that stops a session and sets up the next is one step, so two starts racing each other are not covered; file names, and two sessions that share one, are not modelled.
- JoinList: takes the visible Pis already sorted; the sort itself is Python's.
- HandleLine: verbs outside the switching commands (I, J, Q, T, A, V, M, Z, L, B, BD, R, X, N, W, U) give no command here; T, A, V and Z are in Streaming.dfy.
- VisitPi: a command queued between the poll and the drain counts as queued before the visit begins.
- StreamingTick: the emit counter and the text of the line are left out.
- ComputePlan: the rounding of the elapsed step time to one decimal is display only and left out.
- Feed: state labels and log messages are left out; the timestamp in the result is the time passed in.
- AutoFollow's display status, the charging setpoint and its detector thread: presentation, or a sensor reading passed to `Tick`.
- Races between a flush already past its lock and a concurrent pause, or between two overlapping reprogrammings: each engine call is one step.
- Serial errors, mock mode, the reader thread, and firmware replies other than acknowledgements: foreign calls.
- Mode names as strings, and the ValueError texts: a rejected call changes and sends nothing.
- Burst capture, sensor calibration, LED colours, sensor scanning, reset commands: no logic beyond foreign calls.
- PinBlocks: the regular expressions that read number and position inside a block, and the dictionary they fill, are left out.
- Placement and emission of the schematic generator: presentation over the matcher that is modelled.
- The one-shot emit of the stream, which nothing calls: streaming.h says it always reads the bus voltages, streaming.c:152-154 lets the decimation counter decide.
- cleanup_old_commands in the fleet store: nothing calls it.
- The web page, terminal interface, plotting, schedule file loading and its semantic warnings, and the older firmware/main.py, which lacks E and Y.
