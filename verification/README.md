# CUKTECH charger service: a verified model

A Dafny model of the parts of the charger service that decide something over time: when a charging
session begins and ends and what it was worth, when a port is switched off, who answers a Bluetooth
scan, how far a recovery may go, what comes out of a byte stream, what a browser client gets to see,
and what a rollback moves. Code that changes state step by step is a class or a method here, and every
method is proved to perform a transition function on the value of its object; the theorems are about
whole runs of those transitions.

| files | what they model |
|---|---|
| `medians`, `session_detector`, `detector_theorems`, `detector_levels` | the low-power end detector and what its verdicts mean, in terms of the readings |
| `energy`, `start_gate`, `port_session`, `session_manager` | integrator, start gate, and the session state machine of one port |
| `energy_accounting`, `session_opening`, `opening_levels`, `session_endings`, `session_closing`, `session_peak`, `hysteresis`, `power_off`, `power_off_rules`, `limit_spacing`, `arming`, `arming_rules` | theorems about every run of that machine |
| `session_rows` | database rows of sessions under asynchronous registration |
| `scan_merge`, `recovery_ladder` | the coordinator of the shared Bluetooth adapter |
| `l2cap`, `counter_tracking`, `downsample` | frame reassembly (B-frames of section 3.1 of the Bluetooth Core Specification, Vol 3 Part A), counter reconstruction, LTTB |
| `sse_emitter`, `history_archive` | event queues of browser clients; the rollback script |

How to read it. Time, voltage, current and energy are exact reals. One port is one state: ports share
nothing but the command queue, whose "room left" is an input of each reading. A run of a port starts
from a fresh process and is any list of events: readings pushed by the charger, closes ordered from
outside (port switched off, unplug verified), bulk closes on a lost link or at shutdown, the timer's
readings of an empty port and its power-off confirmations, and changes of the settings. A history of a
port may in addition contain the timer's own readings, as of ports that push nothing;
`PowerOff.EveryPowerOffIsAllowed` and the theorems of `arming`, `session_closing`, `arming_rules` and
`power_off_rules` are about histories. Theorems that need it ask for increasing reading times, or for gaps
in (0, 30] s, in their `requires`. The asynchronous parts are steps between two suspension points in any
order; what a scan hears, a failing insert and a cancellation are free choices.

Where code and documentation disagree, or a hoped-for property fails, the code is what is modelled:

- The reassembler's documentation (extract_btsnoop_frames.py:266-267) says bytes that are neither
  continuation nor header are counted as orphans. Fewer than four bytes at the end of a record are
  dropped without being counted (lines 308-309), and that is
  exactly when a receiver in step with a well-formed stream drops bytes (`L2cap.HeaderCutIsSilent`), so a capture is
  reassembled if and only if no record ends inside a header (`L2cap.RoundTripExactlyWithoutHeaderCuts`).
- A downsampling bucket starts one point behind its boundary and ends before the next one
  (downsample.py:21-22), so the points on boundaries, and no others, never compete
  (`Downsample.CompetesUnlessOnBoundary`); one of them is taken exactly if its bucket is empty
  (`Downsample.BoundaryPickedExactlyIfEmpty`).
- The live links are examined before the adapter lock is waited for (adapter_coordinator.py:297-307),
  so a device that connects in between is cut off by the reset: `RecoveryLadder.ResetMayMeetLateConnection`
  is such a run, `RecoveryLadder.ResetMeetsExactlyLateLinks` says which links are met.
- Whether a device's adapter may be reset depends only on the live links: the bound of one L1.5 failure
  (adapter_coordinator.py:289-290) decides nothing, since without it the same call returns L1.5 at
  the next check (`RecoveryLadder.RemovalDecides`).
- A session's row need not be the one its own start inserted (`SessionRows.RowMayPassToLaterSession`): it
  is if and only if the session that asked was not closed before the callback
  (`SessionRows.RowGoesToItsSessionIffNotClosed`). A row requested by
  resuming the recording always is (`SessionRows.ResumedRowGoesToItsSession`). No row is lost or finished
  twice.
- A rollback loses a row if its id is archived with other contents already: the insert is ignored, the
  delete is not. `Rollback.NothingIsLost` gives the exact condition, `Rollback.SettingSetAgainIsLost` a
  family of inputs: a setting changed between two rollbacks.
- A limit may fire twice within 15 s of one session if the port was declared permanent and back in between,
  and only then (`LimitSpacing.LimitMayFireTwice`, `LimitSpacing.LimitCommandsAreSpaced`).
- Counters are rebuilt if and only if every advance shows in the low 16 bits; the largest safe advance
  is 32767 (`CounterTracking.CountersRightIffVisible`, `CounterTracking.HalfRangeAdvanceIsMissed`).

The main theorems state watts, volts and seconds as numbers, not by the constants of the transition functions.

Every lemma to which automatic induction would apply carries `{:induction false}`: its proof is its body.

## Model

| member | source | states |
|---|---|---|
| Medians.SortIsSortedPermutation | ble_server/energy.py:110-111 | the order the median is read from is an ascending permutation of the values |
| Medians.MinorityCannotLiftMedian | ble_server/energy.py:110-111 | fewer than half the values above a level cannot lift the median above it, more than half always do: the reason a few spikes do not count |
| Medians.MedianBounded | ble_server/energy.py:110-111 | the median of values at or below a level is at or below it, also for no values at all |
| Medians.MedianBelow | ble_server/energy.py:110-111 | values strictly below a positive level have a median strictly below it |
| Medians.MedianAbove | ble_server/energy.py:110-111 | values strictly above a level, if there are any, have a median strictly above it |
| Medians.MedianOfAnyOrdering | ble_server/energy.py:110-111 | however the values are put in ascending order, the median is the middle one, the mean of the two middle ones, or 0.0 for none |
| Detection.TailThresholdMonotone | ble_server/energy.py:128-143 | the end threshold rises with the charging peak, stays in [0.05, 0.6] W and treats a negative peak like none |
| Detection.TailThresholdIs | ble_server/energy.py:128-143 | the end threshold is 0.05 W up to a peak of 0.25 W, a fifth of the peak up to 3 W, and 0.6 W beyond |
| SessionDetector.ChargeSessionDetector.constructor | ble_server/energy.py:187-188 | a new detector is in the reset state |
| SessionDetector.ChargeSessionDetector.Reset | ble_server/energy.py:190-198 | reset forgets window, peak, hold, grace and last reading |
| SessionDetector.ChargeSessionDetector.Feed | ble_server/energy.py:202-217 | the loop that pops old points in place, the voltage check and the peak update perform the transition `Feed` of the detector value |
| SessionDetector.ChargeSessionDetector.RecoverySec | ble_server/energy.py:241-258 | the loop over run, longest and prev computes the scan that is proved to find the longest recovery |
| SessionDetector.ChargeSessionDetector.ClearHold | ble_server/energy.py:314-316 | drops hold and grace, nothing else |
| SessionDetector.ChargeSessionDetector.ShouldEnd | ble_server/energy.py:280-312 | all branches of the evaluation change the fields and answer exactly as the transition `ShouldEnd` says |
| DetectorTheorems.WindowAgreesWithHistory | ble_server/energy.py:208-228 | in time order the trimmed window is exactly the last 300 s of everything fed since the reset, so both medians are medians over the full history |
| DetectorTheorems.PeakIsLargestFastMedian | ble_server/energy.py:213-217 | the peak is the largest 20 s median any prefix of the run ever had |
| DetectorTheorems.RecoveryScanIsLongestBlock | ble_server/energy.py:241-258 | the one-pass scan returns the maximum over all contiguous above-limit blocks of in-window points, measured from the point before the block |
| DetectorTheorems.RecoverySecIsLongestRecovery | ble_server/energy.py:237-258 | for readings in time order the reported recovery is the longest stretch above the recovery threshold in the last 90 s |
| DetectorTheorems.NoRecoveryWhenLow | ble_server/energy.py:241-258 | a window at or below the threshold shows no recovery |
| DetectorTheorems.LowIsConverged | ble_server/energy.py:260-274 | 180 s into a low stretch the detector has converged, whatever its older points are |
| DetectorTheorems.LowRunHolds | ble_server/energy.py:280-312 | from an evaluation 180 s into a low stretch on, the hold is on and never younger than that evaluation |
| DetectorTheorems.SessionMustEnd | ble_server/energy.py:202-312 | a session must end: low readings with live voltage from time s on make every evaluation 600 s after the first one past s + 180 s (and past the minimum duration) say "end" |
| DetectorTheorems.HoldIsWitnessed | ble_server/energy.py:292-316 | the hold time always points at the evaluation that opened an unbroken hold, and the grace counter is exactly the non-converged time since |
| DetectorTheorems.HoldTimeSplits | ble_server/energy.py:289-312 | converged and non-converged time add up to the whole hold |
| DetectorTheorems.SessionEndsOnlyWhenJustified | ble_server/energy.py:241-316 | a session may end only when justified: the verdict rests on a hold of at least 600 s with at most 120 s not converged, no reading below 4 V, no recovery of 45 s, and comes at least 780 s after a fixed start |
| DetectorTheorems.FirstHoldEnds | ble_server/energy.py:280-312 | conversely, an unbroken hold opened by the first evaluation that may open one is answered "end" by every evaluation 600 s or more later: 120 s of non-converged time are borne |
| DetectorLevels.DrawingEnoughNeverEnds | ble_server/energy.py:128-143 | on every run of the detector from its reset, in any order of times: if every power fed so far is above 0.05 W, and above 0.6 W or above a fifth of the largest, no verdict has been "end" |
| DetectorLevels.PeakRemembers | ble_server/energy.py:213-217 | what was drawn for 20 s is in the peak from then on |
| DetectorLevels.DrawingLittleEnds | ble_server/energy.py:128-143 | a device that has drawn P for 20 s and then draws at most 0.05 W, or at most 0.6 W and at most P/5, is told to end at every evaluation 600 s after one that came 180 s into that stretch and into the session |
| DetectorLevels.EvaluationSeesHistory | ble_server/energy.py:260-274 | an evaluation finds the charge converged if and only if the voltage is at least 4 V and the medians of the last 20 s and 180 s of all readings are at most 0.05 W, or at most 0.6 W and a fifth of some 20 s median so far |
| DetectorLevels.EvaluationSeesRecovery | ble_server/energy.py:237-258 | an evaluation sees the longest stretch above 5 W among the readings of the last 90 s |
| DetectorLevels.HistoryMedianIsOfReadings | ble_server/energy.py:219-228 | the median over the last seconds is that of the powers of exactly the readings in them, negative ones counted as 0 |
| Energy.PortEnergyState.constructor | ble_server/energy.py:45-58 | a new energy record is all zero and not charging |
| Energy.AdaptiveEnergyIntegrator.Update | ble_server/energy.py:72-105 | one reading adds one trapezoid to all three totals or, over an irregular gap, only moves the position |
| Energy.IntegrateAllIsTrapezoidSum | ble_server/energy.py:72-105 | feeding readings one by one adds exactly their trapezoid sum without the gaps that are not in (0, 30] s |
| SessionGate.SessionStartGate.constructor | ble_server/energy.py:343-347 | a new gate is closed and has no raised threshold |
| SessionGate.SessionStartGate.NoteSessionEnd | ble_server/energy.py:349-358 | after a session the gate is raised to twice the tail threshold of its peak |
| SessionGate.SessionStartGate.NoteNoLoad | ble_server/energy.py:360-363 | an empty port lifts the raised threshold and forgets the running load |
| SessionGate.SessionStartGate.ShouldStart | ble_server/energy.py:372-385 | every branch of the gate changes the fields and answers as the transition `ShouldStart` says |
| SessionOpening.GateOpensExactlyAfterHold | ble_server/energy.py:372-385 | the gate opens if and only if the load has been above the threshold without a break for 30 s, and hands on the start of that load |
| SessionManager.PortSlots.constructor | ble_server/ble_manager.py:241-277 | a port starts with a fresh record, detector and gate, nothing buffered and nothing pending |
| SessionManager.PortSlots.BufferPreSession | ble_server/ble_manager.py:1104-1117 | the in-place ring keeps the readings of the last 120 s |
| SessionManager.PortSlots.TakePreSessionSamples | ble_server/ble_manager.py:1119-1129 | taking returns the buffered readings with run start <= t < now in order and empties the ring |
| SessionManager.PortSlots.ArmFullOff | ble_server/ble_manager.py:683-702 | only a low-power end of at least 1 Wh on an enabled port arms the power-off |
| SessionManager.PortSlots.MaybeArmFullOff | ble_server/ble_manager.py:704-727 | the no-load path arms once, if enabled and not pending |
| SessionManager.PortSlots.EnforceFullOff | ble_server/ble_manager.py:729-770 | confirmation, consumption of "once", retries and giving up, in the order of the code |
| SessionManager.PortSlots.EnforceChargeLimit | ble_server/ble_manager.py:638-676 | when and how a limit queues "off", including the failed enqueue |
| SessionManager.PortSlots.ReleaseLimit | ble_server/ble_manager.py:772-793 | a one-shot limit is consumed except on link loss and shutdown |
| SessionManager.PortSlots.SettleAfterClose | ble_server/ble_manager.py:1274-1291 | gate, detector and no-load bookkeeping after a close, by reason |
| SessionManager.PortSlots.CloseSession | ble_server/ble_manager.py:1259-1291 | a close on a charging port does all of it once; on an idle port nothing |
| SessionManager.PortSlots.CloseActiveSession | ble_server/ble_manager.py:840-870 | the bulk close of one port: detector and limit, but neither gate nor no-load bookkeeping nor power-off |
| SessionManager.PortSlots.WarmDetector | ble_server/ble_manager.py:1172-1178 | the loop feeds the buffered readings to the reset detector in order |
| SessionManager.PortSlots.BackfillEnergy | ble_server/ble_manager.py:1181-1191 | the loop integrates the buffered readings behind the first one |
| SessionManager.PortSlots.OpenEnergyRecord | ble_server/ble_manager.py:1155-1191 | the energy record of an opening session, with the lifetime totals saved and restored |
| SessionManager.PortSlots.StartSession | ble_server/ble_manager.py:1145-1199 | opening a session: backfill, warm-up, re-armed limit, withdrawn power-off |
| SessionManager.PortSlots.ManageOpenSession | ble_server/ble_manager.py:1029-1072 | branches A to C of the session management |
| SessionManager.PortSlots.WatchIdlePort | ble_server/ble_manager.py:1079-1097 | branch D: the no-load windows that arm the power-off |
| SessionManager.PortSlots.ManageSession | ble_server/ble_manager.py:1011-1100 | one reading through feed, buffer and the branches A to E |
| SessionManager.PortSlots.OnPush | ble_server/ble_manager.py:2550-2571 | the push sequence: integrate, manage, enforce the limit, enforce the power-off |
| SessionManager.PortSlots.OnTimer | ble_server/ble_manager.py:2072-2087 | the timer's sampling: the same session management, integration only while charging with current, and only then the limit |
| SessionManager.PortSlots.SetChargeLimit | ble_server/ble_manager.py:590-606 | a new limit and mode take effect at once, a negative one disables |
| SessionManager.PortSlots.SetPermanentPort | ble_server/ble_manager.py:414-428 | declaring a port permanent withdraws its power-off and its limit |
| SessionManager.PortSlots.SetFullOffMode | ble_server/ble_manager.py:434-460 | enabling, disabling and the permanent-port exclusion |
| EnergyAccounting.OpenEnergyIsBackfill | ble_server/ble_manager.py:1155-1191 | opening sets the session energy to the trapezoid sum of the waiting period and leaves lifetime and daily totals alone |
| EnergyAccounting.OpeningTakesSuffix | ble_server/ble_manager.py:1119-1156 | the readings a new session takes are a suffix of everything read before |
| EnergyAccounting.CloseRecords | ble_server/ble_manager.py:1259-1291 | a close records exactly one session, with the energy and interval it had |
| EnergyAccounting.BulkCloseRecords | ble_server/ble_manager.py:840-870 | a bulk close records the session like any other close and leaves gate, buffer and no-load bookkeeping alone |
| EnergyAccounting.PushKeeps | ble_server/ble_manager.py:2550-2571 | one reading keeps the energy books of the port |
| EnergyAccounting.EnergyIsAccounted | ble_server/ble_manager.py:1104-1191 | on every run lifetime total, session energy while charging and the energy of every closed session are the trapezoid sums over exactly their readings, through gate wait, backfill and updates |
| EnergyAccounting.TimerCountsUnderLoad | ble_server/ble_manager.py:2072-2087 | a reading of the timer counts energy only while a session is open and current flows, and then the trapezoid from the last counted reading |
| EnergyAccounting.SplitSum | ble_server/energy.py:72-105 | two disjoint stretches of readings are worth at most the whole |
| EnergyAccounting.NoEnergyIsCountedTwice | ble_server/ble_manager.py:1119-1191 | on every run session intervals are disjoint, and with non-negative powers closed sessions plus the open one never exceed the lifetime total |
| SessionOpening.GateRemembersLoad | ble_server/energy.py:372-385 | while it refuses, the gate remembers the start of the current unbroken load |
| SessionOpening.RunKnowsLoad | ble_server/energy.py:372-385 | on every run what the gate remembers is exactly the start of the load the port carries |
| SessionOpening.OpensExactlyUnderLoad | ble_server/ble_manager.py:1098-1100 | on every run an idle port's reading opens a session if and only if it asks the gate and a load has been carried up to it without interruption for at least 30 s |
| SessionOpening.BufferIsRecent | ble_server/ble_manager.py:1115-1117 | the ring holds nothing older than 120 s |
| SessionOpening.BufferKeepsComplete | ble_server/ble_manager.py:1104-1117 | an idle reading keeps the ring complete: no reading of the last 120 s taken since the last session is missing |
| SessionOpening.TakesAllFrom | ble_server/ble_manager.py:1119-1129 | no reading of the load that the ring can hold is missed |
| SessionOpening.SessionStartsWithItsLoad | ble_server/ble_manager.py:1145-1191 | on every run an opened session starts at the first reading of the load that opened it (as far as 120 s reach back): from a reading at least 30 s ago and after every earlier session on, no session was open, the port was not read empty and every question to the gate came with enough power, and no earlier reading began such a load |
| OpeningLevels.AskedAboutRecentMedian | ble_server/ble_manager.py:1098-1100 | on every run the gate of an idle port is asked about the median power of the last 20 s since the last session was closed |
| OpeningLevels.WeakLoadNeverOpens | ble_server/energy.py:366-385 | on every run no session opens as long as every power stays below 0.5 W |
| OpeningLevels.StrongLoadOpens | ble_server/energy.py:366-385 | on every run an idle port loaded with at least w from its next reading on, where w is at least 0.5 W, 0.1 A and the restart level if the gate is raised, has a session by the first reading 30 s after one that came 20 s into the load |
| Hysteresis.RunCoversPeak | ble_server/ble_manager.py:1161-1190 | on every run with regular readings the recorded maximum covers everything the end detector has seen, backfill included |
| Hysteresis.LowPowerEndRaisesGate | ble_server/ble_manager.py:1269-1278 | a low-power end leaves the gate at or above twice the threshold that ended the session, and nothing in the window reaches it |
| Hysteresis.NoRestartOnResidualPower | ble_server/energy.py:349-385 | after a low-power end no session opens while readings stay below max(0.4 W, twice that threshold) and the port is never read empty, whatever else happens |
| SessionEndings.LowPush | ble_server/ble_manager.py:1029-1072 | one low loaded reading either ends the session by low power or leaves it open one evaluation later |
| SessionEndings.RunIsTraced | ble_server/ble_manager.py:1011-1072 | on every run the detector's state is what the session's own ticks, fixed by the events, make of a reset detector: warm-up readings unevaluated, every later one evaluated with the energy of that moment exactly if the port is active and draws current |
| SessionEndings.LowPowerEndIsJustified | ble_server/ble_manager.py:1060-1072 | on every run a low-power close rests on all evaluations the session's readings have caused: they cover exactly its readings, and one of them opened a hold of at least 600 s with at most 120 s not converged, no reading below 4 V and no evaluation that saw a recovery of 45 s; it comes at least 780 s after the start |
| SessionEndings.SessionEndsOnLowPower | ble_server/ble_manager.py:1011-1072 | a charging port with 0.05 Wh whose readings from t0 on are low but live is ended by low power at the latest with the first reading 600 s after the first one past t0 + 180 s (and past the minimum duration), unless it was closed from outside before; confirmations, empty readings and settings changes may come in between at will |
| SessionEndings.DrawingEnoughIsNotEnded | ble_server/ble_manager.py:1060-1066 | on every run no reading ends a session for low power as long as every power since its start is above 0.05 W, and above 0.6 W or above a fifth of the largest |
| SessionEndings.DrawingLittleIsEnded | ble_server/ble_manager.py:1060-1066 | on every run a session of at least 0.05 Wh whose device has drawn P for 20 s and from t0 on draws at most 0.05 W, or at most 0.6 W and P/5, is over 600 s after the first reading 180 s later |
| SessionPeak.PeakIsLargestOfSession | ble_server/ble_manager.py:1161-1190 | on every run with regular readings the recorded maxima of power and current are those of exactly the readings from the session's start to now |
| SessionPeak.PeakAtClose | ble_server/ble_manager.py:1269-1278 | so they are in the record a closing reading leaves, on which the gate is raised |
| SessionClosing.ReadingClosesExactly | ble_server/ble_manager.py:1029-1071 | on every history in time order a reading closes an open session: for the user exactly if the port is switched off; without load exactly if nothing else has been read for 15 s, as unplugged below 4 V and as no load from 4 V on; with a load only for low power |
| SessionClosing.CloseSetsGate | ble_server/ble_manager.py:1269-1278 | a close, other than in bulk, lifts the gate for an unplugged device and otherwise raises it to 0.4 W, or 0.4 times the largest power of the session, at most 1.2 W; the detector is reset |
| SessionClosing.NoReopeningBelowLevel | ble_server/ble_manager.py:1269-1278 | after such a close no session opens, whatever happens, while readings stay below that level and the port is not read empty |
| SessionClosing.GateIsRaisedExactly | ble_server/energy.py:349-385 | on every history the gate is raised if and only if a session has ended, neither in bulk nor for an unplugged device, and since then none was opened and the port not read empty; and to the level of that session |
| PowerOff.EveryPowerOffIsAllowed | ble_server/ble_manager.py:638-770 | whatever happens, timer readings included, "off" is queued by the limit only in a session that has reached it, by the power-off only with no session open, at least 15 s apart and at most four times after arming, and never on a permanent port |
| LimitSpacing.LimitCommandsAreSpaced | ble_server/ble_manager.py:638-667 | on every run, commands really queued for the limit within one session are at least 15 s apart, whatever settings change, unless the port was declared permanent in between |
| LimitSpacing.PermanentAndBackRearms | ble_server/ble_manager.py:414-428 | in every open session: declaring the port permanent and back forgets the command in flight, and a limit set again that is already reached fires at once |
| LimitSpacing.LimitMayFireTwice | ble_server/ble_manager.py:638-667 | a concrete run from the start in which two commands of one session are queued one second apart |
| PowerOff.LimitOvershootBound | ble_server/ble_manager.py:2556-2571 | the first firing after the opening reading happens at or above the limit and below limit + Pmax/120 Wh |
| PowerOffRules.ReachedLimitIsEnforced | ble_server/ble_manager.py:638-676 | on every history, after a reading that is integrated, a positive limit reached by an open session of a port that is not permanent has been commanded with this reading, or queued in this session less than 15 s ago |
| PowerOffRules.LimitChangesOnlySo | ble_server/ble_manager.py:772-793 | a limit for one session is used up by the end of a session unless the link was lost or the service stopped; setting it and declaring the port permanent change it; nothing else does; its mode changes only as set |
| PowerOffRules.ModeChangesOnlySo | ble_server/ble_manager.py:729-770 | the power-off for once is used up exactly when one that is waited for is confirmed; setting it and declaring the port permanent change it; nothing else does |
| PowerOffRules.SeenOffIsShown | ble_server/ble_manager.py:729-770 | on every history a power-off that is armed is waited for until the port is seen off, and then shown as having switched it off unless it was for once; seen on, it is not |
| PowerOffRules.RepeatedFourTimesThenGivenUp | ble_server/ble_manager.py:729-770 | a power-off that meets the port still on 15 s apart is repeated until four times in all, then given up, and its mode kept |
| PowerOffRules.CommandedFiveTimesAtMost | ble_server/ble_manager.py:729-770 | on every history, in terms of the log: one that is waited for and was repeated n times since its arming is repeated 4 - n times more and then given up |
| PowerOffRules.NotRepeatedTooSoon | ble_server/ble_manager.py:729-770 | within 15 s of its last command it is not repeated |
| Arming.RunIsKnown | ble_server/ble_manager.py:1039-1048 | on every history, timer readings included, the no-load bookkeeping tells since when nothing was a sign of a device drawing power |
| Arming.ArmingNeedsEvidence | ble_server/ble_manager.py:1079-1097 | on every history, timer readings included, the power-off is armed only after a low-power end worth at least 1 Wh, or with a live reading of an idle port unloaded for 600 s, or for 120 s if the last session ended for want of load |
| ArmingRules.LowPowerEndArms | ble_server/ble_manager.py:683-702 | in every state, a session ended for low power arms the power-off if and only if that is on and the session was worth at least 1 Wh |
| ArmingRules.QuietPortIsArmed | ble_server/ble_manager.py:1079-1097 | on every history, an idle port with the power-off on whose readings stay at or below 2 W at live voltage is armed by the first reading 600 s after the first of them, or 120 s if a session was ended there for want of load, if no session opens before |
| ArmingRules.ArmedOncePerIdleStretch | ble_server/ble_manager.py:1079-1097 | between two armings of an idle port it carries more than 2 W or has a session open |
| SessionRegistry.Registry.constructor | ble_server/ble_manager.py:221-249 | nothing registered, nothing in flight |
| SessionRegistry.Registry.RunInExecutor | ble_server/ble_manager.py:1217-1219 | a request joins the tasks in flight |
| SessionRegistry.Registry.StartSession | ble_server/ble_manager.py:1212-1219 | an opening session asks for a row |
| SessionRegistry.Registry.InsertRow | ble_server/ble_manager.py:1217-1219 | a worker inserts a row or fails |
| SessionRegistry.Registry.OnInserted | ble_server/ble_manager.py:1221-1239 | the callback registers the row, or schedules its removal when nobody waits for it |
| SessionRegistry.Registry.CloseSession | ble_server/ble_manager.py:1259-1356 | a close unregisters and schedules exactly one end or delete of a real row |
| SessionRegistry.Registry.ResumeRecordingSessions | ble_server/ble_manager.py:872-937 | the loop over the placeholders asks for one real row each |
| SessionRows.AllMovesKeep | ble_server/ble_manager.py:872-937 | every interleaving of the steps keeps the row bookkeeping consistent |
| SessionRows.EveryRowIsAccountedFor | ble_server/ble_manager.py:1217-1356 | in every interleaving an inserted row whose callback has run is registered for exactly one charging port or has had exactly one end or delete scheduled |
| SessionRows.OpenRowsAreRegistered | ble_server/ble_manager.py:1217-1356 | with nothing in flight the open rows are exactly the registered ones, and none is open once every port is idle |
| SessionRows.RowGoesToItsSessionIffNotClosed | ble_server/ble_manager.py:1217-1237 | on every run a row registered for a port goes to the very session that asked for it if and only if that session was not closed between the request and the callback; otherwise to a later one |
| SessionRows.ResumedRowGoesToItsSession | ble_server/ble_manager.py:884-920 | on every run a row requested when recording was resumed, and registered, goes to the very session that held the placeholder |
| SessionRows.ResumeAsksForEveryPlaceholder | ble_server/ble_manager.py:884-899 | switching the recording on asks for a row for every given port that is charging on a placeholder, for nothing else, and once per port |
| SessionRows.RowsAreMade | ble_server/ble_manager.py:1217-1228 | an opening session asks for one row, an open one for no other; an insert that runs makes a new row for its task, and one that fails leaves nothing behind |
| SessionRows.ResumedSessionGetsRow | ble_server/ble_manager.py:899-920 | on every run an inserted row asked for a placeholder becomes the port's id if and only if the port still shows the placeholder, and is deleted otherwise; a session not closed meanwhile has a row afterwards |
| SessionRows.OpenedSessionGetsRow | ble_server/ble_manager.py:1217-1237 | on every run an inserted row asked for by an opening session becomes the port's id if and only if the port is charging without one, and is deleted otherwise; a session not closed meanwhile has a row afterwards |
| SessionRows.RowMayPassToLaterSession | ble_server/ble_manager.py:1229-1235 | a concrete run in which the session is closed in between and the row is registered for the next one |
| ScanCoordinator.Coordinator.constructor | ble_server/adapter_coordinator.py:76-106 | no scan, no waiter |
| ScanCoordinator.Coordinator.SetResult | ble_server/adapter_coordinator.py:210-218 | a future is answered at most once |
| ScanCoordinator.Coordinator.FindDevice | ble_server/adapter_coordinator.py:185-198 | join an unanswered future, or create one and lead |
| ScanCoordinator.Coordinator.DropLeader | ble_server/adapter_coordinator.py:221-222 | the sign comes down only while it is the leader's own, the lock is given up |
| ScanCoordinator.Coordinator.Leave | ble_server/adapter_coordinator.py:219-228 | the `finally` block leaves the future answered |
| ScanCoordinator.Coordinator.AnswerOne | ble_server/adapter_coordinator.py:210-215 | one waiter gets what the index has for its key, by address or by the address in the service data |
| ScanCoordinator.Coordinator.BuildIndex | ble_server/adapter_coordinator.py:166-183 | the loop over the advertisements fills both indices, later ones over earlier |
| ScanCoordinator.Coordinator.LockGranted | ble_server/adapter_coordinator.py:198-206 | answered while waiting: return at once, else scan |
| ScanCoordinator.Coordinator.AnswerWaiters | ble_server/adapter_coordinator.py:209-215 | the loop answers every waiter that has no answer yet, from one index |
| ScanCoordinator.Coordinator.DiscoveryReturned | ble_server/adapter_coordinator.py:202-228 | the end of a discovery, failed or not |
| ScanCoordinator.Coordinator.LeaderCancelled | ble_server/adapter_coordinator.py:219-228 | cancellation at any suspension point |
| ScanCoordinator.Coordinator.FollowerResumed | ble_server/adapter_coordinator.py:191-193 | a follower goes on once its future is done |
| ScanMerge.EveryRunKeeps | ble_server/adapter_coordinator.py:185-228 | the scan invariant over every interleaving |
| ScanMerge.EveryFutureHasALeaderOrAnAnswer | ble_server/adapter_coordinator.py:185-228 | every future is answered at most once; an unanswered one that anybody waits for has a live leader |
| ScanMerge.OneDiscoveryAtATime | ble_server/adapter_coordinator.py:198-208 | at most one discovery runs |
| ScanMerge.OneDiscoveryAnswersAll | ble_server/adapter_coordinator.py:166-218 | one discovery answers every future unanswered when it ends: with the device last advertised under its address, failing that the one last heard to carry it in its service data, and none exactly if there is neither; it changes no earlier answer |
| ScanMerge.LeavingAnswers | ble_server/adapter_coordinator.py:219-228 | a leader that leaves by return, failed scan or cancellation leaves its future done |
| ScanMerge.CancelledLeaderFindsNothing | ble_server/adapter_coordinator.py:219-228 | a leader cancelled before it has an answer leaves "nothing found" and no other answer |
| ScanMerge.FollowersGoOnAnswered | ble_server/adapter_coordinator.py:190-196 | a caller that waits goes on exactly when its future has an answer |
| ScanMerge.NoNeedlessScan | ble_server/adapter_coordinator.py:190-204 | a key never has two unanswered leaders, and a discovery runs only for a leader without an answer |
| ScanMerge.EveryCallerWaitsOrLeads | ble_server/adapter_coordinator.py:190-198 | a caller waits for the unanswered future of its key if that has a leader, and otherwise leads a new one |
| ScanMerge.SomeLeaderCanMove | ble_server/adapter_coordinator.py:198-228 | the scan lock is never lost |
| ScanMerge.NoFollowerWaitsForever | ble_server/adapter_coordinator.py:185-228 | from any reachable state at most two steps per leader remain, one is possible while a leader lives, and then every follower has an answer |
| RecoveryCoordinator.Coordinator.constructor | ble_server/adapter_coordinator.py:76-106 | open gate, free adapter, no failures |
| RecoveryCoordinator.Coordinator.ClearDevice | ble_server/adapter_coordinator.py:303-305 | all counters of a device are forgotten |
| RecoveryCoordinator.Coordinator.Finish | ble_server/adapter_coordinator.py:285-308 | a call ends with its level |
| RecoveryCoordinator.Coordinator.DeclareBackoff | ble_server/adapter_coordinator.py:412-434 | the visible backoff counts and alerts at the third time |
| RecoveryCoordinator.Coordinator.RecoverDevice | ble_server/adapter_coordinator.py:266-279 | a recovery starts with the disconnect of its own device |
| RecoveryCoordinator.Coordinator.OnUnlinked | ble_server/adapter_coordinator.py:254-257 | the link is taken off the live set as it was spelled |
| RecoveryCoordinator.Coordinator.OnSettled | ble_server/adapter_coordinator.py:273-285 | single device: straight to the adapter; otherwise first failure L1, later ones go on |
| RecoveryCoordinator.Coordinator.OnRemoved | ble_server/adapter_coordinator.py:287-307 | L1.5 with backoff or on to the adapter |
| RecoveryCoordinator.Coordinator.OnAdapterGranted | ble_server/adapter_coordinator.py:313-325 | entering the adapter section closes the gate and takes down the list of live links |
| RecoveryCoordinator.Coordinator.OnSwept | ble_server/adapter_coordinator.py:326-327 | one turn of the loop that cuts the links found on entry |
| RecoveryCoordinator.Coordinator.OnPowerCycled | ble_server/adapter_coordinator.py:326-332 | the reset is counted, the gate opens, the device is forgotten |
| RecoveryCoordinator.Coordinator.OnAborted | ble_server/adapter_coordinator.py:325-332 | a failed or cancelled call leaves the gate open |
| RecoveryCoordinator.Coordinator.NoteConnected | ble_server/adapter_coordinator.py:450-455 | a connected device is live and has no failures |
| RecoveryLadder.EveryRunKeeps | ble_server/adapter_coordinator.py:254-455 | the ladder invariant over every interleaving |
| RecoveryLadder.RecoveriesClimbOneLadder | ble_server/adapter_coordinator.py:266-311 | between two clears a device sees L1, then L1.5 any number of times, then at most one L2; the backoff count is the number of L1.5 results |
| RecoveryLadder.ResetExactlyWithoutLiveLinks | ble_server/adapter_coordinator.py:285-311 | on every run a call that is not ended from outside and does not return L1 has had its own removal, and returns L2 if and only if no link was live at that moment |
| RecoveryLadder.RemovalDecides | ble_server/adapter_coordinator.py:287-307 | at the removal a call goes on to the adapter if and only if no link is live, and otherwise returns L1.5 at once |
| RecoveryLadder.DisconnectDecides | ble_server/adapter_coordinator.py:279-287 | with several devices, after its disconnect the first call since the last clear returns L1 and any other goes on to the removal |
| RecoveryLadder.SingleDeviceAlwaysResets | ble_server/adapter_coordinator.py:273-278 | on every run with at most one device a call not ended from outside goes from its disconnect to the adapter and ends with its counted power cycle, returning L2; no other level is returned, no failure counted, no backoff declared |
| RecoveryLadder.SingleRecoveryRunsThrough | ble_server/adapter_coordinator.py:273-278 | from a fresh start a single device's recovery runs through to its reset |
| RecoveryLadder.ResetsAreCounted | ble_server/adapter_coordinator.py:313-332 | on every run every completed reset is counted and nothing else; it ends the call, opens the gate and frees the adapter |
| RecoveryLadder.AlertedFromThirdOn | ble_server/adapter_coordinator.py:412-436 | a backoff has been reported if and only if it has been declared at least three times since the last clear |
| RecoveryLadder.AbortOnlyEndsTheCall | ble_server/adapter_coordinator.py:323-332 | a call ended from outside ends and changes nothing else, but opens the gate and frees the adapter if it was inside |
| RecoveryLadder.ReturningForgets | ble_server/adapter_coordinator.py:450-455 | a device connected again or rebuilt has all its failures forgotten, and no other |
| RecoveryLadder.GateClosedOnlyDuringReset | ble_server/adapter_coordinator.py:313-332 | with any number of devices the gate is closed exactly while one call is inside the adapter section, and open after every exit from it |
| RecoveryLadder.LiveLinksAreCutFirst | ble_server/adapter_coordinator.py:313-332 | between entering the adapter section and the power cycle every link that was live on entry has been cut by itself, and once all have the power cycle can complete |
| RecoveryLadder.ResetMeetsExactlyLateLinks | ble_server/adapter_coordinator.py:297-325 | on every run the links a call finds live on entering the adapter section, and has to cut, are exactly those that came up after its decision to reset and stayed up |
| RecoveryLadder.ResetMayMeetLateConnection | ble_server/adapter_coordinator.py:297-325 | a concrete run of two devices, from the start, in which a device that connects between decision and adapter lock is live when the adapter section begins |
| L2capReassembly.L2capReassembler.constructor | ble_server/scripts/extract_btsnoop_frames.py:273-277 | nothing open, all counters zero |
| L2capReassembly.L2capReassembler.WalkBuffer | ble_server/scripts/extract_btsnoop_frames.py:305-324 | the loop over the buffer reports whole SDUs, opens a begun one and counts what it gives up on, as the walk function says |
| L2capReassembly.L2capReassembler.Feed | ble_server/scripts/extract_btsnoop_frames.py:279-303 | one record: continue the open SDU of its connection or walk, with all early returns and what happens to the three counters |
| L2cap.WalkPrefix | ble_server/scripts/extract_btsnoop_frames.py:305-324 | from a clean start, a record of whole SDUs and part of a further one reports exactly the whole ones and keeps the rest open |
| L2cap.FeedStep | ble_server/scripts/extract_btsnoop_frames.py:279-303 | one record of the connection moves the reassembler along the serialised stream by exactly its bytes |
| L2cap.OtherConnection | ble_server/scripts/extract_btsnoop_frames.py:279-303 | records of other connections do not touch this one |
| L2cap.RecordReadsBack | ble_server/scripts/extract_btsnoop_frames.py:279-287 | a record is read back as its connection and data whatever its boundary flags |
| L2cap.NoLengthMeansAll | ble_server/scripts/extract_btsnoop_frames.py:279-287 | a record that declares no length carries everything behind its header |
| L2cap.HeaderBelievedExactly | ble_server/scripts/extract_btsnoop_frames.py:305-324 | with nothing open, a header for a channel other than 1, 2, 4 to 10 or 64 and above counts as one orphan, one with a length of 0 or above 1024 as one unparsable, and any other is followed |
| L2cap.OpenSduGrows | ble_server/scripts/extract_btsnoop_frames.py:289-301 | a record adds to an open SDU until that is complete, which is then reported first and counted |
| L2cap.ReassemblyRoundTrip | ble_server/scripts/extract_btsnoop_frames.py:251-324 | any valid SDUs, serialised, cut anywhere but inside a header and interleaved with other connections, come back exactly, in order, with nothing left open |
| L2cap.RoundTripExactlyWithoutHeaderCuts | ble_server/scripts/extract_btsnoop_frames.py:251-324 | for the serialisation of valid SDUs spread over a capture in any way, exactly those SDUs come out and nothing stays open if and only if no record of the connection ends inside a header |
| L2cap.BadCutLoses | ble_server/scripts/extract_btsnoop_frames.py:305-324 | a capture one of whose first n records ends inside a header has lost bytes by then; what is lost stays lost |
| L2cap.HeaderCutIsSilent | ble_server/scripts/extract_btsnoop_frames.py:305-309 | wherever the receiver stands in a stream of valid SDUs, a record of the next bytes counts nothing as orphaned or unparsable, and drops bytes if and only if it ends inside a header |
| Downsample.SumSlice | ble_server/downsample.py:27-28 | the sum of a slice |
| Downsample.PickFromBucket | ble_server/downsample.py:31-45 | the inner loop finds the first point of the bucket with the largest triangle |
| Downsample.LttbDownsample | ble_server/downsample.py:4-52 | the whole procedure: all early returns, exactly `target` points, and every pick a largest triangle of its non-empty bucket |
| Downsample.BoundaryStep | ble_server/downsample.py:16-25 | bucket boundaries grow by at least one |
| Downsample.NextBucketNonEmpty | ble_server/downsample.py:21-28 | the divisor is never zero and every index is inside the data |
| Downsample.DownsampleIsSubsequence | ble_server/downsample.py:14-52 | the chosen indices are strictly increasing and include the first and the last |
| Downsample.ChoiceIsUnique | ble_server/downsample.py:18-47 | data and target determine the choice |
| Downsample.BoundaryPointNeverCompetes | ble_server/downsample.py:21-22 | a point on a boundary belongs to no bucket |
| Downsample.CompetesUnlessOnBoundary | ble_server/downsample.py:21-22 | between the first and the last point exactly the points on no boundary compete in a bucket |
| Downsample.BoundaryPickedExactlyIfEmpty | ble_server/downsample.py:31-47 | the point picked for a bucket is the one on its boundary if and only if the bucket is empty, that is, its boundaries are neighbours |
| Downsample.BoundaryIsFloor | ble_server/downsample.py:16-22 | boundary i is the integer part of i buckets |
| Downsample.AreaIsDeterminant | ble_server/downsample.py:36-41 | the compared number is the absolute determinant of the three corners, twice the triangle area |
| Downsample.NextAverageIsMean | ble_server/downsample.py:24-29 | the third corner is the mean of exactly the points from this boundary up to the next |
| SecureChannel.Controller.constructor | ble_server/src/cuktech_ble/controller.py:62-63 | the counter tracking starts at zero |
| SecureChannel.Controller.SetupCmdChannel | ble_server/src/cuktech_ble/controller.py:744-749 | a new command channel resets the tracking |
| SecureChannel.Controller.Decrypt | ble_server/src/cuktech_ble/controller.py:701-731 | a frame is opened under the counter that the whole history of frames determines; one shorter than six bytes changes nothing |
| CounterTracking.TrackIsRightIffVisible | ble_server/src/cuktech_ble/controller.py:716-721 | from the right counter the next one is rebuilt exactly if the advance shows in the low 16 bits |
| CounterTracking.CountersRightIffVisible | ble_server/src/cuktech_ble/controller.py:711-721 | all counters of a run are rebuilt if and only if every advance shows |
| CounterTracking.SmallAdvancesAreRebuilt | ble_server/src/cuktech_ble/controller.py:711-721 | advances of 0 to 32767 per received frame are always rebuilt |
| CounterTracking.HalfRangeAdvanceIsMissed | ble_server/src/cuktech_ble/controller.py:716-721 | an advance of 32768 across a wrap is always missed |
| SecureChannel.DecryptsWithTrueCounter | ble_server/src/cuktech_ble/controller.py:707-731 | while the counter advances by at most 32767 per frame, a frame is decrypted with the device's own counter, and is an overflow exactly from 2^32 on |
| SseEmitting.SseEmitter.constructor | ble_server/ha_server.py:169-172 | no clients, nothing pending |
| SseEmitting.SseEmitter.AddClient | ble_server/ha_server.py:174-177 | a new client starts empty, the others are untouched |
| SseEmitting.SseEmitter.RemoveClient | ble_server/ha_server.py:179-187 | a leaving client takes all its pending statuses along |
| SseEmitting.SseEmitter.PutOrDrop | ble_server/ha_server.py:190-203 | a full queue drops its oldest event, and only then |
| SseEmitting.SseEmitter.EmitToClient | ble_server/ha_server.py:219-230 | status replaces the pending one; any other event is queued behind it |
| SseEmitting.SseEmitter.Emit | ble_server/ha_server.py:205-230 | the loop under the lock serves every connected client and no other |
| SseEmitting.SseEmitter.FlushStatus | ble_server/ha_server.py:232-238 | hands out and clears one pending status |
| SseStreams.CoalescedAppend | ble_server/ha_server.py:219-230 | how one more happening changes the coalesced stream |
| SseStreams.StatusesAreCoalesced | ble_server/ha_server.py:205-238 | for every client and device, everything handed over followed by the pending status is the emission stream without the statuses immediately followed by another status |
| SseStreams.LatestStatusIsPending | ble_server/ha_server.py:219-238 | for every device exactly the latest status that nothing has happened after is pending |
| SseStreams.HandedIsEnqueued | ble_server/ha_server.py:219-238 | without flushes everything handed over went through the queue |
| SseStreams.QueueKeepsTheNewest | ble_server/ha_server.py:190-230 | the queue is always the newest part of what was put in and not taken, at most 128 events, ending in the newest event; losses come only from its old end |
| SseStreams.LostOnlyWhenFull | ble_server/ha_server.py:190-230 | an emission puts none, one or two events into the queue and loses exactly as many as there is no room for in 128 places |
| SseStreams.PopTakesOldest | ble_server/ha_server.py:190-203 | taking an event takes the oldest and leaves the rest |
| SqlLike.FoldIgnoresCase | ble_server/scripts/history_down.py:130-136 | two characters are the same to LIKE if equal or the two cases of one ASCII letter |
| SqlLike.EscapedIsQuoted | ble_server/scripts/history_down.py:133-134 | the three replacements in their order put exactly one backslash in front of every special character |
| SqlLike.ColonPattern | ble_server/scripts/history_down.py:135 | the first pattern selects exactly the keys with a colon |
| SqlLike.EscapedPrefix | ble_server/scripts/history_down.py:133-136 | the escaped pattern matches exactly the keys that begin with the id and a colon, up to ASCII case |
| SqlLike.UnescapedPattern | ble_server/scripts/history_down.py:130-136 | what the pattern would select without escaping: keys that begin like the id, its underscores standing for any character |
| Rollback.SettingsFollowTheirDevice | ble_server/scripts/history_down.py:126-139 | for ids the configuration accepts, a setting is selected if and only if it belongs to a named device other than the kept one |
| Rollback.UnescapedConfusesExactly | ble_server/scripts/history_down.py:130-134 | without escaping a setting of another device would pass for the kept one's if and only if the ids have the same length and differ only at underscores of the kept one |
| Rollback.OnlyKeptDeviceRemains | ble_server/scripts/history_down.py:112-170 | after a run the main tables hold exactly the kept device's sessions and samples and no point of a foreign session |
| Rollback.MoveKeepsRows | ble_server/scripts/history_down.py:155-159 | insert-or-ignore then delete keeps all rows if and only if no selected row is archived differently under its key; it invents none |
| Rollback.NothingIsLost | ble_server/scripts/history_down.py:144-170 | a run preserves main and archive rows together if and only if no selected id is archived with another row |
| Rollback.SettingSetAgainIsLost | ble_server/scripts/history_down.py:161-170 | a setting archived once, set to another value and rolled back again is lost: the condition of a preserving run fails and the second value is in neither table |
| Rollback.DisjointIdsLoseNothing | ble_server/scripts/history_down.py:144-170 | with disjoint ids every row is in exactly one of the two tables before and after |
| Rollback.SecondRunIsIdle | ble_server/scripts/history_down.py:112-172 | a second run counts zero everywhere and changes nothing |
| Rollback.IdleWhenNothingForeign | ble_server/scripts/history_down.py:141-142 | the early exit skips nothing |
| Rollback.StagesResult | ble_server/scripts/history_down.py:144-159 | what each order of the tables does, in terms of the database before the run |
| Rollback.OrderIsEssential | ble_server/scripts/history_down.py:49-52 | an order of the tables is right on a database if and only if points come before sessions or no point is foreign; otherwise no foreign point leaves |
| HistoryDown.HistoryDb.constructor | ble_server/scripts/history_down.py:100-110 | an opened database with its tables |
| HistoryDown.HistoryDb.ArchiveTable | ble_server/scripts/history_down.py:144-159 | the two statements for one table, filter evaluated as they are executed |
| HistoryDown.HistoryDb.ArchiveMeta | ble_server/scripts/history_down.py:161-170 | the two statements for the settings |
| HistoryDown.HistoryDb.ArchiveNonPrimary | ble_server/scripts/history_down.py:90-175 | the whole script with its early exits moves every row by what it was before the run, or nothing |

## Left out

- Rounding: floating point, and the two-decimal rounding of buffered readings (ble_manager.py:1114), which changes nothing for device values in steps of 0.1; the LTTB bucket size is an exact fraction.
- The one-second sampling path, except in the theorems about histories and `EnergyAccounting.TimerCountsUnderLoad`: it skips integration while idle and at 0 A, so energy equalities and what builds on them are about pushed readings. When the timer samples (stale last reading, empty ports skipped) is a free choice.
- Recording resumed in the middle of a session, for the energy claims: it restarts the session's energy on purpose. For the row protocol it is modelled.
- Switching recording off again, and the bulk close on a lost link or at shutdown, for the row protocol: both can leave an open row for the clean-up at start. For the session itself the bulk close is modelled.
- A close without an event loop, and the clean-up of a placeholder id on a port that is no longer charging.
- Curve points, in-memory curves of permanent ports, averages, MQTT and browser notifications of a session, logging.
- Day change of the daily total, `converged_sec`, and the readers that only format state.
- Normalisation of user input for limits and port names: the model gets a number and a mode; only a negative limit is normalised.
- The session energy after a close: it goes on counting until the next start, so it is stated while charging and at the close.
- Bluetooth I/O, `bluetoothctl`, connection slots and start-up staggering; device restart and process restart, except that a rebuilt device has its failures cleared.
- One recovery, connect or rebuild at a time for one device: they belong to one manager. Different devices interleave freely.
- Cancellation of a follower in `find_device`: it cancels the shared future.
- AES-CCM and key derivation: the cipher is an arbitrary function of counter and ciphertext.
- Parsing of capture files and truncated captures; ATT decoding behind the reassembler.
- The order in which the browser handler writes a pending status and queued events; events are abstract payloads, and pending statuses are grouped by client instead of keyed by pairs.
- SQL execution, transactions, the schema of archive tables and their time stamps: a table is a map from primary key to row, a missing table is an error without effect.
- ESP32 firmware, web pages, configuration, MQTT, cloud and HTTP clients: input and output, or easy members.
