# Solar-surplus EV charging controller: a Dafny model

This project models the decision logic in `main.py` of a home-energy controller.
The controller sets an electric car's charging current so that the car draws only
the solar power the house does not use. First it reserves part of that surplus for
the home battery (the Powerwall). The model covers five parts:

- **StatCounter**: a window over the last `cap` samples that keeps a running sum.
  A session uses one over 100 solar samples and one over 10 surplus samples.
- **Powerwall.allocate_power**: the watts reserved for the battery below 90% charge.
- **Vehicle**: reading the charging power. It also turns a power budget into an
  amperage and then into an ordered list of stop, start and set-amperage commands.
- **Session**: one control cycle (`_cycle`) and the loop that counts errors (`start`).
- **main's vehicle pass**: for each vehicle, decide whether to skip it or start a session.

The remote service is the `Api` module. Telemetry replies (site status, vehicle
state, or an `APIError`) are inputs to each cycle. Commands go to a `TeslaApi`
object. It logs every command it receives, in order. A fixed set of log positions
stands for the requests the service answers with an `APIError`. Each cycle is
specified by a pure function `Sessions.Step` on a `SessionState` value. The
`Session.Cycle` method is proved to implement it. `Session.Start` is proved to
run one `Step` per input, in order, which `Sessions.RunIsTrace` shows is
`Sessions.Trace` of its inputs. Its error counter equals `Sessions.Supervise` of
the outcomes.

A cycle ends in one of five outcomes:

- `Continue`: `_cycle` returned True.
- `Finished`: it returned False.
- `Failed`: an `APIError` was raised.
- `ProcessExit`: the solar gate called `exit()`.
- `Crashed`: the cycle divided by a charger voltage of 0.

The model follows the code:

- The current ceiling is fixed at 40 A.
- There is no wake cooldown.
- No final stop command is sent when a session ends.
- The solar gate is checked after the asleep, disconnected and complete checks. When it fails, the process exits.
- An `APIError` raised while `main` refreshes a vehicle is not caught. It ends the process.

## Model

| member | source | states |
|---|---|---|
| Api.Transmit | main.py:26-39 | Commands reach the service in order. The first `APIError` stops the batch. What was sent is a prefix of the batch. The batch counts as accepted exactly when all of it was sent and no position was refused. |
| Api.TransmitAcceptsBeforeNext | main.py:33-39 | A later command of a batch is sent only if the one before it was accepted. |
| Api.TeslaApi.Issue | api.py:21-35 | Each command is appended to the service's log. It fails exactly when its position is a refused one. |
| StatCounters.AddSample | main.py:86-90 | With a positive cap, the counter is never empty after `add`. |
| StatCounters.SumAppend | main.py:86-88 | Appending a value adds exactly that value to the sum. This is the step that keeps the running sum right. |
| StatCounters.AddSampleKeepsLast | main.py:86-90 | One `add` turns the last `cap` values of a history into the last `cap` values of the history plus the new value. Eviction removes only the oldest value. |
| StatCounters.ReplayKeepsLast | main.py:86-90 | After any sequence of `add` calls, the counter holds exactly the last min(n, cap) values, in insertion order. It never holds more than `cap`. |
| StatCounters.StatCounter.constructor | main.py:81-84 | A new counter is empty, with a zero sum and the given cap. |
| StatCounters.StatCounter.Add | main.py:86-90 | Keeps the invariant: the sum equals the sum of the retained values, those values are the last `cap` added, and there are at most `cap` of them. The new values are the old ones plus `v`, minus the oldest on overflow. |
| StatCounters.StatCounter.Length | main.py:92-93 | The length is min(number of values added, cap). |
| StatCounters.StatCounter.GetAverage | main.py:95-96 | On a non-empty counter, the running sum over the length equals the mean of the last min(n, cap) values added. |
| StatCounters.StatCounter.GetLatest | main.py:98-99 | Returns the value added most recently. |
| Powerwalls.Allocation | main.py:67-77 | The reservation is 0 at or above 90% charge and never more than 5000 W. |
| Powerwalls.AllocationNonNegative | main.py:69-75 | For a pack of non-negative energy, the reservation is never negative. |
| Powerwalls.AllocationReachesTarget | main.py:70-72 | Below 90%, the reservation is the smaller of the 5000 W cap and the power that delivers the energy missing up to 90% in 5 minutes. It never delivers more than that energy, and it equals one of the two. |
| Powerwalls.AllocationNonIncreasing | main.py:67-77 | For a fixed pack, the reservation does not increase as the charge percentage rises. |
| Powerwalls.Powerwall.constructor | main.py:58-61 | A new Powerwall has its id and name and no status yet. |
| Powerwalls.Powerwall.RefreshStatus | main.py:63-65 | Stores the fetched status. An `APIError` leaves the previous status in place. |
| Powerwalls.Powerwall.AllocatePower | main.py:67-77 | Computes the reservation from the stored status: at most 5000 W, and 0 from 90% up. |
| Vehicles.ChargingPower | main.py:41-50 | A stopped charger reads (240 V, 0 A, 0 W). Any other state reads the charger's own voltage and current. In both cases power is current times voltage. |
| Vehicles.RoundHalfEven | main.py:53 | Python's `round`: the result is within 1/2 of the input, and a tie goes to the even neighbour. |
| Vehicles.RoundHalfEvenUnique | main.py:53 | No other integer has those two properties, so the rounding is fully determined. |
| Vehicles.ClampAmps | main.py:53 | `max(0, min(40, x))`: the result is in [0, 40], equals x inside that range, and is 40 above it and 0 below it. |
| Vehicles.AmpFor | main.py:52-53 | The requested amperage is always in [0, 40] and is within half an amp of the clamped request power / voltage. |
| Vehicles.AmpForSaturates | main.py:53 | At a positive voltage, a budget of 40 A worth of power or more asks for exactly 40 A. A budget of no power asks for 0 A. |
| Vehicles.AmpCommands | main.py:26-39 | The commands for one amperage: one or two of them, each naming the vehicle. |
| Vehicles.AmpCommandsShape | main.py:26-39 | 0 A gives exactly [stop]. A non-zero amperage gives [start, set-amps] when the charger is stopped and exactly [set-amps] otherwise. |
| Vehicles.SetAmpsFollowsAcceptedStart | main.py:33-38 | For a stopped charger, a set-amps command reaches the service only after a start that the service accepted. |
| Vehicles.Vehicle.constructor | main.py:9-12 | A new Vehicle has its api, id and name and no charge state yet. |
| Vehicles.Vehicle.RefreshStatus | main.py:14-20 | Reports asleep, or the charging state. The charge state is stored only when the vehicle is awake and the fetch succeeded. |
| Vehicles.Vehicle.WakeUp | main.py:22-24 | Sends exactly one wake command. |
| Vehicles.Vehicle.SetChargingAmp | main.py:26-39 | Sends `AmpCommands` for the stored charging state, in order, stopping at the first `APIError`. |
| Vehicles.Vehicle.GetChargingPower | main.py:41-50 | The reading of the stored charge state, with power equal to current times voltage. |
| Vehicles.Vehicle.SetChargingPower | main.py:52-54 | Sends the commands for the amperage `AmpFor(power, voltage)`. |
| Sessions.NextChargingPower | main.py:167 | The car's budget is never negative. It is 0 exactly when the average surplus does not exceed the battery reservation, and otherwise it is their difference. |
| Sessions.NeedsCommand | main.py:168-169 | A command is due whenever the change exceeds the 250 W deadband, and always when a charging vehicle's budget drops to 0. Inside the deadband it is due only in that second case. |
| Sessions.Surplus | main.py:153-154 | With the vehicle drawing nothing, the surplus is solar less load. |
| Sessions.SurplusIsSolarLessHouse | main.py:153-154 | The load reading includes the vehicle's draw, so the surplus is solar less what the house uses on its own, whatever the vehicle draws. |
| Sessions.Step | main.py:131-173 | One cycle. Commands are only appended to the service's log, never altered. The cycle goes on only when both fetches succeeded. |
| Sessions.Regulate | main.py:146-173 | The part of a cycle after the plugged-in check. It only appends to the command log, keeps the stored status and charge state, and never ends the session by returning False. |
| Sessions.StepFailedFetch | main.py:133-134 | A failed telemetry fetch fails the cycle. It sends nothing and changes neither window nor the stored charge state. |
| Sessions.StepAsleepWakes | main.py:135-138 | An asleep vehicle gets exactly one wake command and no sample is taken. The cycle continues unless the service refuses the wake. |
| Sessions.StepUnpluggedEnds | main.py:139-144 | A disconnected or completed vehicle ends the session. No command is sent and no sample is taken. |
| Sessions.StepSolarGate | main.py:135-151 | The process exits exactly when the vehicle is awake and plugged in and, after this cycle's sample, more than 10 solar samples average below 1000 W. |
| Sessions.StepRegulates | main.py:146-172 | Both windows take this cycle's sample. A command goes out exactly when abs(next - current) > 250 or a charging car's budget drops to 0, with a non-zero voltage. What goes out is a non-empty ordered prefix of the amperage commands. A zero voltage where a command is due crashes the cycle. Otherwise the cycle returns True exactly when no command was due or the service accepted every command sent, and it fails on a refusal. |
| Sessions.StepStopsCharging | main.py:167-172 | When a charging vehicle's budget drops to 0, the cycle sends exactly one stop command, even inside the deadband. It returns True exactly when the service accepts the stop. |
| Sessions.StepDeadbandSilent | main.py:168-172 | Inside the 250 W deadband, with a non-zero budget, nothing is sent. |
| Sessions.StepScenarioRaisesCurrent | main.py:146-173 | End to end: 8000 W solar, 2000 W load, a car drawing 12 A at 240 V and a battery at 85% of 2500 Wh. The single command is set-amps(31). |
| Sessions.Advance | main.py:114-126 | One more outcome: an ended session stays ended. A running session stays running only after a success or an `APIError`, with a count below 3. An `APIError` adds exactly 1 to the count. |
| Sessions.Supervise | main.py:114-126 | The session after a sequence of outcomes. While it runs, its count is below 3 and every outcome so far was a success or an `APIError`. |
| Sessions.SuperviseCountsConsecutiveFailures | main.py:114-126 | While cycles only succeed or fail, the session ends exactly when three failures come in a row. Otherwise the counter is the number of failures since the last success, and it stays below 3. |
| Sessions.ThirdFailureEndsSession | main.py:121-126 | From a zero count, one and two failures leave the session running with counts 1 and 2. The third failure ends it. |
| Sessions.SuccessResetsCount | main.py:117-118 | A successful cycle resets the counter to 0. An ended session stays ended. |
| Sessions.EndingOutcomesEndSession | main.py:117-120 | A running session ends at once when a cycle returns False, calls `exit()` or divides by a zero voltage. |
| Sessions.Session.constructor | main.py:103-108 | A new session has fresh, empty solar (cap 100) and surplus (cap 10) counters. |
| Sessions.Session.Cycle | main.py:131-173 | One cycle's outcome and new state (stored status, charge state, both windows, command log) are exactly `Step` of the old state. |
| Sessions.RunIsTrace | main.py:115-117 | A sequence of states in which each cycle is the `Step` of the one before is exactly `Trace` of the inputs. |
| Sessions.Session.Start | main.py:110-128 | Runs one cycle per input, in order, from the session's state to its final state. Each cycle is `Step` of the state before it. The final status is `Supervise` of the outcomes, and the loop stops at the first outcome that ends the session. |
| Scheduler.Triage | main.py:194-205 | The refresh of a vehicle stops the process exactly when it raises an `APIError`. |
| Scheduler.TriageStartsOnlyPluggedIn | main.py:194-207 | A session starts exactly for an awake vehicle that is neither disconnected nor complete. A vehicle is skipped exactly when it is asleep, disconnected or complete. |
| Scheduler.PlanPass | main.py:193-207 | A pass starts sessions, in order, for exactly those vehicles that qualify and that come before the point where the process ends. The process ends at the first vehicle whose refresh raises an `APIError` or whose session ends in `exit()` or a division by zero. A session that is still running also stops the pass there. The pass reaches the end exactly when no vehicle does either. |

## Left out

- The HTTP calls, JSON decoding, bearer headers and credentials (api.py, `api.TeslaAPI`, `api.TeslaAuth`) are not modelled. Each reply is an input, and each command outcome comes from the service's set of refused log positions.
- `time.sleep(30)` (main.py:128, main.py:210), `print` and `datetime.now()` are not modelled. They are timing and logging only.
- `exit()` (main.py:151) is the `ProcessExit` outcome, not real process termination.
- Product discovery in `main` (main.py:177-191) is not modelled. It parses a foreign response. So is the `IndexError` raised when no Powerwall is found (`powerwalls[0]`, main.py:206).
- Watts and percentages are `real`, not IEEE floats. Python's `round` is modelled exactly as round-half-to-even on reals, with no float precision effects.
- A field missing from a telemetry reply is not modelled; snapshots here are typed records with every field present. In the source, a missing numeric field makes `.get` return `None`, and the arithmetic on it raises a `TypeError`. A missing `state` field only compares unequal to `'asleep'`. A missing `charging_state` field fails every state check, so the vehicle counts as an awake charger that is not stopped: a session starts, regulates it and sends no start command. `ChargingState` has no value for that case.
- The endless loops of `Session.start` and `main` run over a finite script of inputs. When the script runs out, `Session.Start` reports `Running` with its current error count.
- Scheduler.PlanPass: lists the vehicles a pass starts sessions for instead of running the sessions inline. How each session ends is an input: the status `Session.Start` returns for it. The refresh in `main` also stores the vehicle's charge state; that is not modelled, because the session's first cycle refreshes it again.
- Vehicles.Vehicle.SetChargingPower: requires a non-zero voltage. The source divides by the voltage, and a zero voltage raises `ZeroDivisionError`, which nothing catches. `Session.Cycle` models that case as the `Crashed` outcome before the call.
- The code has no wake cooldown, no final stop when a session ends, no daylight window, no adaptive back-off, no time-capped windows and no configurable current ceiling, so the model has none either.
