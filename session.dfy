/** Session: one supervised charging episode of one vehicle against one
    energy site, run as a loop of control cycles. */
module Sessions {
  import opened Api
  import opened StatCounters
  import opened Powerwalls
  import opened Vehicles

  /** Solar samples kept for the sunlight gate. */
  const SolarWindow: nat := 100
  /** Surplus samples averaged before acting. */
  const SurplusWindow: nat := 10
  /** The sunlight gate looks at the solar average only once it has more samples than this. */
  const SolarMinSamples: nat := 10
  /** Below this average solar power (W) the process exits. */
  const SolarThreshold: real := 1000.0
  /** A change in charging power smaller than this (W) is not acted on. */
  const Deadband: real := 250.0
  /** This many consecutive failed cycles end the session. */
  const ErrorLimit: nat := 3

  /** How one cycle ends: it asks to go on (True), to end the session
      (False), raises an APIError, calls `exit()`, or divides by a zero voltage. */
  datatype CycleOutcome = Continue | Finished | Failed | ProcessExit | Crashed

  /** The telemetry one cycle fetches: the site's live status and the vehicle's
      state, each possibly an APIError. */
  datatype CycleInput = CycleInput(power: Reply<PowerStatus>, vehicle: Reply<VehicleData>)

  /** Everything a cycle reads and writes: the stored charge state and site
      status, the two sample windows, and the commands the service received. */
  datatype SessionState = SessionState(
    charge: Option<ChargeSnapshot>,
    power: Option<PowerStatus>,
    solar: seq<real>,
    surplus: seq<real>,
    sent: seq<Command>)

  datatype StepResult = StepResult(outcome: CycleOutcome, state: SessionState)

  function Abs(x: real): real { if x < 0.0 then -x else x }

  /** The power the vehicle may draw: the smoothed surplus less the battery's
      reservation, never negative. */
  function NextChargingPower(averageSurplus: real, allocation: real): (next: real)
    ensures next >= 0.0
    ensures next == 0.0 <==> averageSurplus <= allocation
    ensures next > 0.0 ==> next == averageSurplus - allocation
  {
    if averageSurplus - allocation > 0.0 then averageSurplus - allocation else 0.0
  }

  /** A new charging power is sent only outside the deadband, or to stop a
      charging vehicle. */
  predicate NeedsCommand(current: real, next: real): (b: bool)
    ensures Abs(next - current) > Deadband ==> b
    ensures current > 0.0 && next == 0.0 ==> b
    ensures b && Abs(next - current) <= Deadband ==> current > 0.0 && next == 0.0
  {
    Abs(next - current) > Deadband || (current > 0.0 && next == 0.0)
  }

  /** The surplus sample of one cycle: solar less house load, where the load
      includes what the vehicle draws. Solar splits into what the house uses
      without the vehicle and the surplus. */
  function Surplus(ps: PowerStatus, reading: ChargingReading): (r: real)
    ensures reading.power == 0 ==> r == ps.solarPower - ps.loadPower
  {
    ps.solarPower - ps.loadPower + reading.power as real
  }

  /** The load reading counts the vehicle's draw, so the surplus is solar less
      what the house uses on its own, whatever the vehicle draws. */
  lemma SurplusIsSolarLessHouse(ps: PowerStatus, reading: ChargingReading, house: real)
    requires ps.loadPower == house + reading.power as real
    ensures Surplus(ps, reading) == ps.solarPower - house
  {
  }

  /** One control cycle, as a function of the state before it. Commands are
      only appended to the service's log, and a cycle goes on only when both
      fetches succeeded. */
  function Step(st: SessionState, vehicleId: int, refused: set<nat>, input: CycleInput): (r: StepResult)
    ensures |st.sent| <= |r.state.sent| && r.state.sent[..|st.sent|] == st.sent
    ensures r.outcome == Continue ==> input.power.Ok? && input.vehicle.Ok?
  {
    match input.power
    case ApiError => StepResult(Failed, st)
    case Ok(ps) =>
      var st1 := st.(power := Some(ps));
      match input.vehicle
      case ApiError => StepResult(Failed, st1)
      case Ok(Asleep) =>
        var t := Transmit(st1.sent, refused, [Command(vehicleId, Action.WakeUp)]);
        StepResult(if t.ok then Continue else Failed, st1.(sent := t.sent))
      case Ok(Awake(cs)) =>
        var st2 := st1.(charge := Some(cs));
        if cs.chargingState == Disconnected || cs.chargingState == Complete then StepResult(Finished, st2)
        else Regulate(st2, vehicleId, refused, ps, cs)
  }

  /** The part of a cycle after the vehicle was found awake and plugged in. */
  function Regulate(st: SessionState, vehicleId: int, refused: set<nat>, ps: PowerStatus, cs: ChargeSnapshot): (r: StepResult)
    ensures |st.sent| <= |r.state.sent| && r.state.sent[..|st.sent|] == st.sent
    ensures r.state.charge == st.charge && r.state.power == st.power
    ensures r.outcome != Finished
  {
    var reading := ChargingPower(cs);
    var solar := AddSample(st.solar, SolarWindow, ps.solarPower);
    if |solar| > SolarMinSamples && Mean(solar) < SolarThreshold then
      StepResult(ProcessExit, st.(solar := solar))
    else
      var surplus := AddSample(st.surplus, SurplusWindow, Surplus(ps, reading));
      var st' := st.(solar := solar, surplus := surplus);
      var next := NextChargingPower(Mean(surplus), Allocation(ps.percentageCharged, ps.totalPackEnergy));
      if !NeedsCommand(reading.power as real, next) then StepResult(Continue, st')
      else if reading.voltage == 0 then StepResult(Crashed, st')
      else
        var t := Transmit(st'.sent, refused, AmpCommands(vehicleId, AmpFor(next, reading.voltage), cs.chargingState));
        StepResult(if t.ok then Continue else Failed, st'.(sent := t.sent))
  }

  /** A failed fetch changes nothing but what was fetched before the failure,
      and sends nothing. */
  lemma StepFailedFetch(st: SessionState, vehicleId: int, refused: set<nat>, input: CycleInput)
    requires input.power.ApiError? || input.vehicle.ApiError?
    ensures var r := Step(st, vehicleId, refused, input);
      && r.outcome == Failed
      && r.state.sent == st.sent && r.state.charge == st.charge
      && r.state.solar == st.solar && r.state.surplus == st.surplus
  {
  }

  /** An asleep vehicle gets exactly one wake command and nothing else; the cycle
      goes on unless the service refuses the wake. */
  lemma StepAsleepWakes(st: SessionState, vehicleId: int, refused: set<nat>, ps: PowerStatus)
    ensures var r := Step(st, vehicleId, refused, CycleInput(Ok(ps), Ok(Asleep)));
      && r.state.sent == st.sent + [Command(vehicleId, Action.WakeUp)]
      && (r.outcome == Continue <==> |st.sent| !in refused)
      && (r.outcome == Failed <==> |st.sent| in refused)
      && r.state.solar == st.solar && r.state.surplus == st.surplus && r.state.charge == st.charge
  {
  }

  /** A disconnected or completed vehicle ends the session without any command
      and before any sample is taken. */
  lemma StepUnpluggedEnds(st: SessionState, vehicleId: int, refused: set<nat>, ps: PowerStatus, cs: ChargeSnapshot)
    requires cs.chargingState == Disconnected || cs.chargingState == Complete
    ensures var r := Step(st, vehicleId, refused, CycleInput(Ok(ps), Ok(Awake(cs))));
      && r.outcome == Finished
      && r.state.sent == st.sent
      && r.state.solar == st.solar && r.state.surplus == st.surplus
  {
  }

  /** The solar gate: the cycle exits the process exactly when, after this
      cycle's sample, more than 10 solar samples average below 1000 W. It only
      applies to an awake vehicle that is neither disconnected nor complete. */
  lemma StepSolarGate(st: SessionState, vehicleId: int, refused: set<nat>, input: CycleInput)
    ensures Step(st, vehicleId, refused, input).outcome == ProcessExit <==>
      && input.power.Ok? && input.vehicle.Ok? && input.vehicle.value.Awake?
      && input.vehicle.value.charge.chargingState != Disconnected
      && input.vehicle.value.charge.chargingState != Complete
      && var solar := AddSample(st.solar, SolarWindow, input.power.value.solarPower);
         |solar| > SolarMinSamples && Mean(solar) < SolarThreshold
  {
  }

  /** In a cycle that regulates, both windows take this cycle's sample, and a
      command goes out exactly when the new power is outside the deadband or
      drops a charging vehicle to zero (and the voltage allows the division).
      What goes out is, in order, a non-empty prefix of the amperage commands. */
  lemma StepRegulates(st: SessionState, vehicleId: int, refused: set<nat>, ps: PowerStatus, cs: ChargeSnapshot)
    requires cs.chargingState != Disconnected && cs.chargingState != Complete
    ensures var r := Step(st, vehicleId, refused, CycleInput(Ok(ps), Ok(Awake(cs))));
      var reading := ChargingPower(cs);
      var solar := AddSample(st.solar, SolarWindow, ps.solarPower);
      r.outcome != ProcessExit ==>
        var surplus := AddSample(st.surplus, SurplusWindow, Surplus(ps, reading));
        var next := NextChargingPower(Mean(surplus), Allocation(ps.percentageCharged, ps.totalPackEnergy));
        && r.state.solar == solar && r.state.surplus == surplus
        && (r.state.sent != st.sent <==> NeedsCommand(reading.power as real, next) && reading.voltage != 0)
        && (r.outcome == Crashed <==> NeedsCommand(reading.power as real, next) && reading.voltage == 0)
        && (r.outcome != Crashed ==>
              (r.outcome == Continue <==>
                 !NeedsCommand(reading.power as real, next)
                 || Transmit(st.sent, refused,
                             AmpCommands(vehicleId, AmpFor(next, reading.voltage), cs.chargingState)).ok))
        && (r.state.sent != st.sent ==>
              var cmds := AmpCommands(vehicleId, AmpFor(next, reading.voltage), cs.chargingState);
              exists k :: 0 < k <= |cmds| && r.state.sent == st.sent + cmds[..k])
  {
    var reading := ChargingPower(cs);
    var solar := AddSample(st.solar, SolarWindow, ps.solarPower);
    if !(|solar| > SolarMinSamples && Mean(solar) < SolarThreshold) {
      var surplus := AddSample(st.surplus, SurplusWindow, Surplus(ps, reading));
      var next := NextChargingPower(Mean(surplus), Allocation(ps.percentageCharged, ps.totalPackEnergy));
      if NeedsCommand(reading.power as real, next) && reading.voltage != 0 {
        var cmds := AmpCommands(vehicleId, AmpFor(next, reading.voltage), cs.chargingState);
        var t := Transmit(st.sent, refused, cmds);
        var k := |t.sent| - |st.sent|;
        assert t.sent == st.sent + cmds[..k];
        assert k > 0;
      }
    }
  }

  /** When the budget drops to zero, a charging vehicle is sent exactly one
      stop, even inside the deadband (e.g. 200 W drawn, nothing available). */
  lemma StepStopsCharging(st: SessionState, vehicleId: int, refused: set<nat>, ps: PowerStatus, cs: ChargeSnapshot)
    requires cs.chargingState != Disconnected && cs.chargingState != Complete
    requires ChargingPower(cs).power > 0
    requires var surplus := AddSample(st.surplus, SurplusWindow, Surplus(ps, ChargingPower(cs)));
      NextChargingPower(Mean(surplus), Allocation(ps.percentageCharged, ps.totalPackEnergy)) == 0.0
    ensures var r := Step(st, vehicleId, refused, CycleInput(Ok(ps), Ok(Awake(cs))));
      r.outcome != ProcessExit ==>
        && r.state.sent == st.sent + [Command(vehicleId, ChargeStop)]
        && (r.outcome == Continue <==> |st.sent| !in refused)
  {
    var reading := ChargingPower(cs);
    assert reading.voltage != 0;
    assert 0.0 / (reading.voltage as real) == 0.0;
    assert AmpFor(0.0, reading.voltage) == 0;
  }

  /** Within the deadband nothing is sent, whatever the vehicle's state: e.g.
      3000 W drawn and 3100 W available. */
  lemma StepDeadbandSilent(st: SessionState, vehicleId: int, refused: set<nat>, ps: PowerStatus, cs: ChargeSnapshot)
    requires cs.chargingState != Disconnected && cs.chargingState != Complete
    requires var reading := ChargingPower(cs);
      var surplus := AddSample(st.surplus, SurplusWindow, Surplus(ps, reading));
      var next := NextChargingPower(Mean(surplus), Allocation(ps.percentageCharged, ps.totalPackEnergy));
      Abs(next - reading.power as real) <= Deadband && next != 0.0
    ensures Step(st, vehicleId, refused, CycleInput(Ok(ps), Ok(Awake(cs)))).state.sent == st.sent
  {
  }

  /** A first cycle with 8000 W of solar, a load reading of 2000 W, a car
      drawing 2880 W at 12 A and 240 V, and a battery at 85% of 2500 Wh
      (1500 W reserved): 8880 W of surplus leaves 7380 W for the car, far
      outside the deadband, so a charging car is set to round(30.75) = 31 A
      with no start command. */
  lemma StepScenarioRaisesCurrent(vehicleId: int)
    ensures
      var ps := PowerStatus(8000.0, 2000.0, 0.0, 0.0, 85.0, 2500.0);
      var cs := ChargeSnapshot(Charging, 12, 240);
      var st := SessionState(None, None, [], [], []);
      Step(st, vehicleId, {}, CycleInput(Ok(ps), Ok(Awake(cs))))
        == StepResult(Continue, SessionState(Some(cs), Some(ps), [8000.0], [8880.0],
                                             [Command(vehicleId, SetChargingAmps(31))]))
  {
    var ps := PowerStatus(8000.0, 2000.0, 0.0, 0.0, 85.0, 2500.0);
    var cs := ChargeSnapshot(Charging, 12, 240);
    assert ChargingPower(cs) == ChargingReading(240, 12, 2880);
    assert Surplus(ps, ChargingPower(cs)) == 8880.0;
    assert AddSample([], SolarWindow, 8000.0) == [8000.0];
    assert AddSample([], SurplusWindow, 8880.0) == [8880.0];
    assert Allocation(ps.percentageCharged, ps.totalPackEnergy) == 1500.0;
    assert Mean([8880.0]) == 8880.0;
    assert NextChargingPower(8880.0, 1500.0) == 7380.0;
    assert NeedsCommand(2880.0, 7380.0);
    assert AmpFor(7380.0, 240) == 31 by {
      assert 7380.0 / 240.0 == 30.75;
      assert (30.75).Floor == 30;
    }
    assert AmpCommands(vehicleId, 31, Charging) == [Command(vehicleId, SetChargingAmps(31))];
  }

  /** The session's view of its cycles: still running with a count of
      consecutive failures, or ended for a reason. */
  datatype EndReason = SessionCompleted | TooManyErrors | ProcessExited | ProcessCrashed
  datatype Supervision = Running(errorCount: nat) | Ended(reason: EndReason)

  /** The error counter after one more cycle: a successful cycle resets it,
      an APIError increments it and ends the session at 3; a False cycle, an
      exit and a crash end it at once. */
  function Advance(s: Supervision, o: CycleOutcome): (r: Supervision)
    ensures s.Ended? ==> r == s
    ensures r.Running? ==> r.errorCount < ErrorLimit && (o == Continue || o == Failed)
    ensures r.Running? && o == Failed ==> r.errorCount == s.errorCount + 1
  {
    match s
    case Ended(_) => s
    case Running(e) =>
      match o
      case Continue => Running(0)
      case Finished => Ended(SessionCompleted)
      case Failed => if e + 1 >= ErrorLimit then Ended(TooManyErrors) else Running(e + 1)
      case ProcessExit => Ended(ProcessExited)
      case Crashed => Ended(ProcessCrashed)
  }

  /** The supervision after the outcomes `obs`, starting from no errors. A
      session still running has seen only successes and APIErrors. */
  function Supervise(obs: seq<CycleOutcome>): (r: Supervision)
    ensures r.Running? ==> r.errorCount < ErrorLimit
    ensures r.Running? ==> forall i :: 0 <= i < |obs| ==> obs[i] == Continue || obs[i] == Failed
  {
    if obs == [] then Running(0) else Advance(Supervise(obs[..|obs| - 1]), obs[|obs| - 1])
  }

  /** The number of failed cycles at the end of `obs` since the last other one. */
  function TrailingFailures(obs: seq<CycleOutcome>): nat
  {
    if obs == [] || obs[|obs| - 1] != Failed then 0 else 1 + TrailingFailures(obs[..|obs| - 1])
  }

  /** Some prefix of `obs` ends in three failed cycles in a row. */
  predicate ThreeFailuresInRow(obs: seq<CycleOutcome>)
  {
    exists k :: 0 <= k <= |obs| && TrailingFailures(obs[..k]) >= ErrorLimit
  }

  /** While cycles only succeed or fail, the session ends exactly when three
      failures come in a row, and otherwise its counter is the number of
      failures since the last success. So 2 failures, a success and 1 failure
      leave it running with a count of 1. */
  lemma {:induction false} SuperviseCountsConsecutiveFailures(obs: seq<CycleOutcome>)
    requires forall i :: 0 <= i < |obs| ==> obs[i] == Continue || obs[i] == Failed
    ensures Supervise(obs) == if ThreeFailuresInRow(obs) then Ended(TooManyErrors) else Running(TrailingFailures(obs))
    ensures Supervise(obs).Running? ==> Supervise(obs).errorCount < ErrorLimit
  {
    if obs == [] {
      assert !ThreeFailuresInRow(obs) by {
        forall k | 0 <= k <= |obs| ensures TrailingFailures(obs[..k]) < ErrorLimit {
          assert obs[..k] == [];
        }
      }
    } else {
      var p := obs[..|obs| - 1];
      SuperviseCountsConsecutiveFailures(p);
      assert obs[..|obs|] == obs;
      assert forall k :: 0 <= k <= |p| ==> p[..k] == obs[..k];
      if ThreeFailuresInRow(p) {
        var k :| 0 <= k <= |p| && TrailingFailures(p[..k]) >= ErrorLimit;
        assert TrailingFailures(obs[..k]) >= ErrorLimit;
      } else if TrailingFailures(obs) >= ErrorLimit {
        assert ThreeFailuresInRow(obs);
      } else {
        assert !ThreeFailuresInRow(obs) by {
          forall k | 0 <= k <= |obs| ensures TrailingFailures(obs[..k]) < ErrorLimit {
            if k < |obs| {
              assert obs[..k] == p[..k];
            }
          }
        }
      }
    }
  }

  /** A running session ends on the third consecutive failure and not before:
      from a fresh count, two failures leave it running and a third ends it. */
  lemma ThirdFailureEndsSession(p: seq<CycleOutcome>)
    requires Supervise(p) == Running(0)
    ensures Supervise(p + [Failed]) == Running(1)
    ensures Supervise(p + [Failed, Failed]) == Running(2)
    ensures Supervise(p + [Failed, Failed, Failed]) == Ended(TooManyErrors)
  {
    assert (p + [Failed, Failed])[..|p| + 1] == p + [Failed];
    assert (p + [Failed, Failed, Failed])[..|p| + 2] == p + [Failed, Failed];
  }

  /** A successful cycle resets the counter, and an ended session stays ended. */
  lemma SuccessResetsCount(p: seq<CycleOutcome>, o: CycleOutcome)
    ensures Supervise(p).Running? ==> Supervise(p + [Continue]) == Running(0)
    ensures Supervise(p).Ended? ==> Supervise(p + [o]) == Supervise(p)
  {
    assert (p + [Continue])[..|p|] == p;
    assert (p + [o])[..|p|] == p;
  }

  /** A running session ends at once when a cycle returns False, calls
      `exit()` or divides by a zero voltage. */
  lemma EndingOutcomesEndSession(p: seq<CycleOutcome>)
    requires Supervise(p).Running?
    ensures Supervise(p + [Finished]) == Ended(SessionCompleted)
    ensures Supervise(p + [ProcessExit]) == Ended(ProcessExited)
    ensures Supervise(p + [Crashed]) == Ended(ProcessCrashed)
  {
    assert (p + [Finished])[..|p|] == p;
    assert (p + [ProcessExit])[..|p|] == p;
    assert (p + [Crashed])[..|p|] == p;
  }

  /** The outcomes and final state of running the cycles for the first `n`
      of `inputs`, in order. */
  datatype TraceResult = TraceResult(outcomes: seq<CycleOutcome>, state: SessionState)

  function Trace(st: SessionState, vehicleId: int, refused: set<nat>, inputs: seq<CycleInput>, n: nat): (r: TraceResult)
    requires n <= |inputs|
    ensures |r.outcomes| == n
  {
    if n == 0 then TraceResult([], st)
    else
      var t := Trace(st, vehicleId, refused, inputs, n - 1);
      var s := Step(t.state, vehicleId, refused, inputs[n - 1]);
      TraceResult(t.outcomes + [s.outcome], s.state)
  }

  /** `outcomes` and `states` are a run of cycles over `inputs`: each state
      and outcome is the step of the state before it on the next input. */
  ghost predicate IsRun(vehicleId: int, refused: set<nat>, inputs: seq<CycleInput>,
                        outcomes: seq<CycleOutcome>, states: seq<SessionState>)
  {
    && |outcomes| <= |inputs| && |states| == |outcomes| + 1
    && forall k :: 0 <= k < |outcomes| ==>
         Step(states[k], vehicleId, refused, inputs[k]) == StepResult(outcomes[k], states[k + 1])
  }

  /** A run from a state is exactly the trace of its inputs from that state. */
  lemma {:induction false} RunIsTrace(vehicleId: int, refused: set<nat>, inputs: seq<CycleInput>,
                                      outcomes: seq<CycleOutcome>, states: seq<SessionState>)
    requires IsRun(vehicleId, refused, inputs, outcomes, states)
    ensures Trace(states[0], vehicleId, refused, inputs, |outcomes|) == TraceResult(outcomes, states[|outcomes|])
  {
    var n := |outcomes|;
    if n > 0 {
      var p := outcomes[..n - 1];
      assert IsRun(vehicleId, refused, inputs, p, states[..n]);
      RunIsTrace(vehicleId, refused, inputs, p, states[..n]);
      assert p + [outcomes[n - 1]] == outcomes;
    }
  }

  /** The session had not ended before the last of `obs`. */
  ghost predicate RunningBefore(obs: seq<CycleOutcome>)
  {
    forall k :: 0 <= k < |obs| ==> Supervise(obs[..k]).Running?
  }

  /** One more outcome advances the supervision by that outcome. */
  lemma SuperviseExtend(obs: seq<CycleOutcome>, o: CycleOutcome)
    requires RunningBefore(obs) && Supervise(obs).Running?
    ensures Supervise(obs + [o]) == Advance(Supervise(obs), o)
    ensures RunningBefore(obs + [o])
  {
    assert (obs + [o])[..|obs|] == obs;
    forall k | 0 <= k < |obs| + 1
      ensures Supervise((obs + [o])[..k]).Running?
    {
      assert (obs + [o])[..k] == obs[..k];
    }
  }

  class Session {
    const vehicle: Vehicle
    const powerwall: Powerwall
    const solarCounter: StatCounter
    const surplusCounter: StatCounter

    ghost predicate Valid()
      reads this, solarCounter, surplusCounter
    {
      && solarCounter != surplusCounter
      && solarCounter.Valid() && solarCounter.cap == SolarWindow
      && surplusCounter.Valid() && surplusCounter.cap == SurplusWindow
    }

    ghost function State(): SessionState
      reads this, vehicle, vehicle.api, powerwall, solarCounter, surplusCounter
    {
      SessionState(vehicle.chargeState, powerwall.status, solarCounter.values, surplusCounter.values, vehicle.api.sent)
    }

    constructor (vehicle: Vehicle, powerwall: Powerwall)
      ensures Valid() && this.vehicle == vehicle && this.powerwall == powerwall
      ensures fresh(solarCounter) && fresh(surplusCounter)
      ensures solarCounter.values == [] && surplusCounter.values == []
    {
      this.vehicle := vehicle;
      this.powerwall := powerwall;
      solarCounter := new StatCounter(SolarWindow);
      surplusCounter := new StatCounter(SurplusWindow);
    }

    /** One control cycle. */
    method Cycle(input: CycleInput) returns (outcome: CycleOutcome)
      requires Valid()
      modifies vehicle, vehicle.api, powerwall, solarCounter, surplusCounter
      ensures Valid()
      ensures StepResult(outcome, State()) == Step(old(State()), vehicle.vehicleId, vehicle.api.refused, input)
    {
      var power := powerwall.RefreshStatus(input.power);
      if power.ApiError? {
        return Failed;
      }
      var status := vehicle.RefreshStatus(input.vehicle);
      if status.ApiError? {
        return Failed;
      }
      if status.value == Sleeping {
        var ok := vehicle.WakeUp();
        return if ok then Continue else Failed;
      }
      if status.value.state == Disconnected || status.value.state == Complete {
        return Finished;
      }

      var reading := vehicle.GetChargingPower();
      var ps := power.value;
      solarCounter.Add(ps.solarPower);
      var solarCount := solarCounter.Length();
      if solarCount > SolarMinSamples {
        var solarAverage := solarCounter.GetAverage();
        if solarAverage < SolarThreshold {
          return ProcessExit;
        }
      }

      surplusCounter.Add(Surplus(ps, reading));
      var averageSurplus := surplusCounter.GetAverage();
      var powerwallPower := powerwall.AllocatePower();
      var next := NextChargingPower(averageSurplus, powerwallPower);
      if NeedsCommand(reading.power as real, next) {
        if reading.voltage == 0 {
          return Crashed;
        }
        var ok := vehicle.SetChargingPower(next, reading.voltage);
        return if ok then Continue else Failed;
      }
      return Continue;
    }

    /** Runs cycles for the successive telemetry of `inputs` until the session
        ends, or the inputs run out while it would go on polling. */
    method Start(inputs: seq<CycleInput>) returns (outcomes: seq<CycleOutcome>, status: Supervision, ghost states: seq<SessionState>)
      requires Valid()
      modifies vehicle, vehicle.api, powerwall, solarCounter, surplusCounter
      ensures Valid()
      ensures IsRun(vehicle.vehicleId, vehicle.api.refused, inputs, outcomes, states)
      ensures states[0] == old(State()) && states[|outcomes|] == State()
      ensures status == Supervise(outcomes) && RunningBefore(outcomes)
      ensures status.Running? ==> |outcomes| == |inputs|
    {
      var errorCount := 0;
      outcomes := [];
      states := [State()];
      var i := 0;
      while i < |inputs|
        invariant Valid()
        invariant 0 <= i <= |inputs| && |outcomes| == i
        invariant IsRun(vehicle.vehicleId, vehicle.api.refused, inputs, outcomes, states)
        invariant states[0] == old(State()) && states[i] == State()
        invariant Supervise(outcomes) == Running(errorCount) && RunningBefore(outcomes)
      {
        var o := Cycle(inputs[i]);
        SuperviseExtend(outcomes, o);
        outcomes := outcomes + [o];
        states := states + [State()];
        i := i + 1;
        match o {
          case Continue =>
            errorCount := 0;
          case Failed =>
            errorCount := errorCount + 1;
            if errorCount >= ErrorLimit {
              status := Ended(TooManyErrors);
              return;
            }
          case Finished =>
            status := Ended(SessionCompleted);
            return;
          case ProcessExit =>
            status := Ended(ProcessExited);
            return;
          case Crashed =>
            status := Ended(ProcessCrashed);
            return;
        }
      }
      status := Running(errorCount);
    }
  }
}
