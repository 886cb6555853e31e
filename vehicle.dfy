/** Vehicle: reading the charging power and turning a power budget into
    start, stop and set-amperage commands. */
module Vehicles {
  import opened Api

  /** The voltage assumed while charging is stopped. */
  const NominalVoltage: int := 240
  /** The largest charging current ever requested, in amps. */
  const MaxChargingAmps: int := 40

  /** What refreshing a vehicle reports: asleep, or its charging state. */
  datatype VehicleStatus = Sleeping | ChargingStateIs(state: ChargingState)

  function StatusOf(d: VehicleData): VehicleStatus
  {
    match d
    case Asleep => Sleeping
    case Awake(cs) => ChargingStateIs(cs.chargingState)
  }

  /** Voltage, current and power of the charger as the controller reads them. */
  datatype ChargingReading = ChargingReading(voltage: int, amp: int, power: int)

  /** A stopped charger reads as 240 V and no current; any other state reports
      the charger's own voltage and current. Power is always current times voltage. */
  function ChargingPower(cs: ChargeSnapshot): (r: ChargingReading)
    ensures r.power == r.amp * r.voltage
    ensures cs.chargingState == Stopped ==> r.voltage == NominalVoltage && r.amp == 0
    ensures cs.chargingState != Stopped ==> r.voltage == cs.voltage && r.amp == cs.actualCurrent
  {
    if cs.chargingState == Stopped then ChargingReading(NominalVoltage, 0, 0)
    else ChargingReading(cs.voltage, cs.actualCurrent, cs.actualCurrent * cs.voltage)
  }

  /** Rounding to the nearest integer, ties to the even one, as Python's `round` does. */
  function RoundHalfEven(x: real): (r: int)
    ensures (r as real) - 0.5 <= x <= (r as real) + 0.5
    ensures x - (r as real) == 0.5 || (r as real) - x == 0.5 ==> r % 2 == 0
  {
    var f := x.Floor;
    var d := x - f as real;
    if d < 0.5 then f
    else if d > 0.5 then f + 1
    else if f % 2 == 0 then f else f + 1
  }

  /** The two properties above pin the rounding down: no other integer has them. */
  lemma RoundHalfEvenUnique(x: real, n: int)
    requires (n as real) - 0.5 <= x <= (n as real) + 0.5
    requires x - (n as real) == 0.5 || (n as real) - x == 0.5 ==> n % 2 == 0
    ensures n == RoundHalfEven(x)
  {
    var r := RoundHalfEven(x);
    if n != r {
      assert false;
    }
  }

  /** `max(0, min(40, x))`. */
  function ClampAmps(x: real): (r: real)
    ensures 0.0 <= r <= MaxChargingAmps as real
    ensures 0.0 <= x <= MaxChargingAmps as real ==> r == x
    ensures x > MaxChargingAmps as real ==> r == MaxChargingAmps as real
    ensures x < 0.0 ==> r == 0.0
  {
    if x > MaxChargingAmps as real then MaxChargingAmps as real
    else if x < 0.0 then 0.0
    else x
  }

  /** The amperage that carries `power` watts at `voltage` volts, clamped to
      [0, 40] and rounded. */
  function AmpFor(power: real, voltage: int): (amp: int)
    requires voltage != 0
    ensures 0 <= amp <= MaxChargingAmps
    ensures var x := ClampAmps(power / voltage as real); (amp as real) - 0.5 <= x <= (amp as real) + 0.5
  {
    RoundHalfEven(ClampAmps(power / voltage as real))
  }

  /** A budget at or above 40 A worth of power asks for exactly 40 A; a budget
      of no power asks for 0 A, a stop. */
  lemma AmpForSaturates(power: real, voltage: int)
    requires voltage > 0
    ensures power >= (MaxChargingAmps * voltage) as real ==> AmpFor(power, voltage) == MaxChargingAmps
    ensures power <= 0.0 ==> AmpFor(power, voltage) == 0
  {
    var v := voltage as real;
    if power >= (MaxChargingAmps * voltage) as real {
      assert power / v >= MaxChargingAmps as real by {
        assert power >= MaxChargingAmps as real * v;
      }
    }
    if power <= 0.0 {
      assert power / v <= 0.0;
    }
  }

  /** The commands `_set_charging_amp` sends for `amp` when the charger was
      last seen in `state`. */
  function AmpCommands(vehicleId: int, amp: int, state: ChargingState): (cmds: seq<Command>)
    ensures 1 <= |cmds| <= 2
    ensures forall i :: 0 <= i < |cmds| ==> cmds[i].vehicleId == vehicleId
  {
    if amp == 0 then [Command(vehicleId, ChargeStop)]
    else if state == Stopped then [Command(vehicleId, ChargeStart), Command(vehicleId, SetChargingAmps(amp))]
    else [Command(vehicleId, SetChargingAmps(amp))]
  }

  /** Zero amps is exactly one stop; a positive amperage is a set-amperage
      command, preceded by a start exactly when the charger is stopped, and no
      stop. */
  lemma AmpCommandsShape(vehicleId: int, amp: int, state: ChargingState)
    ensures var cmds := AmpCommands(vehicleId, amp, state);
      && (amp == 0 <==> cmds == [Command(vehicleId, ChargeStop)])
      && (amp != 0 ==> cmds[|cmds| - 1] == Command(vehicleId, SetChargingAmps(amp)))
      && (amp != 0 ==> |cmds| == (if state == Stopped then 2 else 1))
      && (amp != 0 && state == Stopped ==> cmds[0] == Command(vehicleId, ChargeStart))
  {
  }

  /** A set-amperage command never reaches the service before the start that a
      stopped charger needs: if it is sent at all, the start went first and was accepted. */
  lemma SetAmpsFollowsAcceptedStart(sent: seq<Command>, refused: set<nat>, vehicleId: int, amp: int)
    requires amp != 0
    ensures var t := Transmit(sent, refused, AmpCommands(vehicleId, amp, Stopped));
      forall p :: |sent| <= p < |t.sent| && t.sent[p].action.SetChargingAmps? ==>
        p > |sent| && t.sent[p - 1].action == ChargeStart && p - 1 !in refused
  {
  }

  class Vehicle {
    const api: TeslaApi
    const vehicleId: int
    const displayName: string
    /** The charge state stored by the last refresh that found the vehicle awake. */
    var chargeState: Option<ChargeSnapshot>

    constructor (api: TeslaApi, vehicleId: int, displayName: string)
      ensures this.api == api && this.vehicleId == vehicleId && this.displayName == displayName
      ensures chargeState == None
    {
      this.api := api;
      this.vehicleId := vehicleId;
      this.displayName := displayName;
      chargeState := None;
    }

    /** Reports asleep or the charging state; stores the charge state only when
        the vehicle is awake and the fetch succeeded. */
    method RefreshStatus(reply: Reply<VehicleData>) returns (r: Reply<VehicleStatus>)
      modifies this
      ensures r == (if reply.Ok? then Ok(StatusOf(reply.value)) else ApiError)
      ensures chargeState == (if reply.Ok? && reply.value.Awake? then Some(reply.value.charge) else old(chargeState))
    {
      if reply.ApiError? {
        r := ApiError;
      } else if reply.value.Asleep? {
        r := Ok(Sleeping);
      } else {
        chargeState := Some(reply.value.charge);
        r := Ok(ChargingStateIs(reply.value.charge.chargingState));
      }
    }

    method WakeUp() returns (ok: bool)
      modifies api
      ensures Transmission(ok, api.sent) == Transmit(old(api.sent), api.refused, [Command(vehicleId, Action.WakeUp)])
    {
      ok := api.Issue(Command(vehicleId, Action.WakeUp));
    }

    /** Stops at 0 A; otherwise starts a stopped charger, then sets the
        amperage. An APIError ends the sequence. */
    method SetChargingAmp(amp: int) returns (ok: bool)
      requires chargeState.Some?
      modifies api
      ensures Transmission(ok, api.sent)
        == Transmit(old(api.sent), api.refused, AmpCommands(vehicleId, amp, chargeState.value.chargingState))
    {
      if amp == 0 {
        ok := api.Issue(Command(vehicleId, ChargeStop));
        return;
      }
      if chargeState.value.chargingState == Stopped {
        ok := api.Issue(Command(vehicleId, ChargeStart));
        if !ok {
          return;
        }
      }
      ok := api.Issue(Command(vehicleId, SetChargingAmps(amp)));
    }

    method GetChargingPower() returns (r: ChargingReading)
      requires chargeState.Some?
      ensures r.power == r.amp * r.voltage
      ensures r == ChargingPower(chargeState.value)
    {
      r := ChargingPower(chargeState.value);
    }

    /** Requests the amperage that carries `power` at `voltage`. A zero voltage
        is a division by zero in the source, which callers must rule out. */
    method SetChargingPower(power: real, voltage: int) returns (ok: bool)
      requires chargeState.Some? && voltage != 0
      modifies api
      ensures Transmission(ok, api.sent)
        == Transmit(old(api.sent), api.refused,
                    AmpCommands(vehicleId, AmpFor(power, voltage), chargeState.value.chargingState))
    {
      ok := SetChargingAmp(AmpFor(power, voltage));
    }
  }
}
