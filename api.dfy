/** The remote energy-management service as the controller sees it: the
    telemetry it answers with, the commands it accepts, and the APIError it
    may raise instead. HTTP, JSON decoding and authentication are not modelled. */
module Api {

  datatype Option<+T> = None | Some(value: T)

  /** The answer to one request: the decoded value, or an APIError. */
  datatype Reply<+T> = Ok(value: T) | ApiError

  /** The `charging_state` field of a vehicle's charge state. */
  datatype ChargingState = Charging | Starting | Stopped | Complete | Disconnected | NoPower

  /** The fields of a vehicle's charge state the controller reads. */
  datatype ChargeSnapshot = ChargeSnapshot(chargingState: ChargingState, actualCurrent: int, voltage: int)

  /** What refreshing a vehicle yields: its config says it is asleep, or its charge state. */
  datatype VehicleData = Asleep | Awake(charge: ChargeSnapshot)

  /** The live status of an energy site (watts, percent, watt-hours). */
  datatype PowerStatus = PowerStatus(
    solarPower: real,
    loadPower: real,
    batteryPower: real,
    gridPower: real,
    percentageCharged: real,
    totalPackEnergy: real)

  datatype Action = WakeUp | ChargeStart | ChargeStop | SetChargingAmps(amps: int)

  /** A command sent to the service on behalf of one vehicle. */
  datatype Command = Command(vehicleId: int, action: Action)

  /** The commands the service has received so far, and whether the last batch was accepted. */
  datatype Transmission = Transmission(ok: bool, sent: seq<Command>)

  /** Sends `cmds` one after the other after the log `sent`. The service answers
      the command at log position p with an APIError exactly when p is in
      `refused`; the first such error stops the batch, as an exception does. */
  function Transmit(sent: seq<Command>, refused: set<nat>, cmds: seq<Command>): (r: Transmission)
    ensures |sent| <= |r.sent| <= |sent| + |cmds|
    ensures r.sent == sent + cmds[..|r.sent| - |sent|]
    ensures r.ok <==> |r.sent| == |sent| + |cmds| && forall p :: |sent| <= p < |r.sent| ==> p !in refused
    ensures !r.ok ==> |r.sent| - 1 in refused && forall p :: |sent| <= p < |r.sent| - 1 ==> p !in refused
    decreases |cmds|
  {
    if cmds == [] then Transmission(true, sent)
    else if |sent| in refused then Transmission(false, sent + [cmds[0]])
    else
      var r := Transmit(sent + [cmds[0]], refused, cmds[1..]);
      assert (sent + [cmds[0]]) + cmds[1..][..|r.sent| - |sent| - 1] == sent + cmds[..|r.sent| - |sent|];
      r
  }

  /** A command stream is never reordered: whatever prefix of a batch reaches the
      service, each command in it was preceded by all earlier ones, accepted. */
  lemma {:induction false} TransmitAcceptsBeforeNext(sent: seq<Command>, refused: set<nat>, cmds: seq<Command>, j: nat)
    requires 0 < j && |sent| + j < |Transmit(sent, refused, cmds).sent|
    ensures |sent| + j - 1 !in refused
  {
  }

  /** The remote service: the log of commands it has received, in order, and the
      positions in that log at which it answers with an APIError. */
  class TeslaApi {
    const refused: set<nat>
    var sent: seq<Command>

    constructor (refused: set<nat>)
      ensures this.refused == refused && sent == []
    {
      this.refused := refused;
      sent := [];
    }

    /** Sends one command; `ok` is false when the service answered with an APIError. */
    method Issue(c: Command) returns (ok: bool)
      modifies this
      ensures sent == old(sent) + [c]
      ensures ok <==> |old(sent)| !in refused
    {
      ok := |sent| !in refused;
      sent := sent + [c];
    }
  }
}
