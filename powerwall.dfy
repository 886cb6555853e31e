/** Powerwall: the home battery's share of the surplus. */
module Powerwalls {
  import opened Api

  /** Below this charge percentage the battery is given power. */
  const BatteryTarget: real := 90.0
  /** The battery is given enough power to reach the target in this many minutes. */
  const ChargeHorizonMinutes: real := 5.0
  /** The most power ever reserved for the battery, in watts. */
  const BatteryPowerCap: real := 5000.0

  function MinReal(a: real, b: real): real { if a <= b then a else b }

  /** Watts reserved for the battery at `percent` charge with a pack of
      `packEnergy` watt-hours: what charges it to 90% in 5 minutes, at most
      5000 W, and nothing from 90% up. */
  function Allocation(percent: real, packEnergy: real): (w: real)
    ensures percent >= BatteryTarget ==> w == 0.0
    ensures w <= BatteryPowerCap
  {
    if percent < BatteryTarget then
      MinReal(BatteryPowerCap, (BatteryTarget - percent) * packEnergy / 100.0 * 60.0 / ChargeHorizonMinutes)
    else 0.0
  }

  /** With a pack of non-negative energy the reservation is never negative. */
  lemma AllocationNonNegative(percent: real, packEnergy: real)
    requires packEnergy >= 0.0
    ensures Allocation(percent, packEnergy) >= 0.0
  {
    if percent < BatteryTarget {
      assert (BatteryTarget - percent) * packEnergy >= 0.0;
    }
  }

  /** Below 90%, the reservation is the smaller of the 5000 W cap and the power
      that delivers the missing energy up to 90% over the 5-minute horizon: it
      never overshoots that energy, and it is one of the two. */
  lemma AllocationReachesTarget(percent: real, packEnergy: real)
    requires percent < BatteryTarget
    ensures var w := Allocation(percent, packEnergy);
      && w * ChargeHorizonMinutes / 60.0 <= (BatteryTarget - percent) / 100.0 * packEnergy
      && (w == BatteryPowerCap
          || w * ChargeHorizonMinutes / 60.0 == (BatteryTarget - percent) / 100.0 * packEnergy)
  {
  }

  /** A fuller battery is never given more power: for a fixed pack the
      reservation does not increase with the charge percentage. */
  lemma AllocationNonIncreasing(p1: real, p2: real, packEnergy: real)
    requires p1 <= p2 && packEnergy >= 0.0
    ensures Allocation(p1, packEnergy) >= Allocation(p2, packEnergy)
  {
    AllocationNonNegative(p1, packEnergy);
    if p2 < BatteryTarget {
      var d1, d2 := BatteryTarget - p1, BatteryTarget - p2;
      assert d1 * packEnergy >= d2 * packEnergy by {
        assert (d1 - d2) * packEnergy >= 0.0;
      }
    }
  }

  class Powerwall {
    const siteId: int
    const displayName: string
    /** The live status fetched by the last successful refresh. */
    var status: Option<PowerStatus>

    constructor (siteId: int, displayName: string)
      ensures this.siteId == siteId && this.displayName == displayName
      ensures status == None
    {
      this.siteId := siteId;
      this.displayName := displayName;
      status := None;
    }

    /** Stores the fetched status; an APIError leaves the previous one in place. */
    method RefreshStatus(reply: Reply<PowerStatus>) returns (r: Reply<PowerStatus>)
      modifies this
      ensures r == reply
      ensures status == (if reply.Ok? then Some(reply.value) else old(status))
    {
      r := reply;
      if reply.Ok? {
        status := Some(reply.value);
      }
    }

    /** The battery reservation for the stored status. */
    function AllocatePower(): (w: real)
      reads this
      requires status.Some?
      ensures w <= BatteryPowerCap
      ensures status.value.percentageCharged >= BatteryTarget ==> w == 0.0
    {
      Allocation(status.value.percentageCharged, status.value.totalPackEnergy)
    }
  }
}
