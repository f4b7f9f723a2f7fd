/** The `Shoot` controller and its two fire-and-forget actions. */
module ShootActions {
  import opened Hardware
  import opened Telemetry
  import opened Machines

  /** Owns the two shooter motors; each factory call builds a NEW action. */
  class Shoot {
    const hw: Devices

    constructor (hw: Devices)
      ensures this.hw == hw
    {
      this.hw := hw;
    }

    method TurnShooterOn() returns (a: TurnShooterOn)
      ensures fresh(a) && a.hw == hw && !a.initialized
    {
      a := new TurnShooterOn(hw);
    }

    method TurnShooterOff() returns (a: TurnShooterOff)
      ensures fresh(a) && a.hw == hw && !a.initialized
    {
      a := new TurnShooterOff(hw);
    }
  }

  /** Spins the shooters up (left 1650, right 1675) on its first poll and is done at once. */
  class TurnShooterOn {
    const hw: Devices
    var initialized: bool

    constructor (hw: Devices)
      ensures this.hw == hw && !initialized
    {
      this.hw := hw;
      initialized := false;
    }

    method Run(packet: Packet) returns (more: bool)
      modifies this, hw
      ensures var p := SwitchPoll(ShooterOn, old(initialized));
        initialized == p.next && hw.log == old(hw.log) + p.writes && more == p.more
      ensures hw.Current() ==
        if old(initialized) then old(hw.Current())
        else old(hw.Current()).(leftVelocity := 1650, rightVelocity := 1675)
    {
      if !initialized {
        hw.Write(LeftShooterVelocity(1650));
        hw.Write(RightShooterVelocity(1675));
        initialized := true;
        SwitchSetsOnlyItsOutputs(ShooterOn, old(hw.Current()));
        ReplayAppend(hw.initial, old(hw.log), SwitchWrites(ShooterOn));
      }
      return false;
    }
  }

  /** Stops both shooters (velocity 0) on its first poll and is done at once. */
  class TurnShooterOff {
    const hw: Devices
    var initialized: bool

    constructor (hw: Devices)
      ensures this.hw == hw && !initialized
    {
      this.hw := hw;
      initialized := false;
    }

    method Run(packet: Packet) returns (more: bool)
      modifies this, hw
      ensures var p := SwitchPoll(ShooterOff, old(initialized));
        initialized == p.next && hw.log == old(hw.log) + p.writes && more == p.more
      ensures hw.Current() ==
        if old(initialized) then old(hw.Current())
        else old(hw.Current()).(leftVelocity := 0, rightVelocity := 0)
    {
      if !initialized {
        hw.Write(LeftShooterVelocity(0));
        hw.Write(RightShooterVelocity(0));
        initialized := true;
        SwitchSetsOnlyItsOutputs(ShooterOff, old(hw.Current()));
        ReplayAppend(hw.initial, old(hw.log), SwitchWrites(ShooterOff));
      }
      return false;
    }
  }
}
