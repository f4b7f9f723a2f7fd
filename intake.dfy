/** The `Intake` controller: two fire-and-forget actions and the timed
    four-window BringThirdBall sequence. */
module IntakeActions {
  import opened Hardware
  import opened Telemetry
  import opened Machines

  /** Owns the intake motor. Setting it up sets the motor's direction to
      REVERSE; each factory call builds a NEW action. */
  class Intake {
    const hw: Devices

    constructor (hw: Devices)
      modifies hw
      ensures this.hw == hw
      ensures hw.log == old(hw.log) + [IntakeDirection(Reverse)]
      ensures hw.Current() == old(hw.Current()).(intakeDirection := Reverse)
    {
      this.hw := hw;
      new;
      hw.Write(IntakeDirection(Reverse));
    }

    method TurnIntakeOn() returns (a: TurnIntakeOn)
      ensures fresh(a) && a.hw == hw && !a.initialized
    {
      a := new TurnIntakeOn(hw);
    }

    method TurnIntakeOff() returns (a: TurnIntakeOff)
      ensures fresh(a) && a.hw == hw && !a.initialized
    {
      a := new TurnIntakeOff(hw);
    }

    method BringThirdBall() returns (a: BringThirdBall)
      ensures fresh(a) && a.hw == hw && a.State() == Unstarted
    {
      a := new BringThirdBall(hw);
    }
  }

  /** Runs the intake at power 0.9 from its first poll and is done at once. */
  class TurnIntakeOn {
    const hw: Devices
    var initialized: bool

    constructor (hw: Devices)
      ensures this.hw == hw && !initialized
    {
      this.hw := hw;
      initialized := false;
    }

    method Run(packet: Packet) returns (more: bool)
      modifies this, hw
      ensures var p := SwitchPoll(IntakeOn, old(initialized));
        initialized == p.next && hw.log == old(hw.log) + p.writes && more == p.more
      ensures hw.Current() ==
        if old(initialized) then old(hw.Current()) else old(hw.Current()).(intakePower := 0.9)
    {
      if !initialized {
        hw.Write(IntakePower(0.9));
        initialized := true;
        SwitchSetsOnlyItsOutputs(IntakeOn, old(hw.Current()));
        ReplayAppend(hw.initial, old(hw.log), SwitchWrites(IntakeOn));
      }
      return false;
    }
  }

  /** Stops the intake (power 0) on its first poll and is done at once. */
  class TurnIntakeOff {
    const hw: Devices
    var initialized: bool

    constructor (hw: Devices)
      ensures this.hw == hw && !initialized
    {
      this.hw := hw;
      initialized := false;
    }

    method Run(packet: Packet) returns (more: bool)
      modifies this, hw
      ensures var p := SwitchPoll(IntakeOff, old(initialized));
        initialized == p.next && hw.log == old(hw.log) + p.writes && more == p.more
      ensures hw.Current() ==
        if old(initialized) then old(hw.Current()) else old(hw.Current()).(intakePower := 0.0)
    {
      if !initialized {
        hw.Write(IntakePower(0.0));
        initialized := true;
        SwitchSetsOnlyItsOutputs(IntakeOff, old(hw.Current()));
        ReplayAppend(hw.initial, old(hw.log), SwitchWrites(IntakeOff));
      }
      return false;
    }
  }

  /** Feeds the third ball: holds the intake, runs it forward, then reverses it
      hard, over elapsed-time windows measured from the first poll, and stops
      it once 350 ms have passed. */
  class BringThirdBall {
    const hw: Devices
    var initialized: bool
    var startTime: int

    /** The action's state as a value. */
    function State(): Clock
      reads this
    {
      Clock(initialized, startTime)
    }

    constructor (hw: Devices)
      ensures this.hw == hw && State() == Unstarted
    {
      this.hw := hw;
      initialized := false;
      startTime := 0;
    }

    /** One poll. `guardNow` is the clock reading taken inside the first-poll
        guard (ignored once initialized); `now` is the reading the elapsed
        time is computed from. */
    method Run(packet: Packet, guardNow: int, now: int) returns (more: bool)
      modifies this, hw, packet
      ensures var p := ThirdBallPoll(old(State()), Reading(guardNow, now));
        State() == p.next && hw.log == old(hw.log) + p.writes &&
        packet.entries == old(packet.entries) + p.puts && more == p.more
      ensures hw.Current() == Replay(old(hw.Current()), ThirdBallPoll(old(State()), Reading(guardNow, now)).writes)
    {
      if !initialized {
        startTime := guardNow;
        initialized := true;
      }
      var elapsed := now - startTime;
      if 0 < elapsed < 100 {
        hw.Write(IntakePower(0.0));
      } else if 100 < elapsed < 200 {
        hw.Write(IntakeDirection(Forward));
        hw.Write(IntakePower(0.5));
      } else if 200 < elapsed < 350 {
        hw.Write(IntakeDirection(Reverse));
        hw.Write(IntakePower(1.0));
      } else if elapsed >= 350 {
        hw.Write(IntakePower(0.0));
        assert hw.log == old(hw.log) + hw.log[|old(hw.log)|..];
        ReplayAppend(hw.initial, old(hw.log), hw.log[|old(hw.log)|..]);
        return false;
      }
      packet.Put(ThirdBallKey, elapsed as real / 1000.0);
      assert hw.log == old(hw.log) + hw.log[|old(hw.log)|..];
      ReplayAppend(hw.initial, old(hw.log), hw.log[|old(hw.log)|..]);
      return true;
    }
  }
}
