/** The `Feed` controller: the two open-loop servo actions BringUp and BringDown. */
module FeedActions {
  import opened Hardware
  import opened Telemetry
  import opened Machines

  /** Owns the two bring-up servos; each factory call builds a NEW action. */
  class Feed {
    const hw: Devices

    constructor (hw: Devices)
      ensures this.hw == hw
    {
      this.hw := hw;
    }

    method BringUp() returns (a: BringUp)
      ensures fresh(a) && a.hw == hw && a.State() == Unstarted
    {
      a := new BringUp(hw);
    }

    method BringDown() returns (a: BringDown)
      ensures fresh(a) && a.hw == hw && a.State() == Unstarted
    {
      a := new BringDown(hw);
    }
  }

  /** Raises the feed: sets the servos to 0.95 (left) and 0.04 (right) on the
      first poll, then waits 500 ms without checking the servos got there. */
  class BringUp {
    const hw: Devices
    var initialized: bool
    var startTime: int

    /** The action's state as a value. */
    function State(): Clock
      reads this
    {
      Clock(initialized, startTime)
    }

    constructor (hw: Devices)
      ensures this.hw == hw && State() == Unstarted
    {
      this.hw := hw;
      initialized := false;
      startTime := 0;
    }

    /** One poll. `guardNow` is the clock reading taken inside the first-poll
        guard (ignored once initialized); `now` is the reading the elapsed
        time is computed from. */
    method Run(packet: Packet, guardNow: int, now: int) returns (more: bool)
      modifies this, hw, packet
      ensures var p := FeedPoll(Raise, old(State()), Reading(guardNow, now));
        State() == p.next && hw.log == old(hw.log) + p.writes &&
        packet.entries == old(packet.entries) + p.puts && more == p.more
      ensures hw.Current() ==
        if old(initialized) then old(hw.Current())
        else old(hw.Current()).(leftPosition := 0.95, rightPosition := 0.04)
    {
      if !initialized {
        hw.Write(LeftBringUpPosition(0.95));
        hw.Write(RightBringUpPosition(0.04));
        startTime := guardNow;
        initialized := true;
        FeedSetsOnlyServos(Raise, old(hw.Current()));
        ReplayAppend(hw.initial, old(hw.log), FeedWrites(Raise));
      }
      var elapsed := now - startTime;
      packet.Put("Feed Up Time", elapsed as real);
      return elapsed < 500;
    }
  }

  /** Lowers the feed: sets both servos to 0.5 on the first poll, then waits
      500 ms without checking the servos got there. */
  class BringDown {
    const hw: Devices
    var initialized: bool
    var startTime: int

    /** The action's state as a value. */
    function State(): Clock
      reads this
    {
      Clock(initialized, startTime)
    }

    constructor (hw: Devices)
      ensures this.hw == hw && State() == Unstarted
    {
      this.hw := hw;
      initialized := false;
      startTime := 0;
    }

    /** One poll. `guardNow` is the clock reading taken inside the first-poll
        guard (ignored once initialized); `now` is the reading the elapsed
        time is computed from. */
    method Run(packet: Packet, guardNow: int, now: int) returns (more: bool)
      modifies this, hw, packet
      ensures var p := FeedPoll(Lower, old(State()), Reading(guardNow, now));
        State() == p.next && hw.log == old(hw.log) + p.writes &&
        packet.entries == old(packet.entries) + p.puts && more == p.more
      ensures hw.Current() ==
        if old(initialized) then old(hw.Current())
        else old(hw.Current()).(leftPosition := 0.5, rightPosition := 0.5)
    {
      if !initialized {
        hw.Write(LeftBringUpPosition(0.5));
        hw.Write(RightBringUpPosition(0.5));
        startTime := guardNow;
        initialized := true;
        FeedSetsOnlyServos(Lower, old(hw.Current()));
        ReplayAppend(hw.initial, old(hw.log), FeedWrites(Lower));
      }
      var elapsed := now - startTime;
      packet.Put("Feed Down Time", elapsed as real);
      return elapsed < 500;
    }
  }
}
