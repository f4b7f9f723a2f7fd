/** Test scenarios: clients that build the controllers and poll action
    instances by hand at chosen clock readings, the way a runner would. They
    are not a model of any runner; they show what a caller can conclude from
    the actions' contracts alone. */
module Scenarios {
  import opened Hardware
  import opened Telemetry
  import opened Machines
  import opened ShootActions
  import opened IntakeActions
  import opened FeedActions

  /** A BringThirdBall polled at 0, 150 and 360 ms after its first poll never
      sees the reverse window: it ends with the intake stopped and FORWARD,
      although setting up the intake had made it REVERSE. */
  method ThirdBallSkipsEject(o: Outputs, t0: int) returns (final: Outputs, more: bool)
    ensures final == o.(intakeDirection := Forward, intakePower := 0.0)
    ensures !more
  {
    var hw := new Devices(o);
    var intake := new Intake(hw);
    var a := intake.BringThirdBall();
    var packet := new Packet();
    ghost var o1 := hw.Current();
    more := a.Run(packet, t0, t0);
    assert hw.Current() == o1 && more;
    ThirdBallWindows(a.State(), Reading(t0 + 150, t0 + 150), o1);
    more := a.Run(packet, t0 + 150, t0 + 150);
    ghost var o2 := hw.Current();
    ThirdBallWindows(a.State(), Reading(t0 + 360, t0 + 360), o2);
    more := a.Run(packet, t0 + 360, t0 + 360);
    final := hw.Current();
  }

  /** A first poll during which the clock ticks once between the guard's
      reading and the elapsed-time reading already falls in the hold window:
      it stops the intake and puts 0.001 s. */
  method ThirdBallFirstPollTick(o: Outputs, t0: int) returns (final: Outputs, more: bool, entries: seq<Entry>)
    ensures final == o.(intakeDirection := Reverse, intakePower := 0.0)
    ensures more && entries == [Entry(ThirdBallKey, 0.001)]
  {
    var hw := new Devices(o);
    var intake := new Intake(hw);
    var a := intake.BringThirdBall();
    var packet := new Packet();
    ghost var o1 := hw.Current();
    ThirdBallWindows(Unstarted, Reading(t0, t0 + 1), o1);
    more := a.Run(packet, t0, t0 + 1);
    final := hw.Current();
    entries := packet.entries;
  }

  /** Spinning up the shooters and raising the feed: the feed reports
      "continue" until 500 ms after its own first poll, and a poll after it
      is done writes nothing more. */
  method ShooterOnThenRaise(o: Outputs, t0: int) returns (final: Outputs, moreEarly: bool, moreLate: bool)
    ensures final == o.(leftVelocity := 1650, rightVelocity := 1675, leftPosition := 0.95, rightPosition := 0.04)
    ensures moreEarly && !moreLate
  {
    var hw := new Devices(o);
    var shoot := new Shoot(hw);
    var feed := new Feed(hw);
    var packet := new Packet();
    var on := shoot.TurnShooterOn();
    var done := on.Run(packet);
    var up := feed.BringUp();
    moreEarly := up.Run(packet, t0 + 10, t0 + 10);
    moreEarly := up.Run(packet, t0 + 10, t0 + 509);
    moreLate := up.Run(packet, t0 + 10, t0 + 510);
    var again := up.Run(packet, t0 + 10, t0 + 900);
    final := hw.Current();
  }
}
