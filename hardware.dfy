/** The robot's actuators as a write-only output sink.
    The actions never read a device back: they only call setters. The model
    records every setter call, in order, as a `Command` in a log, and the
    value each output holds is what replaying that log over the outputs'
    values before the routine gives. */
module Hardware {

  /** `DcMotor.Direction` as far as the routine uses it. */
  datatype Direction = Forward | Reverse

  /** One setter call on one named device. */
  datatype Command =
    | LeftShooterVelocity(ticksPerSecond: int)   // leftShooter.setVelocity
    | RightShooterVelocity(ticksPerSecond: int)  // rightShooter.setVelocity
    | IntakePower(power: real)                   // intake.setPower
    | IntakeDirection(direction: Direction)      // intake.setDirection
    | LeftBringUpPosition(position: real)        // leftBringUp.setPosition
    | RightBringUpPosition(position: real)       // rightBringUp.setPosition

  /** The value every output was last set to. */
  datatype Outputs = Outputs(
    leftVelocity: int,
    rightVelocity: int,
    intakePower: real,
    intakeDirection: Direction,
    leftPosition: real,
    rightPosition: real)

  /** True of a command that addresses the intake motor. */
  predicate IsIntakeCommand(c: Command) {
    c.IntakePower? || c.IntakeDirection?
  }

  /** The outputs after one setter call: only the addressed output changes. */
  function Apply(o: Outputs, c: Command): (o': Outputs)
    ensures IsIntakeCommand(c) ==>
      o'.leftVelocity == o.leftVelocity && o'.rightVelocity == o.rightVelocity &&
      o'.leftPosition == o.leftPosition && o'.rightPosition == o.rightPosition
    ensures !c.IntakeDirection? ==> o'.intakeDirection == o.intakeDirection
    ensures !c.IntakePower? ==> o'.intakePower == o.intakePower
  {
    match c
    case LeftShooterVelocity(v) => o.(leftVelocity := v)
    case RightShooterVelocity(v) => o.(rightVelocity := v)
    case IntakePower(p) => o.(intakePower := p)
    case IntakeDirection(d) => o.(intakeDirection := d)
    case LeftBringUpPosition(x) => o.(leftPosition := x)
    case RightBringUpPosition(x) => o.(rightPosition := x)
  }

  /** The outputs after a whole log of setter calls, the last one applied last. */
  function Replay(o: Outputs, log: seq<Command>): Outputs
    decreases |log|
  {
    if log == [] then o else Apply(Replay(o, log[..|log| - 1]), log[|log| - 1])
  }

  /** Replaying two logs one after the other is replaying their concatenation. */
  lemma {:induction false} ReplayAppend(o: Outputs, a: seq<Command>, b: seq<Command>)
    ensures Replay(o, a + b) == Replay(Replay(o, a), b)
    decreases |b|
  {
    if b != [] {
      var b' := b[..|b| - 1];
      assert (a + b)[..|a + b| - 1] == a + b';
      ReplayAppend(o, a, b');
    } else {
      assert a + b == a;
    }
  }

  /** Replaying a log of one or two setter calls applies them in order. */
  lemma ReplayShort(o: Outputs, a: Command, b: Command)
    ensures Replay(o, [a]) == Apply(o, a)
    ensures Replay(o, [a, b]) == Apply(Apply(o, a), b)
  {
    assert [a, b][..1] == [a];
    assert [a][..0] == [];
  }

  /** A log that addresses only the intake leaves the shooters and the feed servos alone. */
  lemma {:induction false} ReplayIntakeOnly(o: Outputs, log: seq<Command>)
    requires forall i :: 0 <= i < |log| ==> IsIntakeCommand(log[i])
    ensures var o' := Replay(o, log);
      o'.leftVelocity == o.leftVelocity && o'.rightVelocity == o.rightVelocity &&
      o'.leftPosition == o.leftPosition && o'.rightPosition == o.rightPosition
    decreases |log|
  {
    if log != [] {
      ReplayIntakeOnly(o, log[..|log| - 1]);
    }
  }

  /** The robot's output sink: its outputs before the routine and the log of
      setter calls issued since. */
  class Devices {
    const initial: Outputs
    var log: seq<Command>

    /** What every output currently holds. */
    function Current(): Outputs
      reads this
    {
      Replay(initial, log)
    }

    constructor (initial: Outputs)
      ensures this.initial == initial && log == []
      ensures Current() == initial
    {
      this.initial := initial;
      log := [];
    }

    /** Issues one setter call. */
    method Write(c: Command)
      modifies this
      ensures log == old(log) + [c]
      ensures Current() == Apply(old(Current()), c)
    {
      log := log + [c];
      assert log[..|log| - 1] == old(log);
    }
  }
}
