/** The seven hand-written actions of the autonomous routine as explicit state
    machines: what ONE call of `run` does, given the action's state before the
    call and the clock readings (milliseconds) that call takes. The classes in
    shoot.dfy, intake.dfy and feed.dfy are proved to behave exactly as these
    functions say. */
module Machines {
  import opened Hardware
  import opened Telemetry

  /** The outcome of one poll: the action's state afterwards, the setter calls
      it issued in order, the telemetry it put in order, and its return value
      (true: poll me again; false: done). */
  datatype Poll<S> = Poll(next: S, writes: seq<Command>, puts: seq<Entry>, more: bool)

  // ---------------------------------------------------------------------------
  // Fire-and-forget actions: TurnShooterOn, TurnShooterOff, TurnIntakeOn,
  // TurnIntakeOff. Their only state is the `initialized` flag.
  // ---------------------------------------------------------------------------

  datatype Switch = ShooterOn | ShooterOff | IntakeOn | IntakeOff

  /** The setter calls a switch makes on its first poll. */
  function SwitchWrites(k: Switch): seq<Command> {
    match k
    case ShooterOn => [LeftShooterVelocity(1650), RightShooterVelocity(1675)]
    case ShooterOff => [LeftShooterVelocity(0), RightShooterVelocity(0)]
    case IntakeOn => [IntakePower(0.9)]
    case IntakeOff => [IntakePower(0.0)]
  }

  /** Each switch sets its fixed values and touches no other output. */
  lemma SwitchSetsOnlyItsOutputs(k: Switch, o: Outputs)
    ensures Replay(o, SwitchWrites(k)) ==
      match k
      case ShooterOn => o.(leftVelocity := 1650, rightVelocity := 1675)
      case ShooterOff => o.(leftVelocity := 0, rightVelocity := 0)
      case IntakeOn => o.(intakePower := 0.9)
      case IntakeOff => o.(intakePower := 0.0)
  {
    var w := SwitchWrites(k);
    ReplayShort(o, w[0], w[|w| - 1]);
  }

  /** One poll of a switch: it writes only when not yet initialized, never puts
      telemetry and always reports done. */
  function SwitchPoll(k: Switch, initialized: bool): (p: Poll<bool>)
    ensures p.next && !p.more && p.puts == []
    ensures p.writes == [] <==> initialized
  {
    Poll(true, if initialized then [] else SwitchWrites(k), [], false)
  }

  // ---------------------------------------------------------------------------
  // Timed actions: BringThirdBall, BringUp, BringDown. Their state is the
  // `initialized` flag and the `startTime` captured on the first poll.
  // ---------------------------------------------------------------------------

  datatype Clock = Clock(initialized: bool, startTime: int)

  /** The field initialisers `initialized = false` and `startTime = 0`. */
  const Unstarted: Clock := Clock(false, 0)

  /** The clock readings one poll of a timed action takes, in milliseconds.
      `guard` is read inside the first-poll guard and becomes the start time;
      a poll of an initialized action does not read it. `now` is read
      afterwards to compute the elapsed time. On a first poll the clock may
      tick between the two, so they may differ. */
  datatype Reading = Reading(guard: int, now: int)

  /** The clock after the first-poll guard: the start time is captured on the
      first poll only and is never moved afterwards. */
  function Start(c: Clock, now: int): (c': Clock)
    ensures c'.initialized
    ensures c.initialized ==> c' == c
    ensures !c.initialized ==> c'.startTime == now
  {
    if c.initialized then c else Clock(true, now)
  }

  // ----- BringThirdBall --------------------------------------------------------

  const ThirdBallKey: string := "Third Ball Sequence Time"

  /** The branch of the elapsed-time chain a poll takes. `Idle` is the fall
      through: no window matches (elapsed 0 or below, or exactly 100 or 200). */
  datatype Stage = Idle | Stop | Advance | Eject | Finish

  /** Which window an elapsed time in milliseconds falls in. */
  function StageAt(elapsed: int): (s: Stage)
    ensures s == Stop <==> 0 < elapsed < 100
    ensures s == Advance <==> 100 < elapsed < 200
    ensures s == Eject <==> 200 < elapsed < 350
    ensures s == Finish <==> elapsed >= 350
    ensures s == Idle <==> elapsed <= 0 || elapsed == 100 || elapsed == 200
  {
    if 0 < elapsed < 100 then Stop
    else if 100 < elapsed < 200 then Advance
    else if 200 < elapsed < 350 then Eject
    else if elapsed >= 350 then Finish
    else Idle
  }

  /** The setter calls of each branch. */
  function StageWrites(s: Stage): seq<Command> {
    match s
    case Idle => []
    case Stop => [IntakePower(0.0)]
    case Advance => [IntakeDirection(Forward), IntakePower(0.5)]
    case Eject => [IntakeDirection(Reverse), IntakePower(1.0)]
    case Finish => [IntakePower(0.0)]
  }

  /** One poll of BringThirdBall. A first poll whose two readings coincide
      commands nothing. */
  function ThirdBallPoll(c: Clock, r: Reading): (p: Poll<Clock>)
    ensures p.next == Start(c, r.guard)
    ensures p.more <==> r.now - p.next.startTime < 350
    ensures !p.more ==> p.writes == [IntakePower(0.0)] && p.puts == []
    ensures p.more ==> p.puts == [Entry(ThirdBallKey, (r.now - p.next.startTime) as real / 1000.0)]
    ensures !c.initialized && r.now == r.guard ==> p.writes == [] && p.more
    ensures forall i :: 0 <= i < |p.writes| ==> IsIntakeCommand(p.writes[i])
  {
    var c' := Start(c, r.guard);
    var elapsed := r.now - c'.startTime;
    var s := StageAt(elapsed);
    Poll(c', StageWrites(s),
         if s == Finish then [] else [Entry(ThirdBallKey, elapsed as real / 1000.0)],
         s != Finish)
  }

  /** What a poll of BringThirdBall does to the outputs, window by window; the
      elapsed time is measured from the start time after the guard, so a first
      poll whose clock ticked between its two readings is covered too. */
  lemma ThirdBallWindows(c: Clock, r: Reading, o: Outputs)
    ensures var p := ThirdBallPoll(c, r);
      var elapsed := r.now - Start(c, r.guard).startTime;
      var o' := Replay(o, p.writes);
      (0 < elapsed < 100 ==> o' == o.(intakePower := 0.0) && p.more) &&
      (100 < elapsed < 200 ==> o' == o.(intakeDirection := Forward, intakePower := 0.5) && p.more) &&
      (200 < elapsed < 350 ==> o' == o.(intakeDirection := Reverse, intakePower := 1.0) && p.more) &&
      (elapsed >= 350 ==> o' == o.(intakePower := 0.0) && !p.more) &&
      (elapsed <= 0 || elapsed == 100 || elapsed == 200 ==>
         p.writes == [] && p.more && p.puts == [Entry(ThirdBallKey, elapsed as real / 1000.0)])
  {
    var w := ThirdBallPoll(c, r).writes;
    if w != [] {
      ReplayShort(o, w[0], w[|w| - 1]);
    }
  }

  // ----- BringUp and BringDown -------------------------------------------------

  /** Which of the two feed-servo actions. */
  datatype FeedMove = Raise | Lower

  /** How long the feed actions keep reporting "continue", in milliseconds. */
  const SettleMillis: int := 500

  /** The two servo positions a feed action sets on its first poll. */
  function FeedWrites(m: FeedMove): seq<Command> {
    match m
    case Raise => [LeftBringUpPosition(0.95), RightBringUpPosition(0.04)]
    case Lower => [LeftBringUpPosition(0.5), RightBringUpPosition(0.5)]
  }

  /** The telemetry key of a feed action. */
  function FeedKey(m: FeedMove): string {
    match m
    case Raise => "Feed Up Time"
    case Lower => "Feed Down Time"
  }

  /** The feed actions set the two bring-up servos and nothing else. */
  lemma FeedSetsOnlyServos(m: FeedMove, o: Outputs)
    ensures Replay(o, FeedWrites(m)) ==
      match m
      case Raise => o.(leftPosition := 0.95, rightPosition := 0.04)
      case Lower => o.(leftPosition := 0.5, rightPosition := 0.5)
  {
    var w := FeedWrites(m);
    ReplayShort(o, w[0], w[1]);
  }

  /** One poll of BringUp or BringDown: the servos are written on the first poll
      only; every poll, the first included, puts the elapsed milliseconds and
      asks to continue while fewer than 500 ms have passed. A first poll asks to
      continue unless 500 ms or more pass between its two clock readings. */
  function FeedPoll(m: FeedMove, c: Clock, r: Reading): (p: Poll<Clock>)
    ensures p.next == Start(c, r.guard)
    ensures p.writes == (if c.initialized then [] else FeedWrites(m))
    ensures p.puts == [Entry(FeedKey(m), (r.now - p.next.startTime) as real)]
    ensures p.more <==> r.now - p.next.startTime < SettleMillis
    ensures !c.initialized && r.now - r.guard < SettleMillis ==> p.more
  {
    var c' := Start(c, r.guard);
    var elapsed := r.now - c'.startTime;
    Poll(c', if c.initialized then [] else FeedWrites(m),
         [Entry(FeedKey(m), elapsed as real)], elapsed < SettleMillis)
  }
}
