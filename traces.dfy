/** Repeated polls of ONE action instance. The routine polls each action again
    and again from outside; `Run` gives the combined effect of polling one
    instance with the clock readings `ts`, one per poll, in order, and the lemmas below state
    what the actions promise over any such sequence of polls: the start time is
    the first poll's, the one-shot writes happen once, the intake's final
    direction and power, the feed servos written once. `Run` polls at every
    reading it is given, also after the action has reported done, so the
    lemmas cover an instance that is (wrongly) polled again after completion. */
module Traces {
  import opened Hardware
  import opened Telemetry
  import opened Machines

  /** Polls an action in state `s` at each reading of `ts`: the final state,
      every setter call and every telemetry put in order, and what the last
      poll returned (true when there was no poll at all). */
  function Run<S, R>(step: (S, R) -> Poll<S>, s: S, ts: seq<R>): Poll<S>
    decreases |ts|
  {
    if ts == [] then Poll(s, [], [], true)
    else
      var q := Run(step, s, ts[..|ts| - 1]);
      var p := step(q.next, ts[|ts| - 1]);
      Poll(p.next, q.writes + p.writes, q.puts + p.puts, p.more)
  }

  /** A switch as a step function (switches ignore the clock). */
  function SwitchStep(k: Switch): (bool, int) -> Poll<bool> {
    (initialized: bool, now: int) => SwitchPoll(k, initialized)
  }

  /** BringUp (`Raise`) or BringDown (`Lower`) as a step function. */
  function FeedStep(m: FeedMove): (Clock, Reading) -> Poll<Clock> {
    (c: Clock, r: Reading) => FeedPoll(m, c, r)
  }

  // ---------------------------------------------------------------------------
  // Fire-and-forget actions
  // ---------------------------------------------------------------------------

  /** However often a switch is polled, it issues its writes on the first poll
      only, never puts telemetry and reports done on every poll; an instance
      that is already initialized writes nothing more. */
  lemma {:induction false} SwitchWritesOnce(k: Switch, initialized: bool, ts: seq<int>)
    ensures var r := Run(SwitchStep(k), initialized, ts);
      r.next == (initialized || ts != []) &&
      r.writes == (if initialized || ts == [] then [] else SwitchWrites(k)) &&
      r.puts == [] &&
      (ts != [] ==> !r.more)
    decreases |ts|
  {
    if ts != [] {
      var ts' := ts[..|ts| - 1];
      SwitchWritesOnce(k, initialized, ts');
      var q := Run(SwitchStep(k), initialized, ts');
      var p := SwitchStep(k)(q.next, ts[|ts| - 1]);
      assert p == SwitchPoll(k, q.next);
      assert q.writes + p.writes == (if initialized then [] else SwitchWrites(k)) by {
        if ts' == [] {
          assert q.writes == [];
        } else {
          assert p.writes == [];
        }
      }
    }
  }

  /** A fresh switch polled any positive number of times leaves the outputs
      exactly as one poll does: its fixed values set, nothing else touched. */
  lemma SwitchPolledOutputs(k: Switch, o: Outputs, ts: seq<int>)
    requires ts != []
    ensures Replay(o, Run(SwitchStep(k), false, ts).writes) ==
      match k
      case ShooterOn => o.(leftVelocity := 1650, rightVelocity := 1675)
      case ShooterOff => o.(leftVelocity := 0, rightVelocity := 0)
      case IntakeOn => o.(intakePower := 0.9)
      case IntakeOff => o.(intakePower := 0.0)
  {
    SwitchWritesOnce(k, false, ts);
    SwitchSetsOnlyItsOutputs(k, o);
  }

  // ---------------------------------------------------------------------------
  // Timed actions: the start time
  // ---------------------------------------------------------------------------

  /** For any step that keeps its clock as the first-poll guard does, the clock
      after any non-empty run is the clock the FIRST poll produced. */
  lemma {:induction false} ClockFixedByFirstPoll(step: (Clock, Reading) -> Poll<Clock>, c: Clock, ts: seq<Reading>)
    requires forall c0: Clock, r: Reading :: step(c0, r).next == Start(c0, r.guard)
    ensures ts == [] ==> Run(step, c, ts).next == c
    ensures ts != [] ==> Run(step, c, ts).next == Start(c, ts[0].guard)
    decreases |ts|
  {
    if ts != [] {
      var ts' := ts[..|ts| - 1];
      ClockFixedByFirstPoll(step, c, ts');
      var q := Run(step, c, ts');
      var t := ts[|ts| - 1];
      assert Run(step, c, ts).next == step(q.next, t).next == Start(q.next, t.guard);
      if ts' != [] {
        assert ts'[0] == ts[0];
        assert q.next.initialized;
      }
    }
  }

  /** The elapsed time of every poll of a run is measured from the clock the
      first poll produced: the last poll of `ts` is the stage chain applied to
      its reading minus that start time. */
  lemma ThirdBallLastPoll(c: Clock, ts: seq<Reading>)
    requires ts != []
    ensures var ts' := ts[..|ts| - 1];
      var start := Start(c, ts[0].guard).startTime;
      var r := Run(ThirdBallPoll, c, ts);
      var s := StageAt(ts[|ts| - 1].now - start);
      r.writes == Run(ThirdBallPoll, c, ts').writes + StageWrites(s) &&
      (r.more <==> s != Finish)
  {
    var ts' := ts[..|ts| - 1];
    ClockFixedByFirstPoll(ThirdBallPoll, c, ts');
    if ts' != [] {
      assert ts'[0] == ts[0];
    }
  }

  /** A poll inside a window happened in a run exactly when it happened in the
      run without its last poll, or the last poll itself was inside it. */
  lemma SomePollInSplit(ts: seq<Reading>, start: int, lo: int, hi: int)
    requires ts != []
    ensures SomePollIn(ts, start, lo, hi) <==>
      SomePollIn(ts[..|ts| - 1], start, lo, hi) || lo < ts[|ts| - 1].now - start < hi
  {
    var ts' := ts[..|ts| - 1];
    if SomePollIn(ts, start, lo, hi) {
      var i :| 0 <= i < |ts| && lo < ts[i].now - start < hi;
      if i < |ts'| {
        assert ts'[i] == ts[i];
      }
    }
    if SomePollIn(ts', start, lo, hi) {
      var i :| 0 <= i < |ts'| && lo < ts'[i].now - start < hi;
      assert ts[i] == ts'[i];
    }
  }

  /** BringThirdBall measures elapsed time from its first poll, whatever polls follow. */
  lemma {:induction false} ThirdBallStartsAtFirstPoll(ts: seq<Reading>)
    requires ts != []
    ensures Run(ThirdBallPoll, Unstarted, ts).next == Clock(true, ts[0].guard)
  {
    ClockFixedByFirstPoll(ThirdBallPoll, Unstarted, ts);
  }

  /** BringUp and BringDown measure elapsed time from their first poll. */
  lemma {:induction false} FeedStartsAtFirstPoll(m: FeedMove, ts: seq<Reading>)
    requires ts != []
    ensures Run(FeedStep(m), Unstarted, ts).next == Clock(true, ts[0].guard)
  {
    ClockFixedByFirstPoll(FeedStep(m), Unstarted, ts);
  }

  // ---------------------------------------------------------------------------
  // BringThirdBall over many polls
  // ---------------------------------------------------------------------------

  /** True when some poll of `ts` has an elapsed time strictly between `lo` and
      `hi` milliseconds, measured from `start`. */
  predicate SomePollIn(ts: seq<Reading>, start: int, lo: int, hi: int) {
    exists i :: 0 <= i < |ts| && lo < ts[i].now - start < hi
  }

  /** BringThirdBall only ever drives the intake: however it is polled, the
      shooters and the feed servos keep their values. */
  lemma {:induction false} ThirdBallOnlyIntake(c: Clock, ts: seq<Reading>, o: Outputs)
    ensures forall i :: 0 <= i < |Run(ThirdBallPoll, c, ts).writes| ==>
      IsIntakeCommand(Run(ThirdBallPoll, c, ts).writes[i])
    ensures var o' := Replay(o, Run(ThirdBallPoll, c, ts).writes);
      o'.leftVelocity == o.leftVelocity && o'.rightVelocity == o.rightVelocity &&
      o'.leftPosition == o.leftPosition && o'.rightPosition == o.rightPosition
    decreases |ts|
  {
    if ts != [] {
      ThirdBallOnlyIntake(c, ts[..|ts| - 1], o);
    }
    ReplayIntakeOnly(o, Run(ThirdBallPoll, c, ts).writes);
  }

  /** One branch of the stage chain, other than the eject window, leaves the
      intake FORWARD if it is the advance window and keeps its direction otherwise. */
  lemma DirectionAfterStage(before: Outputs, s: Stage)
    requires s != Eject
    ensures Replay(before, StageWrites(s)).intakeDirection ==
      if s == Advance then Forward else before.intakeDirection
  {
    var w := StageWrites(s);
    if w != [] {
      ReplayShort(before, w[0], w[|w| - 1]);
    }
  }

  /** If no poll lands in the eject window (200, 350) ms, the intake ends up
      FORWARD when some poll landed in the advance window (100, 200) ms, and
      with the direction it had before otherwise. */
  lemma {:induction false} ThirdBallDirectionWithoutEject(c: Clock, ts: seq<Reading>, o: Outputs)
    requires ts != []
    requires !SomePollIn(ts, Start(c, ts[0].guard).startTime, 200, 350)
    ensures Replay(o, Run(ThirdBallPoll, c, ts).writes).intakeDirection ==
      if SomePollIn(ts, Start(c, ts[0].guard).startTime, 100, 200) then Forward else o.intakeDirection
    decreases |ts|
  {
    var start := Start(c, ts[0].guard).startTime;
    var ts' := ts[..|ts| - 1];
    var s := StageAt(ts[|ts| - 1].now - start);
    var earlier := Run(ThirdBallPoll, c, ts').writes;
    ThirdBallLastPoll(c, ts);
    SomePollInSplit(ts, start, 100, 200);
    SomePollInSplit(ts, start, 200, 350);
    ReplayAppend(o, earlier, StageWrites(s));
    DirectionAfterStage(Replay(o, earlier), s);
    if ts' != [] {
      assert ts'[0] == ts[0];
      ThirdBallDirectionWithoutEject(c, ts', o);
    }
  }

  /** A BringThirdBall started from scratch that was never polled inside
      (200, 350) ms but was polled inside (100, 200) ms leaves the intake FORWARD. */
  lemma {:induction false} ThirdBallSkippedEjectEndsForward(ts: seq<Reading>, o: Outputs)
    requires ts != []
    requires !SomePollIn(ts, ts[0].guard, 200, 350)
    requires SomePollIn(ts, ts[0].guard, 100, 200)
    ensures Replay(o, Run(ThirdBallPoll, Unstarted, ts).writes).intakeDirection == Forward
  {
    ThirdBallDirectionWithoutEject(Unstarted, ts, o);
  }

  /** BringThirdBall's last poll reports done exactly when at least 350 ms have
      passed since its first poll, and then the intake power is 0. */
  lemma ThirdBallFinish(c: Clock, ts: seq<Reading>, o: Outputs)
    requires ts != []
    ensures var r := Run(ThirdBallPoll, c, ts);
      (!r.more <==> ts[|ts| - 1].now - Start(c, ts[0].guard).startTime >= 350) &&
      (!r.more ==> Replay(o, r.writes).intakePower == 0.0)
  {
    var ts' := ts[..|ts| - 1];
    var s := StageAt(ts[|ts| - 1].now - Start(c, ts[0].guard).startTime);
    ThirdBallLastPoll(c, ts);
    ReplayAppend(o, Run(ThirdBallPoll, c, ts').writes, StageWrites(s));
    if s == Finish {
      ReplayShort(Replay(o, Run(ThirdBallPoll, c, ts').writes), IntakePower(0.0), IntakePower(0.0));
    }
  }

  // ---------------------------------------------------------------------------
  // BringUp and BringDown over many polls
  // ---------------------------------------------------------------------------

  /** The last poll of a feed run is a poll of the clock its first poll produced. */
  lemma FeedLastPoll(m: FeedMove, c: Clock, ts: seq<Reading>)
    requires ts != []
    ensures var ts' := ts[..|ts| - 1];
      var start := Start(c, ts[0].guard).startTime;
      var elapsed := ts[|ts| - 1].now - start;
      var q := Run(FeedStep(m), c, ts');
      var r := Run(FeedStep(m), c, ts);
      r.writes == q.writes + (if ts' == [] && !c.initialized then FeedWrites(m) else []) &&
      r.puts == q.puts + [Entry(FeedKey(m), elapsed as real)] &&
      (r.more <==> elapsed < SettleMillis)
  {
    var ts' := ts[..|ts| - 1];
    ClockFixedByFirstPoll(FeedStep(m), c, ts');
    var q := Run(FeedStep(m), c, ts');
    assert FeedStep(m)(q.next, ts[|ts| - 1]) == FeedPoll(m, q.next, ts[|ts| - 1]);
    if ts' != [] {
      assert ts'[0] == ts[0];
    }
  }

  /** However often a feed action is polled, it writes its two servos on the
      first poll only, puts the elapsed milliseconds since the first poll on
      every poll, and its last poll asks to continue exactly when fewer than
      500 ms have passed. */
  lemma {:induction false} FeedPolled(m: FeedMove, c: Clock, ts: seq<Reading>)
    requires ts != []
    ensures var r := Run(FeedStep(m), c, ts);
      var start := Start(c, ts[0].guard).startTime;
      r.writes == (if c.initialized then [] else FeedWrites(m)) &&
      |r.puts| == |ts| &&
      (forall i :: 0 <= i < |ts| ==> r.puts[i] == Entry(FeedKey(m), (ts[i].now - start) as real)) &&
      (r.more <==> ts[|ts| - 1].now - start < SettleMillis)
    decreases |ts|
  {
    var start := Start(c, ts[0].guard).startTime;
    var ts' := ts[..|ts| - 1];
    FeedLastPoll(m, c, ts);
    if ts' != [] {
      assert ts'[0] == ts[0];
      FeedPolled(m, c, ts');
      var q := Run(FeedStep(m), c, ts');
      var r := Run(FeedStep(m), c, ts);
      forall i | 0 <= i < |ts|
        ensures r.puts[i] == Entry(FeedKey(m), (ts[i].now - start) as real)
      {
        if i < |ts'| {
          assert r.puts[i] == q.puts[i];
          assert ts[i] == ts'[i];
        }
      }
    }
  }

  /** A fresh BringUp or BringDown polled any positive number of times leaves
      the servos at its two positions and touches no other output. */
  lemma FeedPolledOutputs(m: FeedMove, ts: seq<Reading>, o: Outputs)
    requires ts != []
    ensures Replay(o, Run(FeedStep(m), Unstarted, ts).writes) ==
      match m
      case Raise => o.(leftPosition := 0.95, rightPosition := 0.04)
      case Lower => o.(leftPosition := 0.5, rightPosition := 0.5)
  {
    FeedPolled(m, Unstarted, ts);
    FeedSetsOnlyServos(m, o);
  }
}
