# Near Blue Side autonomous: the hand-written actions

This project models, in Dafny, the seven hand-written actions of the robot's
"Near Blue Side" autonomous routine (`NearBlueSideAuto.java`), and the
factories that build them:

- **Fire-and-forget actions.** `TurnShooterOn`, `TurnShooterOff`, `TurnIntakeOn`
  and `TurnIntakeOff` write the hardware once and report done at once.
- **Open-loop servo actions.** `BringUp` and `BringDown` set the two feed
  servos once. They then report "continue" until 500 ms after their first poll.
- **The intake sequence.** `BringThirdBall` picks an intake command from
  disjoint elapsed-time windows and finishes at 350 ms.

The runtime polls each action through `run(packet)`. Every action keeps an
`initialized` flag, and the timed ones also keep a `startTime`.

Layout:

- `hardware.dfy` (module `Hardware`): the actuators as a write-only sink.
  - Every setter call (`setVelocity`, `setPower`, `setDirection`, `setPosition`)
    is a `Command`, appended to the log of a `Devices` object.
  - The value each output holds is `Replay` of that log over the outputs'
    values before the routine.
- `telemetry.dfy` (module `Telemetry`): the `TelemetryPacket` as a log of
  key/value puts.
- `machines.dfy` (module `Machines`): each action's `run` as a pure state
  machine. A function of the action's state and the clock readings of the poll
  gives the new state, the setter calls, the puts and the return value.
- `traces.dfy` (module `Traces`): `Run` gives the effect of polling one instance
  at a sequence of clock readings. The lemmas there state what the actions
  promise over any such sequence.
- `shoot.dfy`, `intake.dfy`, `feed.dfy`: the classes.
  - The controllers `Shoot`, `Intake` and `Feed`, whose factory methods build a
    fresh action on every call.
  - One class per action, with the source's fields (`initialized`,
    `startTime`).
  - Each `Run` method updates the fields and the device log in place. It is
    proved to do exactly what the matching pure poll function says.
- `scenarios.dfy` (module `Scenarios`): three hand-written test clients. They
  poll real action instances at chosen clock readings. They are not a model of
  any runner.

Time is an integer number of milliseconds, in place of
`System.currentTimeMillis()`. A poll of a timed action reads the clock twice
when it is the first poll: once inside the `!initialized` guard, for
`startTime` (lines 127, 173, 196), and once more for the elapsed time (lines
131, 177, 200). Later polls read it only the second time. So `Run` takes two
readings, `guardNow` and `now` (the `Reading(guard, now)` of the pure model),
and a first poll's elapsed time is `now - guardNow`, which is 0 only when the
clock did not tick in between.

- `startTime` only ever holds a millisecond count. `BringThirdBall` compares
  `(now - startTime) / 1000.0` with 0.1, 0.2 and 0.35. Correctly rounded
  division maps 100, 200 and 350 to the same doubles as those literals, so
  these comparisons agree exactly with comparing the millisecond difference
  with 100, 200 and 350.
- The power and position constants are only assigned, never computed. The
  model holds them as exact reals.

The strict comparisons of `BringThirdBall` (lines 133-143) leave gaps between
its windows:

- A poll whose elapsed time is 0 or negative, or exactly 100 or 200 ms, issues
  no hardware command. It still puts its telemetry and returns true.
- A first poll whose two clock readings coincide has elapsed time 0, so it
  commands nothing. If the clock ticks between them, the first poll already
  falls in a window: one millisecond gives elapsed 0.001 s and `setPower(0)`.
- Done means elapsed ≥ 350 ms (`>=`), not "beyond" 350 ms.

## Model

| member | source | states |
|---|---|---|
| `Machines.SwitchSetsOnlyItsOutputs` | Autonomous/Odometry/NearBlueSideAuto.java:41-113 | TurnShooterOn sets left velocity 1650 and right 1675; TurnShooterOff sets both to 0; TurnIntakeOn sets intake power 0.9; TurnIntakeOff sets it to 0. No other output changes |
| `Machines.SwitchPoll` | Autonomous/Odometry/NearBlueSideAuto.java:41-113 | a poll of a fire-and-forget action sets `initialized`, puts nothing and returns false; it writes hardware exactly when it was not yet initialized |
| `Traces.SwitchWritesOnce` | Autonomous/Odometry/NearBlueSideAuto.java:41-113 | however many times a fire-and-forget action is polled, its writes are issued once, on the first poll; every poll returns false; an already-initialized instance writes nothing more and its state stays unchanged |
| `Traces.SwitchPolledOutputs` | Autonomous/Odometry/NearBlueSideAuto.java:41-113 | a fresh fire-and-forget action polled one or more times leaves the outputs exactly as after its fixed writes, with nothing else touched |
| `ShootActions.Shoot.TurnShooterOn` | Autonomous/Odometry/NearBlueSideAuto.java:55-57 | the factory returns a new, uninitialized TurnShooterOn bound to the shooter motors |
| `ShootActions.Shoot.TurnShooterOff` | Autonomous/Odometry/NearBlueSideAuto.java:73-75 | the factory returns a new, uninitialized TurnShooterOff |
| `ShootActions.TurnShooterOn.constructor` | Autonomous/Odometry/NearBlueSideAuto.java:42 | a new instance starts with `initialized` false |
| `ShootActions.TurnShooterOn.Run` | Autonomous/Odometry/NearBlueSideAuto.java:45-52 | returns false; on the first run only, sets the left shooter velocity to 1650 and the right to 1675 and marks itself initialized; a later run changes no output |
| `ShootActions.TurnShooterOff.constructor` | Autonomous/Odometry/NearBlueSideAuto.java:60 | a new instance starts with `initialized` false |
| `ShootActions.TurnShooterOff.Run` | Autonomous/Odometry/NearBlueSideAuto.java:63-70 | returns false; on the first run only, sets both shooter velocities to 0; a later run changes no output |
| `ShootActions.Shoot.constructor` | Autonomous/Odometry/NearBlueSideAuto.java:30-32 | binds the controller to the robot's devices |
| `IntakeActions.Intake.constructor` | Autonomous/Odometry/NearBlueSideAuto.java:81-84 | setting up the intake issues one command, direction REVERSE, and changes no other output |
| `IntakeActions.Intake.TurnIntakeOn` | Autonomous/Odometry/NearBlueSideAuto.java:99-101 | the factory returns a new, uninitialized TurnIntakeOn |
| `IntakeActions.Intake.TurnIntakeOff` | Autonomous/Odometry/NearBlueSideAuto.java:116-118 | the factory returns a new, uninitialized TurnIntakeOff |
| `IntakeActions.Intake.BringThirdBall` | Autonomous/Odometry/NearBlueSideAuto.java:151-153 | the factory returns a new BringThirdBall, not initialized, start time 0 |
| `IntakeActions.TurnIntakeOn.constructor` | Autonomous/Odometry/NearBlueSideAuto.java:87 | a new instance starts with `initialized` false |
| `IntakeActions.TurnIntakeOn.Run` | Autonomous/Odometry/NearBlueSideAuto.java:90-96 | returns false; on the first run only, sets intake power 0.9; a later run changes no output |
| `IntakeActions.TurnIntakeOff.constructor` | Autonomous/Odometry/NearBlueSideAuto.java:104 | a new instance starts with `initialized` false |
| `IntakeActions.TurnIntakeOff.Run` | Autonomous/Odometry/NearBlueSideAuto.java:107-113 | returns false; on the first run only, sets intake power 0; a later run changes no output |
| `IntakeActions.BringThirdBall.constructor` | Autonomous/Odometry/NearBlueSideAuto.java:121-122 | a new instance is not initialized and has start time 0 |
| `IntakeActions.BringThirdBall.Run` | Autonomous/Odometry/NearBlueSideAuto.java:125-148 | given the guard's clock reading and the elapsed-time reading, the new fields, the commands appended to the device log, the telemetry appended to the packet and the return value are exactly those of `ThirdBallPoll`; the outputs become the old outputs with those commands applied |
| `Machines.Start` | Autonomous/Odometry/NearBlueSideAuto.java:126-129 | after the first-poll guard the action is initialized; the start time is the guard's clock reading on the first poll and is never changed afterwards |
| `Machines.StageAt` | Autonomous/Odometry/NearBlueSideAuto.java:133-141 | each branch of the elapsed-time chain is taken exactly when elapsed lies in its window: (0,100), (100,200), (200,350), ≥ 350. No command is issued exactly when elapsed ≤ 0, = 100 or = 200 |
| `Machines.ThirdBallPoll` | Autonomous/Odometry/NearBlueSideAuto.java:125-148 | a poll returns false exactly when elapsed ≥ 350 ms, and then writes only intake power 0 and puts nothing; otherwise it puts "Third Ball Sequence Time" as elapsed seconds; the start time is the guard's reading on the first poll; a first poll whose two clock readings coincide commands nothing and returns true; every command addresses the intake |
| `Machines.ThirdBallWindows` | Autonomous/Odometry/NearBlueSideAuto.java:133-147 | per window of the elapsed time (from the start time after the guard, so first polls included), the outputs after a poll: power 0 in (0,100); FORWARD at power 0.5 in (100,200); REVERSE at power 1.0 in (200,350); power 0 with direction kept at ≥ 350 (done); no command but telemetry and true at elapsed ≤ 0, 100 or 200 |
| `Traces.ClockFixedByFirstPoll` | Autonomous/Odometry/NearBlueSideAuto.java:126-129 | for any poll function that goes through the first-poll guard, the state after any sequence of polls is the one the first poll produced |
| `Traces.ThirdBallStartsAtFirstPoll` | Autonomous/Odometry/NearBlueSideAuto.java:126-129 | after any polls of a fresh BringThirdBall, it is initialized with the start time read by its first poll's guard |
| `Traces.ThirdBallLastPoll` | Autonomous/Odometry/NearBlueSideAuto.java:126-147 | the last poll of any sequence takes the branch for its elapsed-time reading minus the FIRST poll's guard reading, and returns true exactly when that branch is not the final one |
| `Traces.ThirdBallOnlyIntake` | Autonomous/Odometry/NearBlueSideAuto.java:133-143 | however BringThirdBall is polled, it addresses only the intake; the shooter velocities and servo positions keep their values |
| `Traces.ThirdBallDirectionWithoutEject` | Autonomous/Odometry/NearBlueSideAuto.java:133-143 | if no poll lands in (200,350) ms, the final intake direction is FORWARD when some poll landed in (100,200) ms, and otherwise the direction the intake had before |
| `Traces.ThirdBallSkippedEjectEndsForward` | Autonomous/Odometry/NearBlueSideAuto.java:135-141 | a fresh BringThirdBall polled in (100,200) ms but never in (200,350) ms leaves the intake FORWARD |
| `Traces.ThirdBallFinish` | Autonomous/Odometry/NearBlueSideAuto.java:141-143 | the last poll reports done exactly when its elapsed-time reading is at least 350 ms after the first poll's guard reading, and then the intake power is 0 |
| `FeedActions.Feed.constructor` | Autonomous/Odometry/NearBlueSideAuto.java:159-162 | binds the controller to the robot's devices |
| `FeedActions.Feed.BringUp` | Autonomous/Odometry/NearBlueSideAuto.java:183-185 | the factory returns a new BringUp, not initialized, start time 0 |
| `FeedActions.Feed.BringDown` | Autonomous/Odometry/NearBlueSideAuto.java:206-208 | the factory returns a new BringDown, not initialized, start time 0 |
| `FeedActions.BringUp.constructor` | Autonomous/Odometry/NearBlueSideAuto.java:165-166 | a new instance is not initialized and has start time 0 |
| `FeedActions.BringUp.Run` | Autonomous/Odometry/NearBlueSideAuto.java:169-180 | given the guard's clock reading and the elapsed-time reading, fields, commands, telemetry and result are those of `FeedPoll(Raise, …)`; on the first poll only, the left servo goes to 0.95 and the right to 0.04, and nothing else changes |
| `FeedActions.BringDown.constructor` | Autonomous/Odometry/NearBlueSideAuto.java:188-189 | a new instance is not initialized and has start time 0 |
| `FeedActions.BringDown.Run` | Autonomous/Odometry/NearBlueSideAuto.java:192-203 | given the guard's clock reading and the elapsed-time reading, fields, commands, telemetry and result are those of `FeedPoll(Lower, …)`; on the first poll only, both servos go to 0.5, and nothing else changes |
| `Machines.FeedSetsOnlyServos` | Autonomous/Odometry/NearBlueSideAuto.java:170-197 | BringUp sets left/right servo positions 0.95/0.04 and BringDown sets 0.5/0.5; no other output changes |
| `Machines.FeedPoll` | Autonomous/Odometry/NearBlueSideAuto.java:169-203 | a feed poll writes the servos only when not yet initialized; it puts the elapsed milliseconds under "Feed Up Time" or "Feed Down Time" on every poll; it returns `elapsed < 500`, elapsed being measured from the start time the first poll's guard read; a first poll returns true unless 500 ms pass between its two clock readings |
| `Traces.FeedStartsAtFirstPoll` | Autonomous/Odometry/NearBlueSideAuto.java:170-175 | after any polls of a fresh BringUp or BringDown, its start time is the reading of its first poll's guard |
| `Traces.FeedPolled` | Autonomous/Odometry/NearBlueSideAuto.java:169-203 | over any sequence of polls, the servos are written only by the first poll, never again. Every poll, the final one included, puts its elapsed-time reading minus the first poll's guard reading. The last poll returns `elapsed < 500` |
| `Traces.FeedPolledOutputs` | Autonomous/Odometry/NearBlueSideAuto.java:170-197 | a fresh feed action polled one or more times leaves the servos at its two positions, with nothing else touched |
| `Telemetry.Packet.Put` | Autonomous/Odometry/NearBlueSideAuto.java:146 | a put appends one key/value pair to the packet |
| `Scenarios.ThirdBallSkipsEject` | Autonomous/Odometry/NearBlueSideAuto.java:133-143 | test client: after intake setup (REVERSE), polls at 0, 150 and 360 ms end with the intake stopped and FORWARD, and the last poll returns false |
| `Scenarios.ThirdBallFirstPollTick` | Autonomous/Odometry/NearBlueSideAuto.java:126-134 | test client: a first poll whose clock ticks one millisecond between the guard's reading and the elapsed-time reading stops the intake (power 0, direction still REVERSE), puts 0.001 s and returns true |
| `Scenarios.ShooterOnThenRaise` | Autonomous/Odometry/NearBlueSideAuto.java:169-180 | test client: after TurnShooterOn and BringUp, the shooters run at 1650/1675 and the servos sit at 0.95/0.04. BringUp continues at 499 ms and is done at 500 ms. A poll after it is done changes no output |

## Left out

- `SequentialAction`, `SleepAction` and `Actions.runBlocking` (lines 12-13, 16, 254-310) are library classes whose code is not part of this model. `Traces.Run` polls ONE action at given readings, and the clients in `scenarios.dfy` poll instances by hand; neither models how the library sequences or sleeps.
- The trajectories built with `drive.actionBuilder` and their waypoints (lines 213-248) belong to the external path planner and use floating-point geometry.
- The OpMode lifecycle (`waitForStart`, `isStopRequested`, `runOpMode`, lines 211-252) is platform control flow.
- `ShootActions.Shoot.constructor`: records only the binding to the devices. The shooters' direction, run mode and zero-power behaviour (lines 33-38) only configure the devices and are not modelled.
- `FeedActions.Feed.constructor`: the two `hardwareMap` lookups are represented by the shared `Devices` object.
- `HardwareMap` lookups in general are left out. All controllers share one `Devices` object standing for the robot's outputs.
- The real-time clock is the pair of arguments `guardNow` and `now`. No lemma assumes that readings increase, or that a first poll's two readings are equal or ordered: every property holds for any sequence of readings.
- Java's `Action` interface is not modelled as a type. Each action class has its own `Run`. The fire-and-forget actions' `Run` takes no clock reading, as their source never reads the clock.
- Telemetry values are exact reals. `BringThirdBall` puts elapsed seconds as the real `ms / 1000`, where Java puts the nearest double. The feed actions put the millisecond difference, which a double holds exactly.
- `startTime` is a Java `double`. It holds the millisecond count exactly for counts below 2^53, which the model assumes by using unbounded integers. `long` overflow of the clock is not modelled.
- The motors and servos are open loop. Nothing models whether they reach the commanded velocity or position.
