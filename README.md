# Rover: motor encoding, drive train and obstacle loops in Dafny

This project models the core of a small two-motor rover, a Raspberry Pi
program written in C#. Each motor sits behind an H-bridge and is driven by two
digital lines. A motor's command is encoded in the levels of those lines:

- forward: A low, B high;
- backward: A high, B low;
- stopped: both low.

A drive train applies the commands to a left and a right motor, and turns in
place for 250 ms. A control loop drives forward, reads an ultrasonic distance
sensor and turns right when something is near.

There are two versions of the control loop, and both are modelled:

- **The current page** (`Rover/MainPage.xaml.cs`) builds the drive train.
  Each pass of its `DoWork` loop does four things:
  - commands forward;
  - waits 200 ms;
  - reads the distance with a 1000 ms timeout;
  - turns right once if the reading is 35 cm or less.
- **The earlier page** (`Rover/Rover/MainPage.xaml.cs`) writes the four motor
  lines itself and times the echo with a stopwatch. It treats a distance
  under 30 cm as an obstacle. For as long as it sees an obstacle it turns
  right, stops and reads again.

Files, one module each:

- `gpio.dfy` (`Gpio`): a GPIO pin as an object holding its level.
- `motor.dfy` (`Motors`): `Motor`, a class over two pins. It also holds
  the level encoding of the three commands (`Encode`/`Decode`) and the
  invariant that keeps the encoding valid between commands: A and B are
  never both high once a command has returned. Within `MoveBackward` from
  forward, A is raised while B is still high, and `BackwardAfterForward`
  exhibits that moment.
- `two_motors_driver.dfy` (`Drive`): `TwoMotorsDriver`, a class over two
  motors. Its commands write only the four lines it owns. A turn holds
  the differential drive (`during`) and ends with both motors stopped.
- `control_loop.dfy` (`ControlLoop`): the current page.
  - `DoWork` is a `while (!finish)` loop.
  - Each call the loop makes (forward, the wait, the reading, the turn) is
    recorded by the page method that makes it, on the driver it drives.
    `DoWork` is proved to record exactly the call sequence `Run(readings)`
    and to leave the drive train in the state `Settled(readings)`.
  - The lemmas about `Run` state what the loop promises per reading: forward
    first, a 1000 ms timeout, one turn per reading at or under 35 cm, stopped
    after a turn until the next forward.
- `legacy_rover.dfy` (`LegacyRover`): the earlier page.
  - `InitGPIO`, `MoveForward`, `TurnRight`, `FullStop`, `DistanceReading`
    and `ObstacleDetected` are methods on the page's pin fields.
  - The constructor's nested loops are proved to produce the action trace
    `Trace(Distances(echoes))` and to leave the lines at `Settled(...)`.
  - The lemmas about `Trace` state that no motor has both lines high between
    commands,
    that every reading is taken in order, that each obstacle is answered
    by a turn then a stop, and that all lines are low after each stop.
  - The echo timing is modelled down to its timeout. The lemmas show that a
    reading whose echo never started is not reported as a failure: the
    stopwatch keeps running, so it comes out above 17150 cm and reads as
    a clear path.
- `seq_util.dfy` (`SeqUtil`): `Front` and `Last` of a sequence. The trace
  functions are defined on the last element.

The sensor is an oracle in both versions:

- For the current page, it is the sequence of distances the sensor answers,
  in order.
- For the earlier page, it is an `Echo` per reading. An `Echo` holds the
  samples the wait-for-echo loop sees (the echo level, and the stopwatch's
  whole milliseconds), then the time the stopwatch runs on until it is
  stopped.

Thresholds are compared exactly over `real`.

What the code does about failed readings and thresholds:

- Neither loop treats a failed reading as an error, and neither stops the
  drive train on one.
- The current page turns at 35 cm or less.
- The earlier page turns below 30 cm, and it reads a failed echo as a
  distance above 17150 cm.

## Model

| member | source | states |
|---|---|---|
| Motors.Encode | Rover/Motor.cs:22-38 | the levels each command writes are never both high, and they decode back to that command |
| Motors.Decode | Rover/Motor.cs:22-38 | a pair of levels encodes no command exactly when both lines are high |
| Motors.DecodeEncode | Rover/Motor.cs:22-38 | every pair other than (high, high) is the encoding of the command it decodes to |
| Motors.Motor.State | Rover/Motor.cs:7-8 | the command a valid motor is in is the one its two lines encode |
| Motors.Motor.constructor | Rover/Motor.cs:10-20 | a new motor holds two fresh pins with the given numbers, both written low, so it is stopped |
| Motors.Motor.MoveForward | Rover/Motor.cs:22-26 | from any valid state, A is low and B high afterwards; the motor is forward and still valid |
| Motors.Motor.MoveBackward | Rover/Motor.cs:28-32 | from any valid state, A is high and B low afterwards; the motor is backward and still valid; between the two writes the lines are A high and B as it was |
| Motors.Motor.Stop | Rover/Motor.cs:34-38 | from any valid state, both lines are low afterwards; the motor is stopped and still valid |
| Motors.Issue | Rover/Motor.cs:22-38 | issuing a command's method leaves the motor valid and in that command's state |
| Motors.IssueTwice | Rover/Motor.cs:22-38 | issuing a command twice leaves the same levels as issuing it once, namely its encoding |
| Motors.BackwardAfterForward | Rover/Motor.cs:22-32 | backward straight after forward passes through both lines high between `MoveBackward`'s two writes, and ends valid and backward |
| Motors.StopForwardStop | Rover/Motor.cs:24-25 | stop, then forward, then stop leaves both lines low |
| Drive.TwoMotorsDriver.constructor | Rover/TwoMotorsDriver.cs:14-18 | the driver keeps the two motors it is given; with two valid motors on four distinct lines it is valid |
| Drive.TwoMotorsDriver.Stop | Rover/TwoMotorsDriver.cs:20-24 | writes only the four owned lines and leaves both motors stopped |
| Drive.TwoMotorsDriver.MoveForward | Rover/TwoMotorsDriver.cs:26-30 | writes only the four owned lines and leaves both motors forward |
| Drive.TwoMotorsDriver.MoveBackward | Rover/TwoMotorsDriver.cs:32-36 | writes only the four owned lines and leaves both motors backward |
| Drive.TwoMotorsDriver.TurnRightAsync | Rover/TwoMotorsDriver.cs:38-47 | during the wait the left motor is forward and the right backward; from any state, it ends with both motors stopped |
| Drive.TwoMotorsDriver.TurnLeftAsync | Rover/TwoMotorsDriver.cs:49-58 | during the wait the left motor is backward and the right forward; from any state, it ends with both motors stopped |
| ControlLoop.MainPage.constructor | Rover/MainPage.xaml.cs:21-30 | a new page has not been asked to finish and has made no calls |
| ControlLoop.MainPage.Unloaded | Rover/MainPage.xaml.cs:40-43 | unloading the page sets the finish flag |
| ControlLoop.MainPage.StepForward | Rover/MainPage.xaml.cs:55 | commands the driver forward, leaving both motors forward, and records the forward call |
| ControlLoop.MainPage.Pause | Rover/MainPage.xaml.cs:57 | records the wait with its length and changes no line |
| ControlLoop.MainPage.ReadDistance | Rover/MainPage.xaml.cs:59 | returns the sensor's answer and records the reading with its timeout and that answer |
| ControlLoop.MainPage.StepTurnRight | Rover/MainPage.xaml.cs:65 | turns the driver right (left forward, right backward during the wait), leaves both motors stopped, and records the turn |
| ControlLoop.MainPage.DoIteration | Rover/MainPage.xaml.cs:55-65 | one pass records exactly `Iteration(answer)` and leaves the motors forward after an answer above 35 cm and stopped otherwise |
| ControlLoop.MainPage.DoWork | Rover/MainPage.xaml.cs:46-68 | the loop runs while the flag is clear; the calls its steps record are exactly `Run(readings)`; the driver is built on pins 27/22 and 5/6 and ends in the state that replaying the calls gives, which is `Settled(readings)` |
| ControlLoop.RunStep | Rover/MainPage.xaml.cs:53-68 | helper for the loop invariant of `DoWork`: `Run` and `Settled` unfolded at one more reading |
| ControlLoop.ForwardWaitRead | Rover/MainPage.xaml.cs:55-59 | forward, wait, read: no turn, exactly the one reading, and both motors forward from any prior state |
| ControlLoop.IterationTurns | Rover/MainPage.xaml.cs:60-65 | an iteration turns once when its reading is at most 35 cm and not at all when it is above |
| ControlLoop.IterationSettles | Rover/MainPage.xaml.cs:55-65 | from any state, an iteration ends forward after a reading above 35 cm and stopped otherwise |
| ControlLoop.RunReadsEachReading | Rover/MainPage.xaml.cs:53-59 | the readings the loop acts on are exactly the sensor's answers, one per iteration, in order |
| ControlLoop.RunTurnsOncePerObstacle | Rover/MainPage.xaml.cs:60-65 | the number of right turns equals the number of readings at most 35 cm |
| ControlLoop.RunSettles | Rover/MainPage.xaml.cs:53-65 | from any state, the loop leaves the motors forward if the last reading was above 35 cm and stopped otherwise |
| ControlLoop.ReadingPreceded | Rover/MainPage.xaml.cs:55-59 | every reading is requested with a 1000 ms timeout, directly after the forward command and the 200 ms wait |
| ControlLoop.ReactionFollows | Rover/MainPage.xaml.cs:59-65 | a reading above 35 cm is never followed by a turn, only by the next forward or the end; a reading at most 35 cm is followed at once by a right turn |
| ControlLoop.TurnThenForward | Rover/MainPage.xaml.cs:53-65 | after a right turn both motors are stopped, and the next call, if any, is the next iteration's forward |
| LegacyRover.TimedOutLate | Rover/Rover/MainPage.xaml.cs:217-225 | the wait for the echo gives up only once the stopwatch shows more than 1000 ms |
| LegacyRover.EchoFailureReadsClear | Rover/Rover/MainPage.xaml.cs:217-249 | when the echo never starts, the computed distance is above 17150 cm and is not an obstacle |
| LegacyRover.ObstacleMeansEcho | Rover/Rover/MainPage.xaml.cs:175-249 | a reading is an obstacle exactly when the echo started and its high time (ms) times 34.3, halved, is under 30 |
| LegacyRover.AlwaysSafe | Rover/Rover/MainPage.xaml.cs:106-173 | from safe lines, after each of any sequence of forward, turn, stop and reading actions no motor is at (high, high); within one action, see the Left out entry |
| LegacyRover.PendingThenReaction | Rover/Rover/MainPage.xaml.cs:54-64 | helper for the loop invariants of `TurnWhileObstacle` and `Drive`: `Pending` unfolded once; after an obstacle reading, the trace continues with exactly a right turn and a full stop |
| LegacyRover.ReadAgain | Rover/Rover/MainPage.xaml.cs:54-64 | helper for the loop invariants of `TurnWhileObstacle` and `Drive`: `Pending` unfolded once; after an obstacle is handled, the next reading is taken with no forward command before it |
| LegacyRover.ForwardThenRead | Rover/Rover/MainPage.xaml.cs:48-54 | helper for the loop invariants of `TurnWhileObstacle` and `Drive`: `Pending` unfolded once; at the start of the run or after a clear reading, the next reading is preceded by exactly one forward command |
| LegacyRover.ClearEndsPending | Rover/Rover/MainPage.xaml.cs:54 | helper for the loop invariants of `TurnWhileObstacle` and `Drive`: `Pending` unfolded once; nothing follows a clear reading within its own pass |
| LegacyRover.ObstacleHandled | Rover/Rover/MainPage.xaml.cs:54-64 | one pass of the inner loop completes the trace up to the obstacle reading, leaves all lines low, and the next reading follows at once |
| LegacyRover.ClearHandled | Rover/Rover/MainPage.xaml.cs:48-65 | the inner loop ends on a clear reading; the lines are forward if no turn came just before it and low otherwise |
| LegacyRover.PendingReadings | Rover/Rover/MainPage.xaml.cs:48-65 | one pass adds exactly its own reading to the trace's readings |
| LegacyRover.TraceReadsEachReading | Rover/Rover/MainPage.xaml.cs:48-65 | the readings in the trace are the computed distances, one each, in order |
| LegacyRover.TraceSettles | Rover/Rover/MainPage.xaml.cs:48-65 | from any lines, the trace ends with all lines low after an obstacle or just after a turn, and forward otherwise |
| LegacyRover.ReactionFollows | Rover/Rover/MainPage.xaml.cs:51-64 | a reading under 30 cm is followed at once by a right turn then a full stop; any other reading is followed by a forward command or ends the run |
| LegacyRover.LastReadingIsLast | Rover/Rover/MainPage.xaml.cs:48-65 | the last reading of the trace is the last distance, and nothing follows a clear one |
| LegacyRover.StopThenRead | Rover/Rover/MainPage.xaml.cs:54-64 | after every full stop all four motor lines are low, and the next action, if any, is a new reading taken while stopped |
| LegacyRover.OpenMotorLines | Rover/Rover/MainPage.xaml.cs:80-94 | a motor's two lines are opened as fresh, distinct pins with the given numbers and written low |
| LegacyRover.MainPage.InitGPIO | Rover/Rover/MainPage.xaml.cs:68-104 | with a controller, six fresh pins are numbered 27, 22, 5, 6, 23, 24, the four motor lines and the trigger are low, and the page is valid; without one, `leftMotorA` is null and nothing else changes |
| LegacyRover.MainPage.MoveForward | Rover/Rover/MainPage.xaml.cs:106-117 | both motors at (low, high), still valid, and the forward command is recorded in the ghost action trace |
| LegacyRover.MainPage.TurnRight | Rover/Rover/MainPage.xaml.cs:149-160 | left at (low, high), right at (high, low), still valid, and the turn is recorded in the ghost action trace; between the right motor's two writes its lines are A high and B as it was |
| LegacyRover.MainPage.FullStop | Rover/Rover/MainPage.xaml.cs:162-173 | all four motor lines low, still valid, and the stop is recorded in the ghost action trace |
| LegacyRover.MainPage.TurnQuarter | Rover/Rover/MainPage.xaml.cs:56-63 | a right turn then a full stop leaves all four motor lines low; from forward, the right motor passes through (high, high) inside the turn |
| LegacyRover.MainPage.DistanceReading | Rover/Rover/MainPage.xaml.cs:193-250 | the trigger's write history grows by exactly low, high, low; the echo failure flag is clear on return whether or not the wait gave up; the stopwatch reading and the distance are `EchoMs` and `Distance` of the echo |
| LegacyRover.MainPage.ObstacleDetected | Rover/Rover/MainPage.xaml.cs:175-191 | reports an obstacle exactly when the distance just read is strictly below 30 cm; the trigger gets one low, high, low pulse, and the reading is recorded in the ghost action trace |
| LegacyRover.MainPage.constructor | Rover/Rover/MainPage.xaml.cs:41-66 | with a controller, the page's actions are `Trace(Distances(echoes))`, the lines end at `Settled(...)` and the page is valid; without one, no action is taken |
| LegacyRover.MainPage.Drive | Rover/Rover/MainPage.xaml.cs:47-65 | the outer loop runs only while `leftMotorA` is set, and produces the trace and final lines of the readings |
| LegacyRover.MainPage.TurnWhileObstacle | Rover/Rover/MainPage.xaml.cs:53-64 | the inner loop turns and stops while readings are obstacles, completing the trace; it returns after a clear reading or when the readings run out |

## Left out

- GPIO platform calls are not modelled: `GpioController.GetDefault`, `OpenPin`, `SetDriveMode` and `Read`. A pin is a cell holding its level, and the presence of a controller is a parameter of the earlier page.
- `Rover/UltrasonicDistanceSensor.cs` is not part of this model. Its answer comes from a callback on another thread that races with a polling loop, and it returns `double.MaxValue` as a sentinel. The current page's readings are an oracle sequence instead.
- All `Task.Delay` waits are not modelled: the 200 ms cadence, the 250 ms turn, the 500 ms settle and the 10 µs pulse. They are steps with no effect on the lines. The 200 ms wait appears as a `Delay` call in the current page's trace.
- UI text is not modelled: `Direction.Text`, `Obstacle.Text`, `GpioStatus.Text`, `WriteLog` and the dispatcher. It has no effect on the lines.
- Page lifecycle is not modelled: `Loaded`, the `BackgroundWorker` and the `async void` scheduling of `DoWork`. Each `await` is one sequential step.
- The earlier page's commented-out `MoveReverse` and `TurnLeft` are not compiled, so they are not modelled.
- ControlLoop.MainPage.DoWork: the Unloaded handler fires while the last oracle reading is taken, so the loop runs once per reading; an unload at any other moment is not modelled.
- LegacyRover.MainPage.constructor: the outer loop never ends in the source while a controller exists; the model runs it over a finite sequence of echoes and stops when they are used up.
- LegacyRover.MainPage.DistanceReading: the busy-wait for the echo to end (`while (echo.Read() == High)`) is not modelled as a loop. The time the stopwatch runs on until it is stopped is an oracle (`afterMs`), and the reading is assumed to end.
- LegacyRover.Distance: the conversion `elapsed * 34.3 / 2.0` is computed in exact reals, not in double precision.
- LegacyRover.EndOfWait: the timeout test uses the stopwatch's whole milliseconds. After a timeout, the stopwatch's exact elapsed time is taken to be that sample.
- Drive.TwoMotorsDriver.constructor: requires two valid motors on four distinct lines. The source does not check this. If two motors shared a line, one motor's writes would overwrite the other's, and the per-motor states would not hold.
- LegacyRover.AlwaysSafe: each action is treated as atomic, so the invariant holds between actions only. `TurnRight` after `MoveForward` writes the right motor's A high while its B is still high (`LegacyRover.MainPage.TurnQuarter` states this); that transient is not covered.
- Motors.Motor.MoveBackward: the two writes are not atomic. From forward the lines are briefly both high, which `Motors.BackwardAfterForward` exhibits; the invariant `Valid` is stated between commands only. The same holds for `Drive.TwoMotorsDriver.TurnRightAsync` from forward, whose right motor goes backward.
- Motors.Motor.constructor: the source opens pins through the controller; here they are fresh objects, so two motors can never share a line.
- Motors.Motor.constructor: assumes a GPIO controller exists. The source calls `GpioController.GetDefault()` without a null check, so with no controller it throws inside `DoWork`; that failure is not modelled.
