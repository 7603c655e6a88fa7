/** The rover's control loop (Rover/MainPage.xaml.cs, DoWork): drive forward,
    wait, take one distance reading, and turn right once when the reading is
    35 cm or less. The distance sensor is an oracle: the sequence of readings
    it returns, in order. */
module ControlLoop {
  import opened Motors
  import opened Drive
  import opened SeqUtil

  /** What one step of the loop asks of the drive train and the sensor. */
  datatype Call =
    | MoveForward                            // driver.MoveForward()
    | Delay(ms: nat)                         // await Task.Delay(ms)
    | GetDistance(timeoutMs: nat, cm: real)  // a reading and its answer
    | TurnRight                              // await driver.TurnRightAsync()

  /** A reading above this distance (cm) lets the rover carry on. */
  const Threshold: real := 35.0
  /** The wait between commanding forward and reading the sensor. */
  const CadenceMs: nat := 200
  /** The timeout passed to every reading. */
  const TimeoutMs: nat := 1000

  /** The calls of one iteration whose reading is `d`. */
  function Iteration(d: real): seq<Call>
  {
    [MoveForward, Delay(CadenceMs), GetDistance(TimeoutMs, d)] + (if d > Threshold then [] else [TurnRight])
  }

  /** The calls of the iterations that read `rs`, in order. */
  function Run(rs: seq<real>): seq<Call>
  {
    if rs == [] then [] else Run(Front(rs)) + Iteration(Last(rs))
  }

  /** What a call does to the drive train. */
  function Effect(s: DriveState, c: Call): DriveState
  {
    match c
    case MoveForward => DriveState(Forward, Forward)
    case TurnRight => AllStopped
    case _ => s
  }

  /** The drive state after the calls `cs`, starting from `s`. */
  function Replay(s: DriveState, cs: seq<Call>): DriveState
  {
    if cs == [] then s else Effect(Replay(s, Front(cs)), Last(cs))
  }

  /** The answers of the readings among `cs`, in order. */
  function Requested(cs: seq<Call>): seq<real>
  {
    if cs == [] then []
    else Requested(Front(cs)) + (if Last(cs).GetDistance? then [Last(cs).cm] else [])
  }

  /** The number of right turns among `cs`. */
  function Turns(cs: seq<Call>): nat
  {
    if cs == [] then 0 else Turns(Front(cs)) + (if Last(cs) == TurnRight then 1 else 0)
  }

  /** The number of readings in `rs` that are obstacles (at most `Threshold`). */
  function Obstacles(rs: seq<real>): nat
  {
    if rs == [] then 0 else Obstacles(Front(rs)) + (if Last(rs) > Threshold then 0 else 1)
  }

  /** The drive state at the end of the iterations that read `rs`. */
  function Settled(rs: seq<real>): DriveState
  {
    if rs == [] then AllStopped
    else if Last(rs) > Threshold then DriveState(Forward, Forward)
    else AllStopped
  }

  lemma {:induction false} ReplayAppend(s: DriveState, a: seq<Call>, b: seq<Call>)
    ensures Replay(s, a + b) == Replay(Replay(s, a), b)
    decreases |b|
  {
    if b == [] {
      assert a + b == a;
    } else {
      assert Front(a + b) == a + Front(b);
      ReplayAppend(s, a, Front(b));
    }
  }

  lemma {:induction false} RequestedAppend(a: seq<Call>, b: seq<Call>)
    ensures Requested(a + b) == Requested(a) + Requested(b)
    decreases |b|
  {
    if b == [] {
      assert a + b == a;
    } else {
      assert Front(a + b) == a + Front(b);
      RequestedAppend(a, Front(b));
    }
  }

  lemma {:induction false} TurnsAppend(a: seq<Call>, b: seq<Call>)
    ensures Turns(a + b) == Turns(a) + Turns(b)
    decreases |b|
  {
    if b == [] {
      assert a + b == a;
    } else {
      assert Front(a + b) == a + Front(b);
      TurnsAppend(a, Front(b));
    }
  }

  /** The first three calls of every iteration, built up call by call so
      that the definitions above unfold on them. */
  lemma ForwardWaitRead(s: DriveState, d: real)
    ensures var three := [MoveForward, Delay(CadenceMs), GetDistance(TimeoutMs, d)];
      && Turns(three) == 0
      && Requested(three) == [d]
      && Replay(s, three) == DriveState(Forward, Forward)
  {
    var one := [MoveForward];
    var two := one + [Delay(CadenceMs)];
    var three := two + [GetDistance(TimeoutMs, d)];
    assert Front(one) == [] && Front(two) == one && Front(three) == two;
    assert Turns(one) == 0 && Requested(one) == [] && Replay(s, one) == DriveState(Forward, Forward);
    assert Turns(two) == 0 && Requested(two) == [] && Replay(s, two) == DriveState(Forward, Forward);
    assert three == [MoveForward, Delay(CadenceMs), GetDistance(TimeoutMs, d)];
  }

  /** An iteration turns exactly once when its reading is an obstacle, and
      not at all otherwise. */
  lemma IterationTurns(d: real)
    ensures Turns(Iteration(d)) == if d > Threshold then 0 else 1
  {
    ForwardWaitRead(AllStopped, d);
    if d <= Threshold {
      assert Front(Iteration(d)) == [MoveForward, Delay(CadenceMs), GetDistance(TimeoutMs, d)];
    } else {
      assert Iteration(d) == [MoveForward, Delay(CadenceMs), GetDistance(TimeoutMs, d)];
    }
  }

  /** Whatever the state before, an iteration ends with both motors forward
      when its reading is clear and both stopped when it is an obstacle. */
  lemma IterationSettles(s: DriveState, d: real)
    ensures Replay(s, Iteration(d)) == Settled([d])
  {
    ForwardWaitRead(s, d);
    if d <= Threshold {
      assert Front(Iteration(d)) == [MoveForward, Delay(CadenceMs), GetDistance(TimeoutMs, d)];
    } else {
      assert Iteration(d) == [MoveForward, Delay(CadenceMs), GetDistance(TimeoutMs, d)];
    }
  }

  /** The loop takes the readings one per iteration, in order: the answers it
      acts on are exactly the oracle's. */
  lemma {:induction false} RunReadsEachReading(rs: seq<real>)
    ensures Requested(Run(rs)) == rs
    decreases |rs|
  {
    if rs != [] {
      var d := Last(rs);
      var three := [MoveForward, Delay(CadenceMs), GetDistance(TimeoutMs, d)];
      RunReadsEachReading(Front(rs));
      RequestedAppend(Run(Front(rs)), Iteration(d));
      ForwardWaitRead(AllStopped, d);
      if d <= Threshold {
        assert Front(Iteration(d)) == three;
      } else {
        assert Iteration(d) == three;
      }
      assert rs == Front(rs) + [d];
    }
  }

  /** The loop turns right exactly once per obstacle reading. */
  lemma {:induction false} RunTurnsOncePerObstacle(rs: seq<real>)
    ensures Turns(Run(rs)) == Obstacles(rs)
    decreases |rs|
  {
    if rs != [] {
      RunTurnsOncePerObstacle(Front(rs));
      TurnsAppend(Run(Front(rs)), Iteration(Last(rs)));
      IterationTurns(Last(rs));
    }
  }

  /** After the iterations that read `rs`, from any starting state, the motors
      are forward when the last reading was clear and stopped otherwise. */
  lemma {:induction false} RunSettles(s: DriveState, rs: seq<real>)
    ensures Replay(s, Run(rs)) == if rs == [] then s else Settled(rs)
    decreases |rs|
  {
    if rs != [] {
      ReplayAppend(s, Run(Front(rs)), Iteration(Last(rs)));
      IterationSettles(Replay(s, Run(Front(rs))), Last(rs));
    }
  }

  /** Every reading is taken with a timeout of 1000 ms, right after the
      motors were commanded forward and the 200 ms wait. */
  lemma {:induction false} ReadingPreceded(rs: seq<real>, j: nat)
    requires j < |Run(rs)| && Run(rs)[j].GetDistance?
    ensures 2 <= j && Run(rs)[j].timeoutMs == TimeoutMs
    ensures Run(rs)[j - 2] == MoveForward && Run(rs)[j - 1] == Delay(CadenceMs)
    decreases |rs|
  {
    var p := Run(Front(rs));
    assert Run(rs) == p + Iteration(Last(rs));
    if j < |p| {
      ReadingPreceded(Front(rs), j);
    }
  }

  /** A reading above 35 cm is followed by the next iteration's forward
      command (or ends the run) and never by a turn; a reading of 35 cm or
      less is followed at once by a right turn. */
  lemma {:induction false} ReactionFollows(rs: seq<real>, j: nat)
    requires j < |Run(rs)| && Run(rs)[j].GetDistance?
    ensures Run(rs)[j].cm > Threshold ==> j + 1 == |Run(rs)| || Run(rs)[j + 1] == MoveForward
    ensures Run(rs)[j].cm <= Threshold ==> j + 1 < |Run(rs)| && Run(rs)[j + 1] == TurnRight
    decreases |rs|
  {
    var p := Run(Front(rs));
    assert Run(rs) == p + Iteration(Last(rs));
    if j < |p| {
      ReactionFollows(Front(rs), j);
    }
  }

  /** After a right turn the motors are stopped, and they stay stopped until
      the next iteration commands them forward: the next call, if any, is
      that forward command. */
  lemma {:induction false} TurnThenForward(s: DriveState, rs: seq<real>, j: nat)
    requires j < |Run(rs)| && Run(rs)[j] == TurnRight
    ensures Replay(s, Run(rs)[..j + 1]) == AllStopped
    ensures j + 1 == |Run(rs)| || Run(rs)[j + 1] == MoveForward
    decreases |rs|
  {
    var p := Run(Front(rs));
    assert Run(rs) == p + Iteration(Last(rs));
    assert Last(Run(rs)[..j + 1]) == TurnRight;
    if j < |p| {
      TurnThenForward(s, Front(rs), j);
    }
  }

  /** One more reading adds one iteration's calls, and the drive state
      settles on that reading alone. */
  lemma RunStep(rs: seq<real>, i: nat)
    requires i < |rs|
    ensures Run(rs[..i + 1]) == Run(rs[..i]) + Iteration(rs[i])
    ensures Settled(rs[..i + 1]) == if rs[i] > Threshold then DriveState(Forward, Forward) else AllStopped
  {
    assert Front(rs[..i + 1]) == rs[..i];
  }

  /** The page that hosts the loop; `finish` is set by the page's Unloaded
      handler and is the loop's guard. */
  class MainPage {
    var finish: bool
    /** The calls the page has made so far, each recorded by the step that
        makes it. */
    ghost var calls: seq<Call>

    constructor ()
      ensures !finish && calls == []
    {
      finish := false;
      calls := [];
    }

    /** The Unloaded handler. */
    method Unloaded()
      modifies this`finish
      ensures finish
    {
      finish := true;
    }

    /** `driver.MoveForward()`: both motors forward. */
    method StepForward(driver: TwoMotorsDriver)
      requires driver.Valid()
      modifies driver.Pins(), this`calls
      ensures driver.Valid() && driver.State() == DriveState(Forward, Forward)
      ensures calls == old(calls) + [MoveForward]
    {
      driver.MoveForward();
      calls := calls + [MoveForward];
    }

    /** `await Task.Delay(ms)`: time passes, no line changes. */
    method Pause(ms: nat)
      modifies this`calls
      ensures calls == old(calls) + [Delay(ms)]
    {
      calls := calls + [Delay(ms)];
    }

    /** `GetDistanceInCmAsync(timeoutMs)`: the sensor is an oracle, and
        `answer` is what it returns to this request. */
    method ReadDistance(timeoutMs: nat, answer: real) returns (cm: real)
      modifies this`calls
      ensures cm == answer
      ensures calls == old(calls) + [GetDistance(timeoutMs, answer)]
    {
      cm := answer;
      calls := calls + [GetDistance(timeoutMs, cm)];
    }

    /** `await driver.TurnRightAsync()`: left forward and right backward for
        the turn (`during`), then both stopped. */
    method StepTurnRight(driver: TwoMotorsDriver) returns (ghost during: DriveState)
      requires driver.Valid()
      modifies driver.Pins(), this`calls
      ensures during == DriveState(Forward, Backward)
      ensures driver.Valid() && driver.State() == AllStopped
      ensures calls == old(calls) + [TurnRight]
    {
      during := driver.TurnRightAsync();
      calls := calls + [TurnRight];
    }

    /** One pass of the worker's loop: forward, the wait, one reading whose
        answer is `answer`, and a right turn unless the reading is above the
        threshold. */
    method DoIteration(driver: TwoMotorsDriver, answer: real)
      requires driver.Valid()
      modifies driver.Pins(), this`calls
      ensures driver.Valid()
      ensures driver.State() == if answer > Threshold then DriveState(Forward, Forward) else AllStopped
      ensures calls == old(calls) + Iteration(answer)
    {
      StepForward(driver);
      Pause(CadenceMs);
      var distance := ReadDistance(TimeoutMs, answer);
      if distance > Threshold {
        return;
      }
      ghost var during := StepTurnRight(driver);
    }

    /** The worker's loop. `readings` are the sensor's answers, in order; the
        page is unloaded while the last of them is taken, so the loop runs
        one iteration per reading and then sees `finish`. The calls it makes
        are added to `calls`; `driver` is the drive train it built. */
    method DoWork(readings: seq<real>) returns (driver: TwoMotorsDriver)
      requires !finish
      modifies this`finish, this`calls
      ensures finish
      ensures calls == old(calls) + Run(readings)
      ensures fresh(driver.Pins()) && driver.Valid()
      ensures driver.leftMotor.pinA.number == 27 && driver.leftMotor.pinB.number == 22
      ensures driver.rightMotor.pinA.number == 5 && driver.rightMotor.pinB.number == 6
      ensures driver.State() == Replay(AllStopped, Run(readings)) == Settled(readings)
    {
      var left := new Motor(27, 22);
      var right := new Motor(5, 6);
      driver := new TwoMotorsDriver(left, right);
      ghost var start := calls;
      var i := 0;
      if readings == [] {
        Unloaded();
      }
      while !finish
        invariant i <= |readings| && (finish <==> i == |readings|)
        invariant calls == start + Run(readings[..i])
        invariant fresh(driver.Pins()) && driver.Valid()
        invariant driver.State() == Settled(readings[..i])
        decreases |readings| - i
      {
        DoIteration(driver, readings[i]);
        RunStep(readings, i);
        i := i + 1;
        if i == |readings| {
          Unloaded();
        }
      }
      assert readings[..i] == readings;
      RunSettles(AllStopped, readings);
    }
  }
}
