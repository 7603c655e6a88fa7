/** The earlier version of the rover (Rover/Rover/MainPage.xaml.cs): the page
    writes the four motor lines itself, times the ultrasonic echo with a
    stopwatch, treats a distance under 30 cm as an obstacle, and on an
    obstacle turns right and stops, again and again, until the way is clear.
    The echo line and the stopwatch are oracles (see `Echo`). */
module LegacyRover {
  import opened Gpio
  import opened Motors
  import opened SeqUtil

  // The pins the page opens.
  const IN1 := 27
  const IN2 := 22
  const IN3 := 5
  const IN4 := 6
  const TrigPin := 23
  const EchoPin := 24

  /** A distance (cm) under this is an obstacle. */
  const ObstacleCm: real := 30.0
  /** How long (ms) the page waits for the echo to start. */
  const EchoTimeoutMs: nat := 1000

  predicate IsObstacle(cm: real)
  {
    cm < ObstacleCm
  }

  // ---------------------------------------------------------------------------
  // One distance reading

  /** One pass of the wait-for-echo loop: the level the echo line was read at
      and, for when it was low, the stopwatch's whole milliseconds. */
  datatype Sample = Sample(echo: PinValue, elapsedMs: nat)

  /** How the wait for the echo ends: the echo rose, the wait gave up after
      more than `EchoTimeoutMs`, or the samples ran out first. */
  datatype WaitEnd = EchoRose | TimedOut(elapsedMs: nat) | Unfinished

  function EndOfWait(ws: seq<Sample>): WaitEnd
  {
    if ws == [] then Unfinished
    else if ws[0].echo == High then EchoRose
    else if ws[0].elapsedMs > EchoTimeoutMs then TimedOut(ws[0].elapsedMs)
    else EndOfWait(ws[1..])
  }

  /** What the hardware does during one reading: the samples of the wait for
      the echo, then the time (ms) the stopwatch runs on from the end of that
      wait until it is stopped when the echo is low again. */
  datatype Echo = Echo(wait: seq<Sample>, afterMs: real)

  /** The reading ends: its wait ends within the samples, and time does not
      run backwards. */
  predicate Completes(e: Echo)
  {
    EndOfWait(e.wait) != Unfinished && e.afterMs >= 0.0
  }

  /** The stopwatch reading at the end: restarted from zero when the echo
      rose, still running from the trigger when the wait gave up. */
  function EchoMs(e: Echo): real
    requires Completes(e)
  {
    (match EndOfWait(e.wait)
     case TimedOut(t) => t as real
     case _ => 0.0) + e.afterMs
  }

  /** The distance the page computes: 34.3 cm per millisecond, halved for the
      round trip. */
  function Distance(e: Echo): real
    requires Completes(e)
  {
    EchoMs(e) * 34.3 / 2.0
  }

  /** The distances the page computes for the readings `es`, in order. */
  function Distances(es: seq<Echo>): (ds: seq<real>)
    requires forall k :: 0 <= k < |es| ==> Completes(es[k])
    ensures |ds| == |es|
  {
    if es == [] then [] else Distances(Front(es)) + [Distance(Last(es))]
  }

  lemma {:induction false} DistancesAt(es: seq<Echo>, k: nat)
    requires forall j :: 0 <= j < |es| ==> Completes(es[j])
    requires k < |es|
    ensures Distances(es)[k] == Distance(es[k])
    decreases |es|
  {
    if k < |es| - 1 {
      DistancesAt(Front(es), k);
    }
  }

  /** The wait gives up only once more than 1000 ms have passed. */
  lemma {:induction false} TimedOutLate(ws: seq<Sample>)
    requires EndOfWait(ws).TimedOut?
    ensures EndOfWait(ws).elapsedMs > EchoTimeoutMs
  {
    if ws[0].echo == Low && ws[0].elapsedMs <= EchoTimeoutMs {
      TimedOutLate(ws[1..]);
    }
  }

  /** A reading whose echo never started is not reported as a failure: the
      stopwatch kept running through the whole wait, so the distance comes
      out above 17150 cm and reads as a clear path. */
  lemma EchoFailureReadsClear(e: Echo)
    requires Completes(e) && EndOfWait(e.wait).TimedOut?
    ensures Distance(e) > 17150.0 && !IsObstacle(Distance(e))
  {
    TimedOutLate(e.wait);
  }

  /** An obstacle is reported only when the echo did start, and then exactly
      when its high time (ms) times 34.3 is under 60. */
  lemma ObstacleMeansEcho(e: Echo)
    requires Completes(e)
    ensures IsObstacle(Distance(e)) <==> EndOfWait(e.wait) == EchoRose && e.afterMs * 34.3 < 60.0
  {
    if EndOfWait(e.wait).TimedOut? {
      EchoFailureReadsClear(e);
    }
  }

  // ---------------------------------------------------------------------------
  // The drive loop's trace

  /** The levels of the four motor lines, left pair then right pair. */
  datatype Pins = Pins(left: Levels, right: Levels)

  const AllLow := Pins(Levels(Low, Low), Levels(Low, Low))
  const ForwardPins := Pins(Encode(Forward), Encode(Forward))
  const RightTurnPins := Pins(Encode(Forward), Encode(Backward))

  /** Neither motor has both of its lines high. */
  predicate Safe(p: Pins)
  {
    Decode(p.left).Some? && Decode(p.right).Some?
  }

  /** What the drive loop does, step by step. */
  datatype Action = MoveForward | Reading(cm: real) | TurnRight | FullStop

  function Effect(p: Pins, a: Action): Pins
  {
    match a
    case MoveForward => ForwardPins
    case Reading(_) => p
    case TurnRight => RightTurnPins
    case FullStop => AllLow
  }

  /** The motor lines after the actions `acts`, starting from `p`. */
  function PinsAfter(p: Pins, acts: seq<Action>): Pins
  {
    if acts == [] then p else Effect(PinsAfter(p, Front(acts)), Last(acts))
  }

  /** The reaction to a reading: a turn right then a full stop for an
      obstacle, nothing otherwise. */
  function Reaction(cm: real): seq<Action>
  {
    if IsObstacle(cm) then [TurnRight, FullStop] else []
  }

  /** What the loop does to take the last of the readings `ds`: a forward
      command first unless the reading before was an obstacle (the inner
      loop reads again without one), then the reading. */
  function Opening(ds: seq<real>): seq<Action>
    requires ds != []
  {
    var p := Front(ds);
    (if p == [] || !IsObstacle(Last(p)) then [MoveForward] else []) + [Reading(Last(ds))]
  }

  /** The actions of the drive loop while it takes the readings `ds`. */
  function Trace(ds: seq<real>): seq<Action>
  {
    if ds == [] then [] else Trace(Front(ds)) + Opening(ds) + Reaction(Last(ds))
  }

  /** The actions up to and including the last of the readings `ds`, before
      the reaction to it. */
  function Pending(ds: seq<real>): seq<Action>
    requires ds != []
  {
    Trace(Front(ds)) + Opening(ds)
  }

  /** The motor lines once the readings `ds` are handled: stopped after an
      obstacle, and still stopped after a clear reading that directly
      follows an obstacle (the forward command comes with the next outer
      pass); forward otherwise. */
  function Settled(ds: seq<real>): Pins
  {
    if ds == [] || IsObstacle(Last(ds)) then AllLow
    else if |ds| > 1 && IsObstacle(Last(Front(ds))) then AllLow
    else ForwardPins
  }

  /** The distances read among `acts`, in order. */
  function ReadingsOf(acts: seq<Action>): seq<real>
  {
    if acts == [] then []
    else ReadingsOf(Front(acts)) + (if Last(acts).Reading? then [Last(acts).cm] else [])
  }

  lemma {:induction false} PinsAfterAppend(p: Pins, a: seq<Action>, b: seq<Action>)
    ensures PinsAfter(p, a + b) == PinsAfter(PinsAfter(p, a), b)
    decreases |b|
  {
    if b == [] {
      assert a + b == a;
    } else {
      assert Front(a + b) == a + Front(b);
      PinsAfterAppend(p, a, Front(b));
    }
  }

  lemma {:induction false} ReadingsOfAppend(a: seq<Action>, b: seq<Action>)
    ensures ReadingsOf(a + b) == ReadingsOf(a) + ReadingsOf(b)
    decreases |b|
  {
    if b == [] {
      assert a + b == a;
    } else {
      assert Front(a + b) == a + Front(b);
      ReadingsOfAppend(a, Front(b));
    }
  }

  /** From safe lines, every sequence of actions keeps both motors off the
      (High, High) pair. */
  lemma {:induction false} AlwaysSafe(p: Pins, acts: seq<Action>)
    requires Safe(p)
    ensures Safe(PinsAfter(p, acts))
    decreases |acts|
  {
    if acts != [] {
      AlwaysSafe(p, Front(acts));
    }
  }

  lemma {:induction false} NoReadings(acts: seq<Action>)
    requires forall k :: 0 <= k < |acts| ==> !acts[k].Reading?
    ensures ReadingsOf(acts) == []
    decreases |acts|
  {
    if acts != [] {
      NoReadings(Front(acts));
    }
  }

  /** After an obstacle the turn and the stop complete the trace. */
  lemma PendingThenReaction(ds: seq<real>)
    requires ds != [] && IsObstacle(Last(ds))
    ensures Trace(ds) == Pending(ds) + [TurnRight, FullStop]
  {
  }

  /** After an obstacle the next reading is taken without a forward
      command. */
  lemma ReadAgain(ds: seq<real>, d: real)
    requires ds != [] && IsObstacle(Last(ds))
    ensures Pending(ds + [d]) == Trace(ds) + [Reading(d)]
  {
    assert Front(ds + [d]) == ds;
  }

  /** The trace that starts the next outer pass: a clear reading, or none
      yet, is followed by a forward command and a reading. */
  lemma ForwardThenRead(ds: seq<real>, d: real)
    requires ds == [] || !IsObstacle(Last(ds))
    ensures Pending(ds + [d]) == Trace(ds) + [MoveForward, Reading(d)]
  {
    assert Front(ds + [d]) == ds;
  }

  /** Without an obstacle the trace has nothing after the reading. */
  lemma ClearEndsPending(ds: seq<real>)
    requires ds != [] && !IsObstacle(Last(ds))
    ensures Trace(ds) == Pending(ds)
  {
  }

  /** The inner loop's step: once the obstacle in the reading before `i` is
      handled by a turn and a stop, the trace is complete up to `i`, the
      lines are low, and the next reading follows at once. */
  lemma ObstacleHandled(ds: seq<real>, i: nat)
    requires 0 < i <= |ds| && IsObstacle(ds[i - 1])
    ensures Trace(ds[..i]) == Pending(ds[..i]) + [TurnRight, FullStop]
    ensures Settled(ds[..i]) == AllLow
    ensures i < |ds| ==> Pending(ds[..i + 1]) == Trace(ds[..i]) + [Reading(ds[i])]
  {
    PendingThenReaction(ds[..i]);
    if i < |ds| {
      assert ds[..i + 1] == ds[..i] + [ds[i]];
      ReadAgain(ds[..i], ds[i]);
    }
  }

  /** The inner loop's exit on a clear reading: nothing follows the reading,
      and the lines are forward only when no turn came just before it. */
  lemma ClearHandled(ds: seq<real>, i: nat, i0: nat)
    requires 0 < i0 <= i <= |ds| && !IsObstacle(ds[i - 1])
    requires i == i0 ==> i0 == 1 || !IsObstacle(ds[i0 - 2])
    requires i > i0 ==> IsObstacle(ds[i - 2])
    ensures Trace(ds[..i]) == Pending(ds[..i])
    ensures Settled(ds[..i]) == if i == i0 then ForwardPins else AllLow
  {
    ClearEndsPending(ds[..i]);
    if i > 1 {
      assert Front(ds[..i]) == ds[..i - 1];
    }
  }

  /** The trace's readings gain exactly the last reading when `ds` does. */
  lemma PendingReadings(ds: seq<real>)
    requires ds != []
    ensures ReadingsOf(Pending(ds)) == ReadingsOf(Trace(Front(ds))) + [Last(ds)]
    ensures ReadingsOf(Trace(ds)) == ReadingsOf(Pending(ds))
  {
    var q := Front(ds);
    var d := Last(ds);
    var fwd: seq<Action> := if q == [] || !IsObstacle(Last(q)) then [MoveForward] else [];
    var r := [Reading(d)];
    assert Pending(ds) == (Trace(q) + fwd) + r;
    assert Trace(ds) == Pending(ds) + Reaction(d);
    NoReadings(fwd);
    NoReadings(Reaction(d));
    assert Front(r) == [];
    assert ReadingsOf(r) == [d];
    ReadingsOfAppend(Trace(q) + fwd, r);
    ReadingsOfAppend(Trace(q), fwd);
    assert ReadingsOf(Trace(q) + fwd) == ReadingsOf(Trace(q));
    ReadingsOfAppend(Pending(ds), Reaction(d));
  }

  /** The loop takes one reading per step of `ds`, in order. */
  lemma {:induction false} TraceReadsEachReading(ds: seq<real>)
    ensures ReadingsOf(Trace(ds)) == ds
    decreases |ds|
  {
    if ds != [] {
      TraceReadsEachReading(Front(ds));
      PendingReadings(ds);
      assert ds == Front(ds) + [Last(ds)];
    }
  }

  /** Whatever the lines held before, once the readings are handled the
      motor lines are as `Settled` says. */
  lemma {:induction false} TraceSettles(p: Pins, ds: seq<real>)
    requires ds != []
    ensures PinsAfter(p, Trace(ds)) == Settled(ds)
    decreases |ds|
  {
    var q := Front(ds);
    var d := Last(ds);
    var fwd: seq<Action> := if q == [] || !IsObstacle(Last(q)) then [MoveForward] else [];
    PinsAfterAppend(p, Pending(ds), Reaction(d));
    if IsObstacle(d) {
      assert Front(Reaction(d)) == [TurnRight];
    } else {
      assert Trace(ds) == Pending(ds);
      assert Front(Pending(ds)) == Trace(q) + fwd;
      if fwd == [] {
        TraceSettles(p, q);
      }
    }
  }

  /** A reading under 30 cm is followed at once by a right turn and then a
      full stop; any other reading is followed by a forward command, or ends
      the run. */
  lemma {:induction false} ReactionFollows(ds: seq<real>, j: nat)
    requires j < |Trace(ds)| && Trace(ds)[j].Reading?
    ensures IsObstacle(Trace(ds)[j].cm) ==>
      j + 2 < |Trace(ds)| && Trace(ds)[j + 1] == TurnRight && Trace(ds)[j + 2] == FullStop
    ensures !IsObstacle(Trace(ds)[j].cm) ==> j + 1 == |Trace(ds)| || Trace(ds)[j + 1] == MoveForward
    decreases |ds|
  {
    var p := Front(ds);
    var d := Last(ds);
    var fwd: seq<Action> := if p == [] || !IsObstacle(Last(p)) then [MoveForward] else [];
    assert Trace(ds) == Trace(p) + fwd + [Reading(d)] + Reaction(d);
    if j < |Trace(p)| {
      ReactionFollows(p, j);
      if p != [] && !IsObstacle(Trace(ds)[j].cm) && j + 1 == |Trace(p)| {
        TraceReadsEachReading(p);
        LastReadingIsLast(p);
      }
    }
  }

  /** The last action before the reaction to the last reading is that
      reading, and the trace's last reading is the last of `ds`. */
  lemma {:induction false} LastReadingIsLast(ds: seq<real>)
    requires ds != []
    ensures |Pending(ds)| <= |Trace(ds)|
    ensures Trace(ds)[|Pending(ds)| - 1] == Reading(Last(ds))
    ensures !IsObstacle(Last(ds)) ==> Trace(ds) == Pending(ds)
  {
  }

  /** After each full stop all four motor lines are low, and the loop's next
      step, if any, is a new reading taken while stopped. */
  lemma {:induction false} StopThenRead(p: Pins, ds: seq<real>, j: nat)
    requires j < |Trace(ds)| && Trace(ds)[j] == FullStop
    ensures PinsAfter(p, Trace(ds)[..j + 1]) == AllLow
    ensures j + 1 == |Trace(ds)| || Trace(ds)[j + 1].Reading?
    decreases |ds|
  {
    var q := Front(ds);
    var d := Last(ds);
    var fwd: seq<Action> := if q == [] || !IsObstacle(Last(q)) then [MoveForward] else [];
    assert Trace(ds) == Trace(q) + fwd + [Reading(d)] + Reaction(d);
    assert Last(Trace(ds)[..j + 1]) == FullStop;
    if j < |Trace(q)| {
      StopThenRead(p, q, j);
      if j + 1 == |Trace(q)| {
        LastReadingIsLast(q);
      }
    }
  }

  // ---------------------------------------------------------------------------
  // Opening the pins

  /** Opens the two input lines of one motor's H-bridge channel and writes
      both low, so the motor starts stopped. */
  method OpenMotorLines(inA: int, inB: int) returns (a: GpioPin, b: GpioPin)
    ensures fresh(a) && fresh(b) && a != b
    ensures a.number == inA && b.number == inB
    ensures Levels(a.value, b.value) == Levels(Low, Low)
  {
    a := new GpioPin.Open(inA);
    b := new GpioPin.Open(inB);
    a.Write(Low);
    b.Write(Low);
  }

  // ---------------------------------------------------------------------------
  // The page

  class MainPage {
    var leftMotorA: GpioPin?
    var leftMotorB: GpioPin?
    var rightMotorA: GpioPin?
    var rightMotorB: GpioPin?
    var trig: GpioPin?
    var echo: GpioPin?

    /** Set when the wait for the echo gave up. */
    var echoFailure: bool
    /** The stopwatch reading of the last distance reading (ms). */
    var elapsedMs: real
    /** The last distance computed (cm). */
    var distanceToObstacle: real

    /** The drive loop's actions so far. */
    ghost var actions: seq<Action>

    /** All six pins are open, and the five the page writes are distinct. */
    ghost predicate Initialized()
      reads this
    {
      && leftMotorA != null && leftMotorB != null && rightMotorA != null && rightMotorB != null
      && trig != null && echo != null
      && leftMotorA != leftMotorB && leftMotorA != rightMotorA && leftMotorA != rightMotorB
      && leftMotorB != rightMotorA && leftMotorB != rightMotorB && rightMotorA != rightMotorB
      && trig != leftMotorA && trig != leftMotorB && trig != rightMotorA && trig != rightMotorB
    }

    function MotorPins(): Pins
      reads this, leftMotorA, leftMotorB, rightMotorA, rightMotorB
      requires Initialized()
    {
      Pins(Levels(leftMotorA.value, leftMotorB.value), Levels(rightMotorA.value, rightMotorB.value))
    }

    /** The page's invariant once the pins are open: no motor has both lines
        high, and no echo failure is left pending between readings. */
    ghost predicate Valid()
      reads this, leftMotorA, leftMotorB, rightMotorA, rightMotorB
    {
      Initialized() && Safe(MotorPins()) && !echoFailure
    }

    /** Opens the pins when there is a GPIO controller: the four motor lines
        and the trigger written low. Without a controller only `leftMotorA`
        is cleared, which keeps the drive loop from running. */
    method InitGPIO(hasController: bool)
      requires !echoFailure
      modifies this`leftMotorA, this`leftMotorB, this`rightMotorA, this`rightMotorB, this`trig, this`echo
      ensures !hasController ==> leftMotorA == null
      ensures !hasController ==>
                leftMotorB == old(leftMotorB) && rightMotorA == old(rightMotorA)
                && rightMotorB == old(rightMotorB) && trig == old(trig) && echo == old(echo)
      ensures hasController ==> Valid() && MotorPins() == AllLow && trig.value == Low
      ensures hasController ==>
                fresh(leftMotorA) && fresh(leftMotorB) && fresh(rightMotorA)
                && fresh(rightMotorB) && fresh(trig) && fresh(echo)
      ensures hasController ==>
                leftMotorA.number == IN1 && leftMotorB.number == IN2
                && rightMotorA.number == IN3 && rightMotorB.number == IN4
                && trig.number == TrigPin && echo.number == EchoPin
    {
      if !hasController {
        leftMotorA := null;
        return;
      }
      leftMotorA, leftMotorB := OpenMotorLines(IN1, IN2);
      rightMotorA, rightMotorB := OpenMotorLines(IN3, IN4);
      trig := new GpioPin.Open(TrigPin);
      echo := new GpioPin.Open(EchoPin);
      trig.Write(Low);
    }

    /** Both motors forward: A low, B high on each side. */
    method MoveForward()
      requires Valid()
      modifies leftMotorA, leftMotorB, rightMotorA, rightMotorB, this`actions
      ensures Valid() && MotorPins() == ForwardPins
      ensures actions == old(actions) + [Action.MoveForward]
    {
      leftMotorA.Write(Low);
      leftMotorB.Write(High);
      rightMotorA.Write(Low);
      rightMotorB.Write(High);
      actions := actions + [Action.MoveForward];
    }

    /** Turns in place to the right: left (low, high), right (high, low). */
    method TurnRight() returns (ghost rightMid: Levels)
      requires Valid()
      modifies leftMotorA, leftMotorB, rightMotorA, rightMotorB, this`actions
      ensures Valid() && MotorPins() == RightTurnPins
      ensures MotorPins() == Pins(Levels(Low, High), Levels(High, Low))
      ensures actions == old(actions) + [Action.TurnRight]
      ensures rightMid == Levels(High, old(rightMotorB.value))
    {
      leftMotorA.Write(Low);
      leftMotorB.Write(High);
      rightMotorA.Write(High);
      rightMid := Levels(rightMotorA.value, rightMotorB.value);
      rightMotorB.Write(Low);
      actions := actions + [Action.TurnRight];
    }

    /** All four motor lines low. */
    method FullStop()
      requires Valid()
      modifies leftMotorA, leftMotorB, rightMotorA, rightMotorB, this`actions
      ensures Valid() && MotorPins() == AllLow
      ensures actions == old(actions) + [Action.FullStop]
    {
      leftMotorA.Write(Low);
      leftMotorB.Write(Low);
      rightMotorA.Write(Low);
      rightMotorB.Write(Low);
      actions := actions + [Action.FullStop];
    }

    /** One pass of the inner loop's reaction: turn right, let the turn run
        for a quarter turn, then stop all four lines. */
    method TurnQuarter() returns (ghost rightMid: Levels)
      requires Valid()
      modifies leftMotorA, leftMotorB, rightMotorA, rightMotorB, this`actions
      ensures Valid() && MotorPins() == AllLow
      ensures actions == old(actions) + [Action.TurnRight, Action.FullStop]
      ensures old(MotorPins()) == ForwardPins ==> rightMid == Levels(High, High)
    {
      rightMid := TurnRight();
      // Task.Delay(250).Wait()
      FullStop();
    }

    /** One reading: trigger low, a pulse high then low, wait for the echo to
        start (giving up after 1000 ms), time the echo, convert to cm. On
        return `echoFailure` is clear again whether or not the wait gave up. */
    method DistanceReading(e: Echo)
      requires Valid() && Completes(e)
      modifies trig, this`echoFailure, this`elapsedMs, this`distanceToObstacle
      ensures Valid() && !echoFailure
      ensures trig.history == old(trig.history) + [Low, High, Low] && trig.value == Low
      ensures elapsedMs == EchoMs(e) && distanceToObstacle == Distance(e)
    {
      // sw.Reset()
      var swMs: real := 0.0;
      trig.Write(Low);
      // Task.Delay(500): the sensor settles
      trig.Write(High);
      // Task.Delay(0.01): the pulse runs
      trig.Write(Low);
      // sw.Start(); wait until the echo starts
      var i := 0;
      while e.wait[i].echo == Low
        invariant 0 <= i < |e.wait|
        invariant EndOfWait(e.wait[i..]) == EndOfWait(e.wait)
        invariant !echoFailure && swMs == 0.0
        decreases |e.wait| - i
      {
        if e.wait[i].elapsedMs > EchoTimeoutMs {
          swMs := e.wait[i].elapsedMs as real;
          echoFailure := true;
          break;
        }
        assert e.wait[i..][1..] == e.wait[i + 1..];
        i := i + 1;
      }
      if echoFailure {
        echoFailure := false;
      } else {
        // sw.Restart()
        swMs := 0.0;
      }
      // while (echo.Read() == High); sw.Stop(): the stopwatch runs on for e.afterMs
      elapsedMs := swMs + e.afterMs;
      distanceToObstacle := elapsedMs * 34.3 / 2.0;
    }

    /** Takes a reading and reports an obstacle exactly when the distance is
        strictly below 30 cm. */
    method ObstacleDetected(e: Echo) returns (obstacle: bool)
      requires Valid() && Completes(e)
      modifies trig, this`echoFailure, this`elapsedMs, this`distanceToObstacle, this`actions
      ensures Valid() && trig.value == Low
      ensures trig.history == old(trig.history) + [Low, High, Low]
      ensures distanceToObstacle == Distance(e)
      ensures obstacle <==> distanceToObstacle < 30.0
      ensures actions == old(actions) + [Reading(distanceToObstacle)]
    {
      DistanceReading(e);
      actions := actions + [Reading(distanceToObstacle)];
      obstacle := distanceToObstacle < ObstacleCm;
    }

    /** The page's constructor: open the pins, then run the drive loop. */
    constructor (hasController: bool, echoes: seq<Echo>)
      requires forall k :: 0 <= k < |echoes| ==> Completes(echoes[k])
      ensures !hasController ==> leftMotorA == null && actions == []
      ensures hasController ==> Valid() && actions == Trace(Distances(echoes))
      ensures hasController ==> MotorPins() == Settled(Distances(echoes))
    {
      leftMotorA, leftMotorB, rightMotorA, rightMotorB := null, null, null, null;
      trig, echo := null, null;
      echoFailure := false;
      actions := [];
      new;
      InitGPIO(hasController);
      Drive(echoes);
    }

    /** The constructor's outer loop: while `leftMotorA` is set, drive
        forward, take a reading and, on an obstacle, run the inner loop.
        `echoes` are the hardware's answers to the readings, in order; the
        loops run until they are used up. */
    method Drive(echoes: seq<Echo>)
      requires forall k :: 0 <= k < |echoes| ==> Completes(echoes[k])
      requires leftMotorA != null ==> Valid() && MotorPins() == AllLow
      requires actions == []
      modifies leftMotorA, leftMotorB, rightMotorA, rightMotorB, trig
      modifies this`echoFailure, this`elapsedMs, this`distanceToObstacle, this`actions
      ensures leftMotorA == null ==> actions == []
      ensures leftMotorA != null ==> Valid() && actions == Trace(Distances(echoes))
      ensures leftMotorA != null ==> MotorPins() == Settled(Distances(echoes))
    {
      ghost var ds := Distances(echoes);
      var i := 0;
      while leftMotorA != null && i < |echoes|
        invariant i <= |echoes| && actions == Trace(ds[..i])
        invariant leftMotorA == null ==> actions == []
        invariant leftMotorA != null ==> Valid() && MotorPins() == Settled(ds[..i])
        invariant 0 < i < |echoes| ==> !IsObstacle(ds[i - 1])
        decreases |echoes| - i
      {
        MoveForward();
        var obstacle := ObstacleDetected(echoes[i]);
        DistancesAt(echoes, i);
        ForwardThenRead(ds[..i], ds[i]);
        assert ds[..i + 1] == ds[..i] + [ds[i]];
        i := i + 1;
        i := TurnWhileObstacle(echoes, ds, i, obstacle);
      }
      assert leftMotorA != null ==> ds[..i] == ds;
    }

    /** The constructor's inner loop: as long as the last reading was an
        obstacle, turn right, stop, and read again. Each pass leaves all four
        motor lines low. Returns how many readings are used up. */
    method TurnWhileObstacle(echoes: seq<Echo>, ghost ds: seq<real>, i0: nat, obstacle0: bool) returns (i: nat)
      requires forall k :: 0 <= k < |echoes| ==> Completes(echoes[k])
      requires ds == Distances(echoes)
      requires 0 < i0 <= |echoes| && (i0 == 1 || !IsObstacle(ds[i0 - 2]))
      requires Valid() && MotorPins() == ForwardPins && obstacle0 == IsObstacle(ds[i0 - 1])
      requires actions == Pending(ds[..i0])
      modifies leftMotorA, leftMotorB, rightMotorA, rightMotorB, trig
      modifies this`echoFailure, this`elapsedMs, this`distanceToObstacle, this`actions
      ensures i0 <= i <= |echoes| && Valid()
      ensures actions == Trace(ds[..i]) && MotorPins() == Settled(ds[..i])
      ensures i < |echoes| ==> !IsObstacle(ds[i - 1])
    {
      i := i0;
      var obstacle := obstacle0;
      while obstacle
        invariant i0 <= i <= |echoes| && Valid()
        invariant obstacle == IsObstacle(ds[i - 1])
        invariant i > i0 ==> IsObstacle(ds[i - 2])
        invariant actions == Pending(ds[..i])
        invariant MotorPins() == if i == i0 then ForwardPins else AllLow
        decreases |echoes| - i
      {
        ghost var _ := TurnQuarter();
        ObstacleHandled(ds, i);
        if i == |echoes| {
          return;
        }
        obstacle := ObstacleDetected(echoes[i]);
        DistancesAt(echoes, i);
        i := i + 1;
      }
      ClearHandled(ds, i, i0);
    }
  }
}
