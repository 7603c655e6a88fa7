/** One DC motor behind an H-bridge, driven through two digital lines, A and B
    (Rover/Motor.cs). */
module Motors {
  import opened Gpio

  /** The three commands a motor obeys. */
  datatype MotorState = Forward | Backward | Stopped

  /** The levels of the motor's two lines: line A, then line B. */
  datatype Levels = Levels(a: PinValue, b: PinValue)

  datatype Option<T> = None | Some(value: T)

  /** The line-pair encoding of each command. It never raises both lines, and
      `Decode` reads the command back from it. */
  function Encode(s: MotorState): (l: Levels)
    ensures l != Levels(High, High)
    ensures Decode(l) == Some(s)
  {
    match s
    case Forward => Levels(Low, High)
    case Backward => Levels(High, Low)
    case Stopped => Levels(Low, Low)
  }

  /** The command a pair of line levels encodes; both lines high encodes none. */
  function Decode(l: Levels): (r: Option<MotorState>)
    ensures r == None <==> l == Levels(High, High)
  {
    match l
    case Levels(Low, Low) => Some(Stopped)
    case Levels(Low, High) => Some(Forward)
    case Levels(High, Low) => Some(Backward)
    case Levels(High, High) => None
  }

  /** Every pair of levels other than (High, High) is the encoding of the
      command it decodes to, so the encoding is a bijection onto those pairs. */
  lemma DecodeEncode(l: Levels)
    requires Decode(l).Some?
    ensures Encode(Decode(l).value) == l
  {
  }

  class Motor {
    const pinA: GpioPin
    const pinB: GpioPin

    /** The two lines are distinct pins and never both high. */
    ghost predicate Valid()
      reads pinA, pinB
    {
      pinA != pinB && Decode(Lines()).Some?
    }

    function Lines(): Levels
      reads pinA, pinB
    {
      Levels(pinA.value, pinB.value)
    }

    /** The command the two lines currently encode. */
    function State(): (s: MotorState)
      reads pinA, pinB
      requires Valid()
      ensures Encode(s) == Lines()
    {
      DecodeEncode(Lines());
      Decode(Lines()).value
    }

    /** Opens both lines and writes them low: a new motor is stopped. */
    constructor (gpioPinIn1: int, gpioPinIn2: int)
      ensures fresh(pinA) && fresh(pinB)
      ensures pinA.number == gpioPinIn1 && pinB.number == gpioPinIn2
      ensures Valid() && State() == Stopped
    {
      pinA := new GpioPin.Open(gpioPinIn1);
      pinB := new GpioPin.Open(gpioPinIn2);
      new;
      pinA.Write(Low);
      pinB.Write(Low);
    }

    /** A low, B high, whatever the lines held before. */
    method MoveForward()
      requires Valid()
      modifies pinA, pinB
      ensures Valid() && State() == Forward
      ensures Lines() == Levels(Low, High)
    {
      pinA.Write(Low);
      pinB.Write(High);
    }

    /** A high, B low, whatever the lines held before. The lines are written
        one at a time, A first: `mid` is what they hold between the two
        writes. */
    method MoveBackward() returns (ghost mid: Levels)
      requires Valid()
      modifies pinA, pinB
      ensures Valid() && State() == Backward
      ensures Lines() == Levels(High, Low)
      ensures mid == Levels(High, old(pinB.value))
    {
      pinA.Write(High);
      mid := Lines();
      pinB.Write(Low);
    }

    /** Both lines low, whatever they held before. */
    method Stop()
      requires Valid()
      modifies pinA, pinB
      ensures Valid() && State() == Stopped
      ensures Lines() == Levels(Low, Low)
    {
      pinA.Write(Low);
      pinB.Write(Low);
    }
  }

  /** Backward straight after forward: `MoveBackward` raises A while B is
      still high, so between its two writes both lines are high. The
      invariant that A and B are never both high holds between commands,
      not within one. */
  method BackwardAfterForward(m: Motor) returns (ghost mid: Levels)
    requires m.Valid()
    modifies m.pinA, m.pinB
    ensures mid == Levels(High, High)
    ensures m.Valid() && m.State() == Backward
  {
    m.MoveForward();
    mid := m.MoveBackward();
  }

  /** Issues the motor method that corresponds to `s`. */
  method Issue(m: Motor, s: MotorState)
    requires m.Valid()
    modifies m.pinA, m.pinB
    ensures m.Valid() && m.State() == s
  {
    match s
    case Forward => m.MoveForward();
    case Backward => ghost var _ := m.MoveBackward();
    case Stopped => m.Stop();
  }

  /** Every command is idempotent: issuing it a second time leaves the lines
      exactly as the first issue did. */
  method IssueTwice(m: Motor, s: MotorState) returns (once: Levels, twice: Levels)
    requires m.Valid()
    modifies m.pinA, m.pinB
    ensures m.Valid() && once == twice == Encode(s) == m.Lines()
  {
    Issue(m, s);
    once := m.Lines();
    Issue(m, s);
    twice := m.Lines();
  }

  /** Stop, forward, stop leaves both lines low. */
  method StopForwardStop(m: Motor)
    requires m.Valid()
    modifies m.pinA, m.pinB
    ensures m.Valid() && m.Lines() == Levels(Low, Low)
  {
    m.Stop();
    m.MoveForward();
    m.Stop();
  }
}
