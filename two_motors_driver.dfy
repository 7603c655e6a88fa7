/** A left/right motor pair driven as one drive train (Rover/TwoMotorsDriver.cs).
    The 250 ms wait inside a turn is a step between two state updates. */
module Drive {
  import opened Gpio
  import opened Motors

  /** The commands the two motors currently encode. */
  datatype DriveState = DriveState(left: MotorState, right: MotorState)

  const AllStopped := DriveState(Stopped, Stopped)

  class TwoMotorsDriver {
    const leftMotor: Motor
    const rightMotor: Motor

    /** The four lines the driver may write. */
    ghost function Pins(): set<GpioPin>
    {
      {leftMotor.pinA, leftMotor.pinB, rightMotor.pinA, rightMotor.pinB}
    }

    /** Both motors are valid and the two motors share no line. */
    ghost predicate Valid()
      reads Pins()
    {
      && leftMotor.Valid()
      && rightMotor.Valid()
      && {leftMotor.pinA, leftMotor.pinB} !! {rightMotor.pinA, rightMotor.pinB}
    }

    function State(): DriveState
      reads Pins()
      requires Valid()
    {
      DriveState(leftMotor.State(), rightMotor.State())
    }

    /** Takes the two motors. The source does not check that they are
        different motors on different lines; writing through one motor would
        otherwise overwrite the other, so that is required here. */
    constructor (leftMotor: Motor, rightMotor: Motor)
      requires leftMotor.Valid() && rightMotor.Valid()
      requires {leftMotor.pinA, leftMotor.pinB} !! {rightMotor.pinA, rightMotor.pinB}
      ensures this.leftMotor == leftMotor && this.rightMotor == rightMotor
      ensures Valid()
    {
      this.leftMotor := leftMotor;
      this.rightMotor := rightMotor;
    }

    /** Both motors stopped. */
    method Stop()
      requires Valid()
      modifies Pins()
      ensures Valid() && State() == AllStopped
    {
      leftMotor.Stop();
      rightMotor.Stop();
    }

    /** Both motors forward. */
    method MoveForward()
      requires Valid()
      modifies Pins()
      ensures Valid() && State() == DriveState(Forward, Forward)
    {
      leftMotor.MoveForward();
      rightMotor.MoveForward();
    }

    /** Both motors backward. */
    method MoveBackward()
      requires Valid()
      modifies Pins()
      ensures Valid() && State() == DriveState(Backward, Backward)
    {
      ghost var _ := leftMotor.MoveBackward();
      ghost var _ := rightMotor.MoveBackward();
    }

    /** Turns in place to the right: left forward and right backward for the
        length of the turn (`during` is the state held while waiting), then
        both stopped, whatever the state before. */
    method TurnRightAsync() returns (ghost during: DriveState)
      requires Valid()
      modifies Pins()
      ensures during == DriveState(Forward, Backward)
      ensures Valid() && State() == AllStopped
    {
      leftMotor.MoveForward();
      ghost var _ := rightMotor.MoveBackward();
      during := State();
      // await Task.Delay(250 ms): time passes, no line changes
      leftMotor.Stop();
      rightMotor.Stop();
    }

    /** Turns in place to the left: left backward and right forward for the
        length of the turn, then both stopped, whatever the state before. */
    method TurnLeftAsync() returns (ghost during: DriveState)
      requires Valid()
      modifies Pins()
      ensures during == DriveState(Backward, Forward)
      ensures Valid() && State() == AllStopped
    {
      ghost var _ := leftMotor.MoveBackward();
      rightMotor.MoveForward();
      during := State();
      // await Task.Delay(250 ms): time passes, no line changes
      leftMotor.Stop();
      rightMotor.Stop();
    }
  }
}
