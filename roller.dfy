/** A roller: a thin pass-through from the subsystem to its motor. */
module Roller {
  import opened Wrappers
  import opened Motors

  class Roller {
    const motor: TestMotor

    constructor (motor: TestMotor)
      ensures this.motor == motor
    {
      this.motor := motor;
    }

    method SetSpeedDutyCycle(speed: real)
      modifies motor
      ensures motor.duty == speed
      ensures motor.velocity == old(motor.velocity) && motor.position == old(motor.position)
      ensures motor.lastFeedforward == old(motor.lastFeedforward)
    {
      motor.SetDutyCycle(speed);
    }

    method SetSpeedVelocity(speed: real)
      modifies motor
      ensures motor.velocity == speed
      ensures motor.duty == old(motor.duty) && motor.position == old(motor.position)
      ensures motor.lastFeedforward == old(motor.lastFeedforward)
    {
      motor.SetVelocity(speed);
    }

    /** A position command always carries a zero feedforward. */
    method SetPosition(position: real)
      modifies motor
      ensures motor.position == position && motor.lastFeedforward == Some(0.0)
      ensures motor.duty == old(motor.duty) && motor.velocity == old(motor.velocity)
    {
      motor.SetPositionWithFeedforward(position, 0.0);
    }

    function GetPosition(): real reads motor { motor.GetPosition() }
    function GetVelocity(): real reads motor { motor.GetVelocity() }
    function GetCurrent(): real reads motor { motor.GetCurrent() }
    function GetForwardLimitSwitch(): bool reads motor { motor.GetForwardLimitSwitch() }
    function GetReverseLimitSwitch(): bool reads motor { motor.GetReverseLimitSwitch() }
  }
}
