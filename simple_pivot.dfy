/**
 * A pivot without a motion profile: each tick commands the motor straight to
 * the target angle (degrees), with a gravity-holding feedforward.
 */
module SimplePivot {
  import opened Wrappers
  import opened Motors
  import opened Mechanisms
  import opened Units

  /** The "at setpoint" test: target against motor angle, inclusive. */
  predicate AtTarget(targetDegrees: real, motorRotations: real, allowedError: real) {
    WithinInclusive(targetDegrees - motorRotations * 360.0, allowedError)
  }

  /** A motor commanded to `target / 360` rotations is at the target, for any non-negative tolerance. */
  lemma CommandedIsAtTarget(targetDegrees: real, allowedError: real)
    requires allowedError >= 0.0
    ensures AtTarget(targetDegrees, targetDegrees / 360.0, allowedError)
  {
  }

  class SimplePivot {
    const motor: TestMotor
    const gains: FeedforwardGains
    const zeroedAngleFromHorizontal: real
    const allowedError: real
    const armHold: ArmHoldFn
    var targetPosition: real

    constructor (motor: TestMotor, zeroedAngleFromHorizontal: real, allowedError: real,
                 ks: real, kg: real, kv: real, ka: real, armHold: ArmHoldFn)
      ensures this.motor == motor && this.allowedError == allowedError
      ensures this.zeroedAngleFromHorizontal == zeroedAngleFromHorizontal
      ensures gains == FeedforwardGains(ks, kg, kv, ka) && this.armHold == armHold
      ensures targetPosition == 0.0
    {
      this.motor := motor;
      this.gains := FeedforwardGains(ks, kg, kv, ka);
      this.allowedError := allowedError;
      this.zeroedAngleFromHorizontal := zeroedAngleFromHorizontal;
      this.armHold := armHold;
      targetPosition := 0.0;
    }

    /** The three-argument constructor: all feedforward gains zero. */
    constructor WithoutFeedforward(motor: TestMotor, zeroedAngleFromHorizontal: real,
                                   allowedError: real, armHold: ArmHoldFn)
      ensures this.motor == motor && this.allowedError == allowedError
      ensures this.zeroedAngleFromHorizontal == zeroedAngleFromHorizontal
      ensures gains == ZeroGains && this.armHold == armHold
      ensures targetPosition == 0.0
    {
      this.motor := motor;
      this.gains := ZeroGains;
      this.allowedError := allowedError;
      this.zeroedAngleFromHorizontal := zeroedAngleFromHorizontal;
      this.armHold := armHold;
      targetPosition := 0.0;
    }

    predicate IsAtSetpoint()
      reads this, motor
    {
      AtTarget(targetPosition, motor.GetPosition(), allowedError)
    }

    function GetPosition(): real
      reads motor
    {
      motor.GetPosition()
    }

    function GetCurrent(): real
      reads motor
    {
      motor.GetCurrent()
    }

    /** Only records the target; the motor moves on the next tick. */
    method SetPosition(angleDegrees: real)
      modifies this
      ensures targetPosition == angleDegrees
    {
      targetPosition := angleDegrees;
    }

    /** Commands the target (degrees to rotations) with a holding feedforward at zero velocity. */
    method GoToSetpoint()
      modifies motor
      ensures motor.position == targetPosition / 360.0
      ensures motor.lastFeedforward == Some(armHold(gains,
                ToRadians(zeroedAngleFromHorizontal - old(motor.position) * 360.0), 0.0))
      ensures motor.duty == old(motor.duty) && motor.velocity == old(motor.velocity)
      ensures motor.current == old(motor.current)
      ensures motor.forwardLimit == old(motor.forwardLimit) && motor.reverseLimit == old(motor.reverseLimit)
    {
      var angleRadians := ToRadians(zeroedAngleFromHorizontal - GetPosition() * 360.0);
      motor.SetPositionWithFeedforward(targetPosition / 360.0, armHold(gains, angleRadians, 0.0));
    }

    method SetDutyCycle(speed: real)
      modifies motor
      ensures motor.duty == speed
      ensures motor.position == old(motor.position) && motor.velocity == old(motor.velocity)
      ensures motor.current == old(motor.current)
      ensures motor.forwardLimit == old(motor.forwardLimit) && motor.reverseLimit == old(motor.reverseLimit)
      ensures motor.lastFeedforward == old(motor.lastFeedforward)
    {
      motor.SetDutyCycle(speed);
    }

    /** One scheduler tick; the test motor snaps to the command, so the pivot is then at its target. */
    method Periodic()
      modifies motor
      ensures motor.position == targetPosition / 360.0
      ensures motor.lastFeedforward == Some(armHold(gains,
                ToRadians(zeroedAngleFromHorizontal - old(motor.position) * 360.0), 0.0))
      ensures motor.duty == old(motor.duty) && motor.velocity == old(motor.velocity)
      ensures motor.current == old(motor.current)
      ensures motor.forwardLimit == old(motor.forwardLimit) && motor.reverseLimit == old(motor.reverseLimit)
      ensures allowedError >= 0.0 ==> IsAtSetpoint()
    {
      GoToSetpoint();
      if allowedError >= 0.0 {
        CommandedIsAtTarget(targetPosition, allowedError);
      }
    }
  }
}
