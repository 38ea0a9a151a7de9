/**
 * A pivot driven through a trapezoid motion profile: the goal and the current
 * profiled setpoint are in degrees, the motor in rotations (one rotation is
 * 360 degrees).
 */
module Pivot {
  import opened Wrappers
  import opened Motors
  import opened Mechanisms

  /** The pivot's "at setpoint" test: setpoint against the motor angle, inclusive. */
  predicate AtSetpoint(setpointDegrees: real, motorRotations: real, allowedError: real) {
    WithinInclusive(setpointDegrees - motorRotations * 360.0, allowedError)
  }

  /**
   * A setpoint taken from the motor's own angle is always "at setpoint" when
   * the tolerance is not negative, wherever the goal is.
   */
  lemma FreshSetpointIsAtSetpoint(motorRotations: real, allowedError: real)
    requires allowedError >= 0.0
    ensures AtSetpoint(motorRotations * 360.0, motorRotations, allowedError)
  {
  }

  /** The test is symmetric and inclusive: it holds exactly within [-e, e] degrees. */
  lemma AtSetpointWindow(setpointDegrees: real, motorRotations: real, allowedError: real)
    ensures AtSetpoint(setpointDegrees, motorRotations, allowedError)
        <==> setpointDegrees - allowedError <= motorRotations * 360.0 <= setpointDegrees + allowedError
  {
    WithinInclusiveMeans(setpointDegrees - motorRotations * 360.0, allowedError);
  }

  /** The test the documentation describes: the goal against the motor angle, inclusive. */
  predicate AtGoal(goalDegrees: real, motorRotations: real, allowedError: real) {
    WithinInclusive(goalDegrees - motorRotations * 360.0, allowedError)
  }

  /**
   * The setpoint test passes right after a new goal is set, however far the
   * goal is: with the motor at 0 rotations, a goal of 90 degrees and a
   * tolerance of 1 degree the pivot reads "at setpoint" but is not at the goal.
   */
  lemma SetpointTestIgnoresGoal()
    ensures AtSetpoint(0.0 * 360.0, 0.0, 1.0)
    ensures !AtGoal(90.0, 0.0, 1.0)
  {
  }

  /** The goal test passes exactly when the motor angle is within the tolerance of the goal. */
  lemma AtGoalWindow(goalDegrees: real, motorRotations: real, allowedError: real)
    ensures AtGoal(goalDegrees, motorRotations, allowedError)
        <==> goalDegrees - allowedError <= motorRotations * 360.0 <= goalDegrees + allowedError
  {
    WithinInclusiveMeans(goalDegrees - motorRotations * 360.0, allowedError);
  }

  class Pivot {
    const motor: TestMotor
    const constraints: Constraints
    const gains: FeedforwardGains
    const zeroedAngleFromHorizontal: real
    const allowedError: real
    const profile: ProfileFn
    const armFeedforward: ArmFeedforwardFn
    var goal: ProfileState
    var setpoint: ProfileState

    constructor (motor: TestMotor, zeroedAngleFromHorizontal: real, maxVelocity: real,
                 maxAcceleration: real, allowedError: real,
                 ks: real, kg: real, kv: real, ka: real,
                 profile: ProfileFn, armFeedforward: ArmFeedforwardFn)
      ensures this.motor == motor && this.allowedError == allowedError
      ensures this.zeroedAngleFromHorizontal == zeroedAngleFromHorizontal
      ensures constraints == Constraints(maxVelocity, maxAcceleration)
      ensures gains == FeedforwardGains(ks, kg, kv, ka)
      ensures this.profile == profile && this.armFeedforward == armFeedforward
      ensures goal == ProfileState(0.0, 0.0) && setpoint == ProfileState(0.0, 0.0)
    {
      this.motor := motor;
      this.constraints := Constraints(maxVelocity, maxAcceleration);
      this.gains := FeedforwardGains(ks, kg, kv, ka);
      this.allowedError := allowedError;
      this.zeroedAngleFromHorizontal := zeroedAngleFromHorizontal;
      this.profile := profile;
      this.armFeedforward := armFeedforward;
      goal := ProfileState(0.0, 0.0);
      setpoint := ProfileState(0.0, 0.0);
    }

    /** The five-argument constructor: all feedforward gains zero. */
    constructor WithoutFeedforward(motor: TestMotor, zeroedAngleFromHorizontal: real,
                                   maxVelocity: real, maxAcceleration: real, allowedError: real,
                                   profile: ProfileFn, armFeedforward: ArmFeedforwardFn)
      ensures this.motor == motor && this.allowedError == allowedError
      ensures this.zeroedAngleFromHorizontal == zeroedAngleFromHorizontal
      ensures constraints == Constraints(maxVelocity, maxAcceleration)
      ensures gains == ZeroGains
      ensures this.profile == profile && this.armFeedforward == armFeedforward
      ensures goal == ProfileState(0.0, 0.0) && setpoint == ProfileState(0.0, 0.0)
    {
      this.motor := motor;
      this.constraints := Constraints(maxVelocity, maxAcceleration);
      this.gains := ZeroGains;
      this.allowedError := allowedError;
      this.zeroedAngleFromHorizontal := zeroedAngleFromHorizontal;
      this.profile := profile;
      this.armFeedforward := armFeedforward;
      goal := ProfileState(0.0, 0.0);
      setpoint := ProfileState(0.0, 0.0);
    }

    predicate IsAtSetpoint()
      reads this, motor
    {
      AtSetpoint(setpoint.position, motor.GetPosition(), allowedError)
    }

    /** Whether the motor has reached the goal itself, not just the profiled setpoint. */
    predicate IsAtGoal()
      reads this, motor
    {
      AtGoal(goal.position, motor.GetPosition(), allowedError)
    }

    /** The raw motor position, in rotations. */
    function GetPosition(): real
      reads motor
    {
      motor.GetPosition()
    }

    function GetCurrent(): real
      reads motor
    {
      motor.GetCurrent()
    }

    /**
     * New goal at rest at `angleDegrees`; the profile restarts at rest from the
     * motor's current angle, so the pivot reads as "at setpoint" at once.
     */
    method SetPosition(angleDegrees: real)
      modifies this
      ensures goal == ProfileState(angleDegrees, 0.0)
      ensures setpoint == ProfileState(motor.position * 360.0, 0.0)
      ensures allowedError >= 0.0 ==> IsAtSetpoint()
      ensures IsAtGoal() <==> WithinInclusive(angleDegrees - motor.position * 360.0, allowedError)
    {
      goal := ProfileState(angleDegrees, 0.0);
      setpoint := ProfileState(motor.GetPosition() * 360.0, 0.0);
      if allowedError >= 0.0 {
        FreshSetpointIsAtSetpoint(motor.position, allowedError);
      }
    }

    /** Commands the motor to the setpoint, converted from degrees to rotations. */
    method GoToSetpoint()
      modifies motor
      ensures motor.position == setpoint.position / 360.0
      ensures motor.lastFeedforward == Some(armFeedforward(gains,
                zeroedAngleFromHorizontal - old(motor.position) * 360.0,
                old(motor.velocity), setpoint.velocity))
      ensures motor.duty == old(motor.duty) && motor.velocity == old(motor.velocity)
      ensures motor.current == old(motor.current)
      ensures motor.forwardLimit == old(motor.forwardLimit) && motor.reverseLimit == old(motor.reverseLimit)
    {
      var ff := armFeedforward(gains, zeroedAngleFromHorizontal - motor.GetPosition() * 360.0,
                               motor.GetVelocity(), setpoint.velocity);
      motor.SetPositionWithFeedforward(setpoint.position / 360.0, ff);
    }

    method SetDutyCycle(speed: real)
      modifies motor
      ensures motor.duty == speed
      ensures motor.position == old(motor.position) && motor.velocity == old(motor.velocity)
      ensures motor.current == old(motor.current)
      ensures motor.forwardLimit == old(motor.forwardLimit) && motor.reverseLimit == old(motor.reverseLimit)
      ensures motor.lastFeedforward == old(motor.lastFeedforward)
    {
      motor.SetDutyCycle(speed);
    }

    /**
     * One scheduler tick: advance the setpoint one period along the profile
     * towards the goal, then command the motor there. The test motor snaps to
     * the command, so afterwards the pivot reads as "at setpoint".
     */
    method Periodic()
      modifies this, motor
      ensures goal == old(goal)
      ensures setpoint == profile(constraints, LoopPeriod, old(setpoint), old(goal))
      ensures motor.position == setpoint.position / 360.0
      ensures motor.lastFeedforward == Some(armFeedforward(gains,
                zeroedAngleFromHorizontal - old(motor.position) * 360.0,
                old(motor.velocity), setpoint.velocity))
      ensures motor.duty == old(motor.duty) && motor.velocity == old(motor.velocity)
      ensures motor.current == old(motor.current)
      ensures motor.forwardLimit == old(motor.forwardLimit) && motor.reverseLimit == old(motor.reverseLimit)
      ensures allowedError >= 0.0 ==> IsAtSetpoint()
    {
      setpoint := profile(constraints, LoopPeriod, setpoint, goal);
      GoToSetpoint();
      if allowedError >= 0.0 {
        FreshSetpointIsAtSetpoint(motor.position, allowedError);
      }
    }
  }
}
