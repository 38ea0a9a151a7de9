/**
 * A profiled linear mechanism (an elevator). Goal and profile are in meters;
 * `rotationsToMeter` is the number of motor rotations per meter of travel.
 *
 * The class follows the code as it stands, which mixes units: the motor is
 * commanded in rotations (meters times the factor), but the "at setpoint"
 * test compares raw rotations with the goal in meters, the profile is seeded
 * from raw rotations, and `GetPosition` multiplies rotations by the factor
 * again. The pure functions below set the two readings side by side.
 */
module LinearMechanism {
  import opened Wrappers
  import opened Motors
  import opened Mechanisms

  /** The motor command for a setpoint in meters: meters times rotations per meter. */
  function MotorCommand(setpointMeters: real, rotationsToMeter: real): real {
    setpointMeters * rotationsToMeter
  }

  /** The test as written: raw motor rotations against the goal in meters, strict. */
  predicate AtSetpointAsWritten(motorRotations: real, goalMeters: real, allowedError: real) {
    WithinStrict(motorRotations - goalMeters, allowedError)
  }

  /** The reported position as written: rotations times the factor. */
  function PositionAsWritten(motorRotations: real, rotationsToMeter: real): real {
    motorRotations * rotationsToMeter
  }

  /**
   * With two rotations per meter, a 1 m goal reached exactly (motor at 2
   * rotations) never reads "at setpoint" under a 0.1 m tolerance, and the
   * reported position is 4 m.
   */
  lemma ReachedGoalNotAtSetpointAsWritten()
    ensures MotorCommand(1.0, 2.0) == 2.0
    ensures !AtSetpointAsWritten(MotorCommand(1.0, 2.0), 1.0, 0.1)
    ensures PositionAsWritten(MotorCommand(1.0, 2.0), 2.0) == 4.0
  {
  }

  /** The motor position converted back to meters. */
  function MetersOf(motorRotations: real, rotationsToMeter: real): (m: real)
    requires rotationsToMeter != 0.0
    ensures m * rotationsToMeter == motorRotations
  {
    motorRotations / rotationsToMeter
  }

  /** The intended test: the mechanism's position in meters against the goal. */
  predicate AtSetpointCorrected(motorRotations: real, rotationsToMeter: real, goalMeters: real,
                                allowedError: real)
    requires rotationsToMeter != 0.0
  {
    WithinStrict(MetersOf(motorRotations, rotationsToMeter) - goalMeters, allowedError)
  }

  /**
   * Commanding a position and reading it back gives the position again, and a
   * motor commanded to the goal reads "at setpoint" for every positive tolerance.
   */
  lemma CorrectedRoundTrip(meters: real, rotationsToMeter: real, allowedError: real)
    requires rotationsToMeter != 0.0
    ensures MetersOf(MotorCommand(meters, rotationsToMeter), rotationsToMeter) == meters
    ensures allowedError > 0.0 ==>
              AtSetpointCorrected(MotorCommand(meters, rotationsToMeter), rotationsToMeter,
                                  meters, allowedError)
  {
    var m := MetersOf(MotorCommand(meters, rotationsToMeter), rotationsToMeter);
    assert m * rotationsToMeter == meters * rotationsToMeter;
  }

  class LinearMechanism {
    const motor: TestMotor
    const constraints: Constraints
    const gains: FeedforwardGains
    const allowedError: real
    const rotationsToMeter: real
    const profile: ProfileFn
    const elevatorFeedforward: ElevatorFeedforwardFn
    var goal: ProfileState
    var setpoint: ProfileState

    constructor (motor: TestMotor, maxVelocity: real, maxAcceleration: real, allowedError: real,
                 rotationsToMeter: real, ks: real, kg: real, kv: real, ka: real,
                 profile: ProfileFn, elevatorFeedforward: ElevatorFeedforwardFn)
      ensures this.motor == motor && this.allowedError == allowedError
      ensures this.rotationsToMeter == rotationsToMeter
      ensures constraints == Constraints(maxVelocity, maxAcceleration)
      ensures gains == FeedforwardGains(ks, kg, kv, ka)
      ensures this.profile == profile && this.elevatorFeedforward == elevatorFeedforward
      ensures goal == ProfileState(0.0, 0.0) && setpoint == ProfileState(0.0, 0.0)
    {
      this.motor := motor;
      this.constraints := Constraints(maxVelocity, maxAcceleration);
      this.gains := FeedforwardGains(ks, kg, kv, ka);
      this.allowedError := allowedError;
      this.rotationsToMeter := rotationsToMeter;
      this.profile := profile;
      this.elevatorFeedforward := elevatorFeedforward;
      goal := ProfileState(0.0, 0.0);
      setpoint := ProfileState(0.0, 0.0);
    }

    predicate IsAtSetpoint()
      reads this, motor
    {
      AtSetpointAsWritten(motor.GetPosition(), goal.position, allowedError)
    }

    function GetPosition(): real
      reads this, motor
    {
      PositionAsWritten(motor.GetPosition(), rotationsToMeter)
    }

    function GetAppliedCurrent(): real
      reads motor
    {
      motor.GetCurrent()
    }

    /** New goal at rest; the profile restarts at rest from the raw motor position. */
    method SetPosition(position: real)
      modifies this
      ensures goal == ProfileState(position, 0.0)
      ensures setpoint == ProfileState(motor.position, 0.0)
    {
      goal := ProfileState(position, 0.0);
      setpoint := ProfileState(motor.GetPosition(), 0.0);
    }

    method SetMotorFFAndPIDPosition(nextPosition: real)
      modifies motor
      ensures motor.position == MotorCommand(nextPosition, rotationsToMeter)
      ensures motor.lastFeedforward == Some(elevatorFeedforward(gains, old(motor.velocity), setpoint.velocity))
      ensures motor.duty == old(motor.duty) && motor.velocity == old(motor.velocity)
      ensures motor.current == old(motor.current)
      ensures motor.forwardLimit == old(motor.forwardLimit) && motor.reverseLimit == old(motor.reverseLimit)
    {
      motor.SetPositionWithFeedforward(nextPosition * rotationsToMeter,
                                       elevatorFeedforward(gains, motor.GetVelocity(), setpoint.velocity));
    }

    /** One scheduler tick: advance the profile one period, then command the motor. */
    method Periodic()
      modifies this, motor
      ensures goal == old(goal)
      ensures setpoint == profile(constraints, LoopPeriod, old(setpoint), old(goal))
      ensures motor.position == MotorCommand(setpoint.position, rotationsToMeter)
      ensures motor.lastFeedforward == Some(elevatorFeedforward(gains, old(motor.velocity), setpoint.velocity))
      ensures rotationsToMeter != 0.0 ==>
                MetersOf(motor.position, rotationsToMeter) == setpoint.position
      ensures motor.duty == old(motor.duty) && motor.velocity == old(motor.velocity)
      ensures motor.current == old(motor.current)
      ensures motor.forwardLimit == old(motor.forwardLimit) && motor.reverseLimit == old(motor.reverseLimit)
    {
      setpoint := profile(constraints, LoopPeriod, setpoint, goal);
      SetMotorFFAndPIDPosition(setpoint.position);
      if rotationsToMeter != 0.0 {
        CorrectedRoundTrip(setpoint.position, rotationsToMeter, allowedError);
      }
    }
  }
}
