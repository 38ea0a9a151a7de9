/**
 * One REV MAXSwerve module: a drive motor and a steer motor. The model keeps
 * the module's bookkeeping: the last commanded target state (a mutable
 * object, shared with the caller), the Euler-integrated drive distance of the
 * simulation, the commands sent to the motor controllers, and the gear and
 * geometry constants.
 *
 * Angles are radians. `wrap` is the normalisation a difference of two
 * `Rotation2d` values goes through (into (-pi, pi]); `cos`, the heading
 * optimisation and the drive feedforward are library functions and enter as
 * function values.
 */
module MaxSwerve {
  import opened Wrappers
  import opened Units

  /** A `SwerveModuleState` as a value: speed (m/s) and angle (rad). */
  datatype StateValue = StateValue(speed: real, angle: real)

  /** A `SwerveModulePosition`: distance driven (m) and angle (rad). */
  datatype ModulePosition = ModulePosition(distance: real, angle: real)

  /** A module's steer encoder position, drive encoder position and drive encoder velocity. */
  datatype EncoderReadings = EncoderReadings(steer: real, drive: real, driveVelocity: real)

  /** The last command sent to the drive motor controller. */
  datatype DriveCommand =
    | NoDriveCommand
    | VelocityReference(speed: real, feedforward: real)
    | VoltageCommand(volts: real)

  /** `SwerveModuleState.optimize(currentAngle)` on values. */
  type OptimizeFn = (StateValue, real) -> StateValue

  /** The scheduler period, the time step of the simulated drive distance. */
  const LoopPeriod: real := 0.02

  // Drive and steer controller gains.
  const DriveKP: real := 0.25
  const DriveKD: real := 0.05
  const DriveKS: real := 0.068841
  const DriveKV: real := 2.4568
  const DriveKA: real := 0.22524
  const SteerKP: real := 2.5
  const SteerKD: real := 0.0

  // Gearing and wheel.
  const DrivePinionTeeth: int := 14
  const WheelDiameter: real := 0.97 * InchesToMeters(3.0)
  const DriveMotorReduction: real := (45.0 * 22.0) / ((DrivePinionTeeth as real) * 15.0)

  /** NEO free speed in rotations per second. */
  const NeoFreeSpeed: real := 5820.0 / 60.0

  /** Top wheel speed in m/s. */
  const MaxWheelSpeed: real := (NeoFreeSpeed / DriveMotorReduction) * (WheelDiameter * Pi)

  /** Meters of travel per drive-motor rotation. */
  const DrivingEncoderPositionFactor: real := (WheelDiameter * Pi) / DriveMotorReduction

  /** Meters per second per drive-motor RPM. */
  const DrivingEncoderVelocityFactor: real := ((WheelDiameter * Pi) / DriveMotorReduction) / 60.0

  /** Radians per steer-encoder rotation, and radians per second per RPM. */
  const SteeringEncoderPositionFactor: real := 2.0 * Pi
  const SteeringEncoderVelocityFactor: real := (2.0 * Pi) / 60.0

  /** The gear constants, worked out: a 33:7 reduction, a 97 rot/s NEO. */
  lemma GearConstants()
    ensures DriveMotorReduction == 33.0 / 7.0
    ensures NeoFreeSpeed == 97.0
    ensures WheelDiameter == 0.07391400
    ensures DrivingEncoderVelocityFactor == DrivingEncoderPositionFactor / 60.0
    ensures MaxWheelSpeed == NeoFreeSpeed * DrivingEncoderPositionFactor
    ensures SteeringEncoderVelocityFactor == SteeringEncoderPositionFactor / 60.0
  {
  }

  /** A translation from the robot centre to a module, in meters. */
  datatype Translation = Translation(x: real, y: real)

  /** The chassis is square: its length is its width. */
  function ChassisWidth(wheelBaseWidthInches: real): real {
    InchesToMeters(wheelBaseWidthInches)
  }

  /** The kinematics' module translations, in module order. */
  function ModuleTranslations(wheelBaseWidthInches: real): seq<Translation> {
    var width := ChassisWidth(wheelBaseWidthInches);
    var length := width;
    [ Translation(length / 2.0, width / 2.0),
      Translation(length / 2.0, -width / 2.0),
      Translation(-length / 2.0, width / 2.0),
      Translation(-length / 2.0, -width / 2.0) ]
  }

  /**
   * With forward +x and left +y, modules 0 and 1 are at the front, 0 and 2
   * on the left: the order front-left, front-right, back-left, back-right.
   * Every module sits half the width from both axes.
   */
  lemma TranslationsFollowModuleOrder(wheelBaseWidthInches: real, i: int)
    requires wheelBaseWidthInches > 0.0 && 0 <= i < 4
    ensures |ModuleTranslations(wheelBaseWidthInches)| == 4
    ensures ModuleTranslations(wheelBaseWidthInches)[i].x > 0.0 <==> i < 2
    ensures ModuleTranslations(wheelBaseWidthInches)[i].y > 0.0 <==> i % 2 == 0
    ensures Abs(ModuleTranslations(wheelBaseWidthInches)[i].x) == ChassisWidth(wheelBaseWidthInches) / 2.0
    ensures Abs(ModuleTranslations(wheelBaseWidthInches)[i].y) == ChassisWidth(wheelBaseWidthInches) / 2.0
  {
  }

  /** The steer reference for a chassis-relative angle: remove the module offset, then wrap. */
  function SteerReference(wrap: real -> real, angle: real, chassisOffset: real): real {
    wrap(angle - chassisOffset)
  }

  /** The real-hardware corrected steer angle: raw encoder angle plus the module offset. */
  function CorrectedSteerFromEncoder(rawSteer: real, chassisOffset: real): real {
    rawSteer + chassisOffset
  }

  /** Commanding the corrected angle sends the raw encoder angle back, wrapped. */
  lemma SteerReferenceUndoesOffset(wrap: real -> real, rawSteer: real, chassisOffset: real)
    ensures SteerReference(wrap, CorrectedSteerFromEncoder(rawSteer, chassisOffset), chassisOffset)
         == wrap(rawSteer)
  {
    assert CorrectedSteerFromEncoder(rawSteer, chassisOffset) - chassisOffset == rawSteer;
  }

  /** A mutable `SwerveModuleState`. */
  class ModuleState {
    var speed: real
    var angle: real

    constructor (speed: real, angle: real)
      ensures this.speed == speed && this.angle == angle
    {
      this.speed := speed;
      this.angle := angle;
    }

    function Value(): StateValue
      reads this
    {
      StateValue(speed, angle)
    }
  }

  class MaxSwerve {
    const driveCanId: int
    const steerCanId: int
    const chassisOffset: real
    /** Whether the robot runs in simulation. */
    const sim: bool
    const cos: real -> real
    const wrap: real -> real
    const optimize: OptimizeFn
    /** `SimpleMotorFeedforward(DriveKS, DriveKV, DriveKA).calculate`. */
    const driveFeedforward: real -> real

    var targetState: ModuleState
    var simDrivePosition: real
    /** Encoder readings; on real hardware they change under the model. */
    var steerEncoderPosition: real
    var driveEncoderPosition: real
    var driveEncoderVelocity: real
    var driveCommand: DriveCommand
    var steerCommand: Option<real>

    /** The three encoder readings together. */
    function Readings(): EncoderReadings
      reads this
    {
      EncoderReadings(steerEncoderPosition, driveEncoderPosition, driveEncoderVelocity)
    }

    /** What the model relies on from the library functions. */
    ghost predicate OraclesSound() {
      ScaleOraclesSound() && OptimizeKeepsSpeed()
    }

    /** A zero angle difference wraps to zero, and its cosine is one. */
    predicate ScaleOraclesSound() {
      cos(0.0) == 1.0 && wrap(0.0) == 0.0
    }

    /** Optimisation may reverse the speed, never change its magnitude. */
    ghost predicate OptimizeKeepsSpeed() {
      forall v: StateValue, current: real :: Abs(optimize(v, current).speed) == Abs(v.speed)
    }

    constructor (driveCanId: int, steerCanId: int, offset: real, sim: bool,
                 steerEncoderPosition: real, driveEncoderPosition: real, driveEncoderVelocity: real,
                 cos: real -> real, wrap: real -> real, optimize: OptimizeFn,
                 driveFeedforward: real -> real)
      ensures this.driveCanId == driveCanId && this.steerCanId == steerCanId
      ensures chassisOffset == offset && this.sim == sim
      ensures this.cos == cos && this.wrap == wrap && this.optimize == optimize
      ensures this.driveFeedforward == driveFeedforward
      ensures fresh(targetState)
      ensures targetState.Value() == StateValue(0.0, if sim then steerEncoderPosition else 0.0)
      ensures simDrivePosition == 0.0
      ensures this.steerEncoderPosition == steerEncoderPosition
      ensures this.driveEncoderPosition == driveEncoderPosition
      ensures this.driveEncoderVelocity == driveEncoderVelocity
      ensures driveCommand == NoDriveCommand && steerCommand == None
    {
      this.driveCanId := driveCanId;
      this.steerCanId := steerCanId;
      chassisOffset := offset;
      this.sim := sim;
      this.cos := cos;
      this.wrap := wrap;
      this.optimize := optimize;
      this.driveFeedforward := driveFeedforward;
      this.steerEncoderPosition := steerEncoderPosition;
      this.driveEncoderPosition := driveEncoderPosition;
      this.driveEncoderVelocity := driveEncoderVelocity;
      simDrivePosition := 0.0;
      driveCommand := NoDriveCommand;
      steerCommand := None;
      var initialAngle := if sim then steerEncoderPosition else 0.0;
      targetState := new ModuleState(0.0, initialAngle);
    }

    /**
     * The module angle relative to the chassis, given the target's angle and
     * the steer encoder reading: in simulation the target's angle, on
     * hardware the encoder plus the offset.
     */
    function CorrectedSteerFrom(targetAngle: real, steerEncoder: real): real {
      if sim then targetAngle else CorrectedSteerFromEncoder(steerEncoder, chassisOffset)
    }

    /** The target's angle minus the corrected steer angle, wrapped. */
    function HeadingErrorFrom(targetAngle: real, steerEncoder: real): (e: real)
      ensures sim && ScaleOraclesSound() ==> e == 0.0
    {
      wrap(targetAngle - CorrectedSteerFrom(targetAngle, steerEncoder))
    }

    /** A requested state after the heading optimisation. */
    function OptimizedFrom(targetAngle: real, steerEncoder: real, v: StateValue, optimizeHeading: bool): StateValue {
      if optimizeHeading then optimize(v, CorrectedSteerFrom(targetAngle, steerEncoder)) else v
    }

    /**
     * The state a requested state `v` ends as when it is not the current
     * target: optimised, and its speed scaled by the cosine of the current
     * target's heading error. In simulation the scale is one.
     */
    function CommandedFrom(targetAngle: real, steerEncoder: real, v: StateValue, optimizeHeading: bool): (c: StateValue)
      ensures c.angle == OptimizedFrom(targetAngle, steerEncoder, v, optimizeHeading).angle
      ensures sim && ScaleOraclesSound() ==> c == OptimizedFrom(targetAngle, steerEncoder, v, optimizeHeading)
    {
      var o := OptimizedFrom(targetAngle, steerEncoder, v, optimizeHeading);
      StateValue(o.speed * cos(Abs(HeadingErrorFrom(targetAngle, steerEncoder))), o.angle)
    }

    function CorrectedSteer(): real
      reads this, targetState
    {
      CorrectedSteerFrom(targetState.angle, steerEncoderPosition)
    }

    /** The heading error if the target's angle were `targetAngle`. */
    function HeadingErrorFor(targetAngle: real): real
      reads this
    {
      HeadingErrorFrom(targetAngle, steerEncoderPosition)
    }

    /** In simulation the heading error is always zero. */
    function GetHeadingError(): (e: real)
      reads this, targetState
      ensures sim && ScaleOraclesSound() ==> e == 0.0
    {
      HeadingErrorFor(targetState.angle)
    }

    function Optimized(v: StateValue, optimizeHeading: bool): StateValue
      reads this, targetState
    {
      OptimizedFrom(targetState.angle, steerEncoderPosition, v, optimizeHeading)
    }

    function Commanded(v: StateValue, optimizeHeading: bool): StateValue
      reads this, targetState
    {
      CommandedFrom(targetState.angle, steerEncoderPosition, v, optimizeHeading)
    }

    /** In simulation the module reports its target; on hardware, the encoders. */
    method GetState() returns (s: ModuleState)
      ensures sim ==> s == targetState
      ensures !sim ==> fresh(s) && s.Value() == StateValue(driveEncoderVelocity, CorrectedSteer())
    {
      if sim {
        s := targetState;
      } else {
        s := new ModuleState(driveEncoderVelocity, CorrectedSteer());
      }
    }

    function GetTargetState(): ModuleState
      reads this
    {
      targetState
    }

    /** In simulation: the integrated distance and the target's angle. */
    function GetPosition(): (p: ModulePosition)
      reads this, targetState
      ensures sim ==> p == ModulePosition(simDrivePosition, targetState.angle)
      ensures !sim ==> p.distance == driveEncoderPosition
    {
      ModulePosition(if sim then simDrivePosition else driveEncoderPosition, CorrectedSteer())
    }

    /**
     * The first half of `setTargetState`: optimise the state in place against
     * the corrected steer angle, then scale its speed by the cosine of the
     * heading error of the current target (which is the state itself when the
     * caller passed the target back in).
     */
    method OptimizeAndScale(state: ModuleState, optimizeHeading: bool)
      modifies state
      ensures state.angle == old(Optimized(state.Value(), optimizeHeading)).angle
      ensures state.speed == old(Optimized(state.Value(), optimizeHeading)).speed
                             * cos(Abs(HeadingErrorFor(targetState.angle)))
    {
      if optimizeHeading {
        var o := optimize(state.Value(), CorrectedSteer());
        state.speed, state.angle := o.speed, o.angle;
      }
      var error := GetHeadingError();
      state.speed := state.speed * cos(Abs(error));
    }

    /**
     * `setTargetState`: optimise the caller's state in place, scale its speed
     * by the cosine of the heading error (computed before the target is
     * replaced), command drive and steer, keep that same object as the
     * target, and in simulation integrate the distance over one period.
     */
    method SetTargetState(state: ModuleState, closedLoopDrive: bool, optimizeHeading: bool)
      modifies this, state
      ensures targetState == state
      ensures state.angle == old(Optimized(state.Value(), optimizeHeading)).angle
      ensures state.speed == old(Optimized(state.Value(), optimizeHeading)).speed
                             * cos(Abs(HeadingErrorFor(if state == old(targetState) then state.angle
                                                       else old(targetState.angle))))
      ensures state != old(targetState) ==>
                state.Value() == CommandedFrom(old(targetState.angle), old(steerEncoderPosition),
                                               old(state.Value()), optimizeHeading)
      ensures sim && ScaleOraclesSound() ==> state.Value() == old(Optimized(state.Value(), optimizeHeading))
      ensures driveCommand == if closedLoopDrive then VelocityReference(state.speed, driveFeedforward(state.speed))
                              else VoltageCommand(driveFeedforward(state.speed))
      ensures steerCommand == Some(SteerReference(wrap, state.angle, chassisOffset))
      ensures simDrivePosition == if sim then old(simDrivePosition) + state.speed * LoopPeriod
                                  else old(simDrivePosition)
      ensures steerEncoderPosition == old(steerEncoderPosition)
      ensures driveEncoderPosition == old(driveEncoderPosition)
      ensures driveEncoderVelocity == old(driveEncoderVelocity)
    {
      OptimizeAndScale(state, optimizeHeading);
      Dispatch(state, closedLoopDrive);
    }

    /**
     * The second half of `setTargetState`: command the drive (velocity with
     * feedforward, or open-loop voltage) and the steer, record the state as
     * the target, and in simulation integrate the distance over one period.
     */
    method Dispatch(state: ModuleState, closedLoopDrive: bool)
      modifies this
      ensures targetState == state
      ensures driveCommand == if closedLoopDrive then VelocityReference(state.speed, driveFeedforward(state.speed))
                              else VoltageCommand(driveFeedforward(state.speed))
      ensures steerCommand == Some(SteerReference(wrap, state.angle, chassisOffset))
      ensures simDrivePosition == if sim then old(simDrivePosition) + state.speed * LoopPeriod
                                  else old(simDrivePosition)
      ensures steerEncoderPosition == old(steerEncoderPosition)
      ensures driveEncoderPosition == old(driveEncoderPosition)
      ensures driveEncoderVelocity == old(driveEncoderVelocity)
    {
      if closedLoopDrive {
        driveCommand := VelocityReference(state.speed, driveFeedforward(state.speed));
      } else {
        driveCommand := VoltageCommand(driveFeedforward(state.speed));
      }
      steerCommand := Some(SteerReference(wrap, state.angle, chassisOffset));
      targetState := state;
      if sim {
        simDrivePosition := simDrivePosition + targetState.speed * LoopPeriod;
      }
    }

    /** The two-argument overload: the heading is always optimised. */
    method SetTargetStateOptimized(state: ModuleState, closedLoopDrive: bool)
      modifies this, state
      ensures targetState == state
      ensures state.angle == old(Optimized(state.Value(), true)).angle
      ensures state.speed == old(Optimized(state.Value(), true)).speed
                             * cos(Abs(HeadingErrorFor(if state == old(targetState) then state.angle
                                                       else old(targetState.angle))))
      ensures state != old(targetState) ==> state.Value() == old(Commanded(state.Value(), true))
      ensures sim && ScaleOraclesSound() ==>
                state.Value() == optimize(old(state.Value()), old(targetState.angle))
      ensures driveCommand == if closedLoopDrive then VelocityReference(state.speed, driveFeedforward(state.speed))
                              else VoltageCommand(driveFeedforward(state.speed))
      ensures steerCommand == Some(SteerReference(wrap, state.angle, chassisOffset))
      ensures simDrivePosition == if sim then old(simDrivePosition) + state.speed * LoopPeriod
                                  else old(simDrivePosition)
      ensures steerEncoderPosition == old(steerEncoderPosition)
      ensures driveEncoderPosition == old(driveEncoderPosition)
      ensures driveEncoderVelocity == old(driveEncoderVelocity)
    {
      SetTargetState(state, closedLoopDrive, true);
    }

    /** Wheels at pi/4 from the chassis axes (an X), speed zero, open loop. */
    method SetX()
      requires OraclesSound()
      modifies this
      ensures fresh(targetState)
      ensures targetState.speed == 0.0
      ensures targetState.angle == old(optimize(StateValue(0.0, Pi / 4.0 + chassisOffset), CorrectedSteer())).angle
      ensures driveCommand == VoltageCommand(driveFeedforward(0.0))
      ensures steerCommand == Some(SteerReference(wrap, targetState.angle, chassisOffset))
      ensures simDrivePosition == old(simDrivePosition)
      ensures Readings() == old(Readings())
    {
      var s := new ModuleState(0.0, Pi / 4.0 + chassisOffset);
      SetTargetStateOptimized(s, false);
    }

    /** Wheels tangent to a circle (an O), speed zero, open loop. */
    method SetO()
      requires OraclesSound()
      modifies this
      ensures fresh(targetState)
      ensures targetState.speed == 0.0
      ensures targetState.angle == old(optimize(StateValue(0.0, 3.0 * Pi / 4.0 + chassisOffset), CorrectedSteer())).angle
      ensures driveCommand == VoltageCommand(driveFeedforward(0.0))
      ensures steerCommand == Some(SteerReference(wrap, targetState.angle, chassisOffset))
      ensures simDrivePosition == old(simDrivePosition)
      ensures Readings() == old(Readings())
    {
      var s := new ModuleState(0.0, 3.0 * Pi / 4.0 + chassisOffset);
      SetTargetStateOptimized(s, false);
    }

    /** Zero the drive encoder, and in simulation the integrated distance. */
    method ResetEncoder()
      modifies this
      ensures driveEncoderPosition == 0.0
      ensures simDrivePosition == if sim then 0.0 else old(simDrivePosition)
      ensures targetState == old(targetState) && steerEncoderPosition == old(steerEncoderPosition)
      ensures driveEncoderVelocity == old(driveEncoderVelocity)
      ensures driveCommand == old(driveCommand) && steerCommand == old(steerCommand)
    {
      driveEncoderPosition := 0.0;
      if sim {
        simDrivePosition := 0.0;
      }
    }
  }
}
