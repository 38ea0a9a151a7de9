/**
 * The swerve drive: four MAXSwerve modules in a fixed order, a gyro, and in
 * simulation a staged gyro whose heading only changes when the staged value
 * is applied. Kinematics and wheel-speed desaturation are library functions
 * and enter as function values.
 */
module RevSwerve {
  import opened Wrappers
  import opened Units
  import opened MaxSwerve

  /** Module locations; their ordinals are the indices into the module array. */
  datatype ModuleLocation = FrontLeft | FrontRight | BackLeft | BackRight

  const NumModules: nat := 4

  function Ordinal(location: ModuleLocation): (i: nat)
    ensures i < NumModules
  {
    match location
    case FrontLeft => 0
    case FrontRight => 1
    case BackLeft => 2
    case BackRight => 3
  }

  /** The location at each index, in declaration order. */
  const Locations: seq<ModuleLocation> := [FrontLeft, FrontRight, BackLeft, BackRight]

  // Module angular offsets (rad).
  const FrontLeftOffset: real := Pi / 2.0
  const BackLeftOffset: real := -Pi
  const BackRightOffset: real := -Pi / 2.0
  const FrontRightOffset: real := 0.0

  function OffsetOf(location: ModuleLocation): real {
    match location
    case FrontLeft => FrontLeftOffset
    case FrontRight => FrontRightOffset
    case BackLeft => BackLeftOffset
    case BackRight => BackRightOffset
  }

  /** The ordinals number the locations 0..3 without gaps or repeats. */
  lemma OrdinalsAreIndices()
    ensures |Locations| == NumModules
    ensures forall i :: 0 <= i < NumModules ==> Ordinal(Locations[i]) == i
    ensures forall l: ModuleLocation :: Locations[Ordinal(l)] == l
  {
  }

  /** Robot-relative chassis speeds: m/s forward, m/s left, rad/s counter-clockwise. */
  datatype ChassisSpeeds = ChassisSpeeds(vx: real, vy: real, omega: real)

  /** `kinematics.toSwerveModuleStates`. */
  type KinematicsFn = ChassisSpeeds -> seq<StateValue>

  /** `desaturateWheelSpeeds` on the speeds alone: it only rescales speeds. */
  type DesaturateFn = (seq<real>, real) -> seq<real>

  /** The simulated gyro: a staged heading and the heading reported. */
  class SimGyro {
    var nextHeading: real
    var currentHeading: real

    constructor ()
      ensures nextHeading == 0.0 && currentHeading == 0.0
    {
      nextHeading, currentHeading := 0.0, 0.0;
    }

    method SetNextHeading(heading: real)
      modifies this
      ensures nextHeading == heading && currentHeading == old(currentHeading)
    {
      nextHeading := heading;
    }

    method ApplyNextHeading()
      modifies this
      ensures currentHeading == old(nextHeading) && nextHeading == old(nextHeading)
    {
      currentHeading := nextHeading;
    }

    method Reset()
      modifies this
      ensures nextHeading == 0.0 && currentHeading == 0.0
    {
      SetNextHeading(0.0);
      ApplyNextHeading();
    }

    function GetCurrentHeading(): real
      reads this
    {
      currentHeading
    }
  }

  class RevSwerve {
    const sim: bool
    const wheelBaseWidth: real
    const modules: array<MaxSwerve?>
    const cachedModulePositions: array<Option<ModulePosition>>
    const cachedModuleStates: array<ModuleState?>
    const simGyro: SimGyro
    const toModuleStates: KinematicsFn
    const desaturate: DesaturateFn
    /** The navX heading; on real hardware it changes under the model. */
    var navXHeading: real

    ghost function Modules(): set<object>
      reads this, modules
    {
      set i | 0 <= i < modules.Length && modules[i] != null :: modules[i] as object
    }

    ghost predicate Valid()
      reads this, modules
    {
      && modules.Length == NumModules
      && cachedModulePositions.Length == NumModules
      && cachedModuleStates.Length == NumModules
      && (forall i :: 0 <= i < NumModules ==> modules[i] != null)
      && (forall i, j :: 0 <= i < j < NumModules ==> modules[i] != modules[j])
      && (forall i :: 0 <= i < NumModules ==> modules[i].sim == sim && modules[i].ScaleOraclesSound())
      && (forall i :: 0 <= i < NumModules ==> modules[i].chassisOffset == OffsetOf(Locations[i]))
      && (forall c :: |toModuleStates(c)| == NumModules)
      && (forall s, m :: |desaturate(s, m)| == |s|)
    }

    /**
     * The constructor records the CAN ids (given front-left, back-left,
     * back-right, front-right) and builds the modules by location.
     */
    constructor (frontLeftDriveId: int, frontLeftSteerId: int, backLeftDriveId: int,
                 backLeftSteerId: int, backRightDriveId: int, backRightSteerId: int,
                 frontRightDriveId: int, frontRightSteerId: int, wheelBaseWidth: real,
                 sim: bool, steerEncoders: seq<real>,
                 cos: real -> real, wrap: real -> real, optimize: OptimizeFn,
                 driveFeedforward: real -> real,
                 toModuleStates: KinematicsFn, desaturate: DesaturateFn)
      requires |steerEncoders| == NumModules
      requires cos(0.0) == 1.0 && wrap(0.0) == 0.0
      requires forall c :: |toModuleStates(c)| == NumModules
      requires forall s, m :: |desaturate(s, m)| == |s|
      ensures Valid() && fresh(modules) && fresh(Modules()) && fresh(simGyro)
      ensures this.sim == sim && this.wheelBaseWidth == wheelBaseWidth
      ensures modules[0].driveCanId == frontLeftDriveId && modules[0].steerCanId == frontLeftSteerId
      ensures modules[1].driveCanId == frontRightDriveId && modules[1].steerCanId == frontRightSteerId
      ensures modules[2].driveCanId == backLeftDriveId && modules[2].steerCanId == backLeftSteerId
      ensures modules[3].driveCanId == backRightDriveId && modules[3].steerCanId == backRightSteerId
      ensures forall i :: 0 <= i < NumModules ==> modules[i].simDrivePosition == 0.0
      ensures simGyro.nextHeading == 0.0 && simGyro.currentHeading == 0.0
    {
      this.sim := sim;
      this.wheelBaseWidth := wheelBaseWidth;
      this.toModuleStates := toModuleStates;
      this.desaturate := desaturate;
      modules := new MaxSwerve?[NumModules];
      cachedModulePositions := new Option<ModulePosition>[NumModules](_ => None);
      cachedModuleStates := new ModuleState?[NumModules];
      simGyro := new SimGyro();
      navXHeading := 0.0;
      new;
      InitSwerveModules(frontLeftDriveId, frontLeftSteerId, backLeftDriveId, backLeftSteerId,
                        backRightDriveId, backRightSteerId, frontRightDriveId, frontRightSteerId,
                        steerEncoders, cos, wrap, optimize, driveFeedforward);
      assert Modules() == {modules[0], modules[1], modules[2], modules[3]};
    }

    /** Build one fresh module per location and store it at the location's ordinal. */
    method InitSwerveModules(frontLeftDriveId: int, frontLeftSteerId: int, backLeftDriveId: int,
                             backLeftSteerId: int, backRightDriveId: int, backRightSteerId: int,
                             frontRightDriveId: int, frontRightSteerId: int, steerEncoders: seq<real>,
                             cos: real -> real, wrap: real -> real, optimize: OptimizeFn,
                             driveFeedforward: real -> real)
      requires modules.Length == NumModules && |steerEncoders| == NumModules
      requires cos(0.0) == 1.0 && wrap(0.0) == 0.0
      modifies modules
      ensures forall i :: 0 <= i < NumModules ==> modules[i] != null && fresh(modules[i])
      ensures forall i, j :: 0 <= i < j < NumModules ==> modules[i] != modules[j]
      ensures forall i :: 0 <= i < NumModules ==>
                modules[i].sim == sim && modules[i].ScaleOraclesSound() &&
                modules[i].chassisOffset == OffsetOf(Locations[i]) && modules[i].simDrivePosition == 0.0
      ensures modules[0].driveCanId == frontLeftDriveId && modules[0].steerCanId == frontLeftSteerId
      ensures modules[1].driveCanId == frontRightDriveId && modules[1].steerCanId == frontRightSteerId
      ensures modules[2].driveCanId == backLeftDriveId && modules[2].steerCanId == backLeftSteerId
      ensures modules[3].driveCanId == backRightDriveId && modules[3].steerCanId == backRightSteerId
    {
      var fl := new MaxSwerve(frontLeftDriveId, frontLeftSteerId, FrontLeftOffset, sim,
                              steerEncoders[0], 0.0, 0.0, cos, wrap, optimize, driveFeedforward);
      var fr := new MaxSwerve(frontRightDriveId, frontRightSteerId, FrontRightOffset, sim,
                              steerEncoders[1], 0.0, 0.0, cos, wrap, optimize, driveFeedforward);
      var bl := new MaxSwerve(backLeftDriveId, backLeftSteerId, BackLeftOffset, sim,
                              steerEncoders[2], 0.0, 0.0, cos, wrap, optimize, driveFeedforward);
      var br := new MaxSwerve(backRightDriveId, backRightSteerId, BackRightOffset, sim,
                              steerEncoders[3], 0.0, 0.0, cos, wrap, optimize, driveFeedforward);
      modules[Ordinal(FrontLeft)] := fl;
      modules[Ordinal(FrontRight)] := fr;
      modules[Ordinal(BackLeft)] := bl;
      modules[Ordinal(BackRight)] := br;
    }

    /** The heading: the simulated gyro's reported heading, or the navX. */
    function GetHeading(): real
      reads this, simGyro
    {
      if sim then simGyro.GetCurrentHeading() else navXHeading
    }

    /** Zero the navX and reset the simulated gyro, staged and reported. */
    method ZeroHeading()
      modifies this, simGyro
      ensures navXHeading == 0.0 && simGyro.nextHeading == 0.0 && simGyro.currentHeading == 0.0
      ensures GetHeading() == 0.0
    {
      navXHeading := 0.0;
      simGyro.Reset();
    }

    /** Stage a simulated heading; the reported heading does not move yet. */
    method SetNextSimHeading(headingRadians: real)
      modifies simGyro
      ensures simGyro.nextHeading == headingRadians
      ensures simGyro.currentHeading == old(simGyro.currentHeading)
      ensures GetHeading() == old(GetHeading())
    {
      simGyro.SetNextHeading(headingRadians);
    }

    /** Report the staged simulated heading. */
    method ApplySimHeading()
      modifies simGyro
      ensures simGyro.currentHeading == old(simGyro.nextHeading)
      ensures simGyro.nextHeading == old(simGyro.nextHeading)
      ensures sim ==> GetHeading() == old(simGyro.nextHeading)
    {
      simGyro.ApplyNextHeading();
    }

    /** Fill the position cache from the modules, index by index, and return a copy. */
    method GetModulePositions() returns (positions: array<ModulePosition>)
      requires Valid()
      modifies cachedModulePositions
      ensures fresh(positions) && positions.Length == NumModules
      ensures forall i :: 0 <= i < NumModules ==> positions[i] == modules[i].GetPosition()
      ensures forall i :: 0 <= i < NumModules ==> cachedModulePositions[i] == Some(positions[i])
    {
      var i := 0;
      while i < cachedModulePositions.Length
        invariant 0 <= i <= NumModules
        invariant forall k :: 0 <= k < i ==> cachedModulePositions[k] == Some(modules[k].GetPosition())
      {
        cachedModulePositions[i] := Some(modules[i].GetPosition());
        i := i + 1;
      }
      positions := new ModulePosition[NumModules](_ => ModulePosition(0.0, 0.0));
      i := 0;
      while i < NumModules
        invariant 0 <= i <= NumModules
        invariant forall k :: 0 <= k < NumModules ==> cachedModulePositions[k] == Some(modules[k].GetPosition())
        invariant forall k :: 0 <= k < i ==> positions[k] == modules[k].GetPosition()
      {
        positions[i] := cachedModulePositions[i].value;
        i := i + 1;
      }
    }

    /**
     * Fill the state cache from the modules and return a copy. In simulation
     * the entries are the modules' own target objects, not copies of them.
     */
    method GetModuleStates() returns (states: array<ModuleState>)
      requires Valid()
      modifies cachedModuleStates
      ensures fresh(states) && states.Length == NumModules
      ensures forall i :: 0 <= i < NumModules ==> cachedModuleStates[i] == states[i]
      ensures sim ==> forall i :: 0 <= i < NumModules ==> states[i] == modules[i].targetState
      ensures !sim ==> forall i :: 0 <= i < NumModules ==>
                fresh(states[i]) &&
                states[i].Value() == StateValue(modules[i].driveEncoderVelocity, modules[i].CorrectedSteer())
    {
      var i := 0;
      while i < cachedModuleStates.Length
        invariant 0 <= i <= NumModules
        invariant forall k :: 0 <= k < i ==> cachedModuleStates[k] != null
        invariant sim ==> forall k :: 0 <= k < i ==> cachedModuleStates[k] == modules[k].targetState
        invariant !sim ==> forall k :: 0 <= k < i ==>
                    fresh(cachedModuleStates[k]) &&
                    cachedModuleStates[k].Value() == StateValue(modules[k].driveEncoderVelocity, modules[k].CorrectedSteer())
      {
        var s := modules[i].GetState();
        cachedModuleStates[i] := s;
        i := i + 1;
      }
      states := new ModuleState[NumModules](k requires 0 <= k < NumModules reads cachedModuleStates =>
                                              cachedModuleStates[k]);
    }

    /** `desaturateWheelSpeeds`: rescale the speeds of the desired states in place. */
    method Desaturate(desired: array<ModuleState>, maxSpeed: real)
      requires forall s, m :: |desaturate(s, m)| == |s|
      requires forall i, j :: 0 <= i < j < desired.Length ==> desired[i] != desired[j]
      modifies desired[..]
      ensures forall i :: 0 <= i < desired.Length ==>
                desired[i].speed == desaturate(old(SpeedsOf(desired[..])), maxSpeed)[i] &&
                desired[i].angle == old(desired[i].angle)
    {
      var speeds := desaturate(SpeedsOf(desired[..]), maxSpeed);
      var i := 0;
      while i < desired.Length
        invariant 0 <= i <= desired.Length
        invariant forall k :: 0 <= k < i ==> desired[k].speed == speeds[k]
        invariant forall k :: 0 <= k < desired.Length ==> desired[k].angle == old(desired[k].angle)
      {
        desired[i].speed := speeds[i];
        i := i + 1;
      }
    }

    /**
     * `setModuleStates`: desaturate to the top wheel speed, then hand
     * `desired[i]` to `modules[i]`, in index order, closed loop and optimised.
     */
    method SetModuleStates(desired: array<ModuleState>)
      requires Valid() && desired.Length == NumModules
      requires forall i, j :: 0 <= i < j < NumModules ==> desired[i] != desired[j]
      requires forall i, k :: 0 <= i < NumModules && 0 <= k < NumModules ==> desired[i] != modules[k].targetState
      modifies modules[..], desired[..]
      ensures Valid()
      ensures forall i :: 0 <= i < NumModules ==>
                ClosedLoopCommanded(modules[i], desired[i],
                  modules[i].CommandedFrom(old(modules[i].targetState.angle), old(modules[i].steerEncoderPosition),
                    StateValue(old(desaturate(SpeedsOf(desired[..]), MaxWheelSpeed))[i], old(desired[i].angle)), true),
                  old(modules[i].simDrivePosition), old(modules[i].Readings()))
    {
      Desaturate(desired, MaxWheelSpeed);
      CommandAll(desired);
      assert unchanged(this, modules);
    }

    /** The loop of `setModuleStates`: each module in index order gets its state, closed loop and optimised. */
    method CommandAll(desired: array<ModuleState>)
      requires modules.Length == NumModules && desired.Length == NumModules
      requires forall i :: 0 <= i < NumModules ==> modules[i] != null
      requires forall i, j :: 0 <= i < j < NumModules ==> modules[i] != modules[j]
      requires forall i, j :: 0 <= i < j < NumModules ==> desired[i] != desired[j]
      requires forall i, k :: 0 <= i < NumModules && 0 <= k < NumModules ==> desired[i] != modules[k].targetState
      modifies modules[..], desired[..]
      ensures forall i :: 0 <= i < NumModules ==>
                ClosedLoopCommanded(modules[i], desired[i],
                  modules[i].CommandedFrom(old(modules[i].targetState.angle), old(modules[i].steerEncoderPosition),
                    old(desired[i].Value()), true),
                  old(modules[i].simDrivePosition), old(modules[i].Readings()))
    {
      var ms: seq<MaxSwerve>, ds := modules[..], desired[..];
      ghost var targets := [ms[0].targetState, ms[1].targetState, ms[2].targetState, ms[3].targetState];
      ghost var angles := [targets[0].angle, targets[1].angle, targets[2].angle, targets[3].angle];
      ghost var readings := [ms[0].Readings(), ms[1].Readings(), ms[2].Readings(), ms[3].Readings()];
      ghost var requested := [ds[0].Value(), ds[1].Value(), ds[2].Value(), ds[3].Value()];
      ghost var positions := [ms[0].simDrivePosition, ms[1].simDrivePosition,
                              ms[2].simDrivePosition, ms[3].simDrivePosition];
      var i := 0;
      while i < modules.Length
        invariant 0 <= i <= NumModules
        invariant forall k :: 0 <= k < NumModules ==> modules[k] == ms[k] && desired[k] == ds[k]
        invariant forall k :: 0 <= k < i ==>
                    ClosedLoopCommanded(ms[k], ds[k],
                      ms[k].CommandedFrom(angles[k], readings[k].steer, requested[k], true), positions[k], readings[k])
        invariant forall k :: i <= k < NumModules ==>
                    ms[k].targetState == targets[k] && targets[k].angle == angles[k] &&
                    ms[k].Readings() == readings[k] && ms[k].simDrivePosition == positions[k] &&
                    ds[k].Value() == requested[k]
      {
        CommandNext(ms, ds, i, targets, angles, readings, requested, positions);
        i := i + 1;
      }
    }

    /**
     * One pass of the loop in `setModuleStates`: module `i` takes its state;
     * the modules before it keep theirs and those after it are untouched.
     */
    static method CommandNext(ms: seq<MaxSwerve>, ds: seq<ModuleState>, i: nat, ghost targets: seq<ModuleState>,
                              ghost angles: seq<real>, ghost readings: seq<EncoderReadings>,
                              ghost requested: seq<StateValue>, ghost positions: seq<real>)
      requires |ms| == |ds| == |targets| == |angles| == |readings| == |requested| == |positions| == NumModules
      requires i < NumModules
      requires forall j, k :: 0 <= j < k < NumModules ==> ms[j] != ms[k] && ds[j] != ds[k]
      requires forall j, k :: 0 <= j < NumModules && 0 <= k < NumModules ==> ds[j] != targets[k]
      requires forall k :: 0 <= k < i ==>
                 ClosedLoopCommanded(ms[k], ds[k], ms[k].CommandedFrom(angles[k], readings[k].steer, requested[k], true), positions[k], readings[k])
      requires forall k :: i <= k < NumModules ==>
                 ms[k].targetState == targets[k] && targets[k].angle == angles[k] &&
                 ms[k].Readings() == readings[k] && ms[k].simDrivePosition == positions[k] &&
                 ds[k].Value() == requested[k]
      modifies ms[i], ds[i]
      ensures forall k :: 0 <= k <= i ==>
                ClosedLoopCommanded(ms[k], ds[k], ms[k].CommandedFrom(angles[k], readings[k].steer, requested[k], true), positions[k], readings[k])
      ensures forall k :: i < k < NumModules ==>
                ms[k].targetState == targets[k] && targets[k].angle == angles[k] &&
                ms[k].Readings() == readings[k] && ms[k].simDrivePosition == positions[k] &&
                ds[k].Value() == requested[k]
    {
      CommandModule(ms[i], ds[i], angles[i], readings[i], requested[i], positions[i]);
      forall k | 0 <= k < i
        ensures ClosedLoopCommanded(ms[k], ds[k], ms[k].CommandedFrom(angles[k], readings[k].steer, requested[k], true), positions[k], readings[k])
      {
        assert ms[k] != ms[i] && ds[k] != ds[i];
      }
      forall k | i < k < NumModules
        ensures ms[k].targetState == targets[k] && targets[k].angle == angles[k]
        ensures ms[k].Readings() == readings[k] && ms[k].simDrivePosition == positions[k]
        ensures ds[k].Value() == requested[k]
      {
        assert ms[k] != ms[i] && ds[k] != ds[i] && targets[k] != ds[i];
      }
    }

    /** One module's closed-loop, optimised `setTargetState` with a state object it does not already hold. */
    static method CommandModule(m: MaxSwerve, d: ModuleState, ghost angle: real, ghost readings: EncoderReadings,
                                ghost requested: StateValue, ghost position: real)
      requires d != m.targetState
      requires m.targetState.angle == angle && m.Readings() == readings
      requires d.Value() == requested && m.simDrivePosition == position
      modifies m, d
      ensures ClosedLoopCommanded(m, d, m.CommandedFrom(angle, readings.steer, requested, true), position, readings)
    {
      m.SetTargetState(d, true, true);
    }

    /**
     * `setChassisSpeeds`: module states from the kinematics, commanded as
     * above; in simulation the staged heading advances by one period of the
     * turn rate, from the staged value, and the reported heading stays.
     */
    method SetChassisSpeeds(speeds: ChassisSpeeds)
      requires Valid()
      modifies modules[..], simGyro
      ensures Valid()
      ensures forall i :: 0 <= i < NumModules ==>
                fresh(modules[i].targetState) &&
                ClosedLoopCommanded(modules[i], modules[i].targetState,
                  modules[i].CommandedFrom(old(modules[i].targetState.angle), old(modules[i].steerEncoderPosition),
                    StateValue(desaturate(ValueSpeeds(toModuleStates(speeds)), MaxWheelSpeed)[i],
                               toModuleStates(speeds)[i].angle), true),
                  old(modules[i].simDrivePosition), old(modules[i].Readings()))
      ensures simGyro.nextHeading == if sim then old(simGyro.nextHeading) + speeds.omega * LoopPeriod
                                     else old(simGyro.nextHeading)
      ensures simGyro.currentHeading == old(simGyro.currentHeading)
    {
      var desired := NewStates(toModuleStates(speeds));
      SetModuleStates(desired);
      if sim {
        SetNextSimHeading(simGyro.nextHeading + speeds.omega * LoopPeriod);
      }
    }

    /** Fresh state objects holding the given values, one per module. */
    static method NewStates(values: seq<StateValue>) returns (states: array<ModuleState>)
      requires |values| == NumModules
      ensures fresh(states) && states.Length == NumModules
      ensures forall i :: 0 <= i < NumModules ==> fresh(states[i]) && states[i].Value() == values[i]
      ensures forall i, j :: 0 <= i < j < NumModules ==> states[i] != states[j]
      ensures SpeedsOf(states[..]) == ValueSpeeds(values)
    {
      var s0 := new ModuleState(values[0].speed, values[0].angle);
      var s1 := new ModuleState(values[1].speed, values[1].angle);
      var s2 := new ModuleState(values[2].speed, values[2].angle);
      var s3 := new ModuleState(values[3].speed, values[3].angle);
      states := new ModuleState[NumModules] [s0, s1, s2, s3];
    }
  }

  /**
   * A module after a closed-loop, optimised `setTargetState` with state
   * object `d`: `d` is its target and holds `expected`, the drive got a
   * velocity reference with feedforward, the steer got the wrapped angle
   * less the chassis offset, the encoder readings did not move, and in
   * simulation the distance grew by one period of the new speed.
   */
  ghost predicate ClosedLoopCommanded(m: MaxSwerve, d: ModuleState, expected: StateValue, oldPosition: real,
                                      oldReadings: EncoderReadings)
    reads m, d
  {
    && m.targetState == d
    && d.Value() == expected
    && m.driveCommand == VelocityReference(d.speed, m.driveFeedforward(d.speed))
    && m.steerCommand == Some(SteerReference(m.wrap, d.angle, m.chassisOffset))
    && m.Readings() == oldReadings
    && m.simDrivePosition == if m.sim then oldPosition + d.speed * LoopPeriod else oldPosition
  }

  /** The speeds of a list of state objects. */
  function SpeedsOf(states: seq<ModuleState>): seq<real>
    reads set s | s in states
  {
    seq(|states|, i requires 0 <= i < |states| reads states => states[i].speed)
  }

  /** The speeds of a list of state values. */
  function ValueSpeeds(states: seq<StateValue>): seq<real> {
    seq(|states|, i requires 0 <= i < |states| => states[i].speed)
  }
}
