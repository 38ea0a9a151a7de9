# GlitchLib in Dafny

A model of the core of GlitchLib, a Java library for FRC robots (WPILib,
REV Spark motor controllers, PhotonVision), with proofs about the model.
The model covers:

- **Single-axis mechanisms.** The library's test motor (`Motors`), the roller,
  the profiled pivot, the simple pivot and the linear mechanism. Each keeps its
  goal, profile setpoint and "at setpoint" test as the code states them. The
  mechanisms hold the test motor, which snaps to every position command.
- **Spark configuration.** The leader and follower status-period tables of
  `SparkConfigurator`, and the fall-through `switch` that writes them into the
  configuration object, with retries.
- **Swerve drive.** One MAXSwerve module (optimisation, cosine scaling,
  drive and steer commands, simulated odometry, X and O poses) and the
  four-module `RevSwerve` drive (module order, caches, simulated gyro,
  desaturation, chassis-speed commands).
- **Vision.** The real and the simulated providers: draining the measurements
  of every camera, and picking the start pose.
- **LED patterns and strips.**
  - The new fire, old fire and random-noise overlays, with their update-window
    gate.
  - The two earlier copies of the fire and noise overlays.
  - The strip classes that carve a buffer into timed sections (abstract,
    library and earlier strips, and the example `FakeLEDS` strip).
  - The mechanism-side `LEDs` subsystem with its own sections and its fire and
    noise animations.

## How the model is built

- **Numbers.** Physical quantities are `real`. Microsecond clocks, indices and
  counts are `int`. Java's `%` and its `(long)` and `(int)` casts are written
  out (`JavaRem`, `Truncate`, `DampFloor`).
- **Oracles.** Trigonometry, `Math.random`, and the WPILib, REV and PhotonVision
  algorithms are not re-derived. These include `TrapezoidProfile`, the
  feedforwards, `SwerveModuleState.optimize`, `desaturateWheelSpeeds`,
  `toSwerveModuleStates`, the pose solvers and `LEDPattern.applyTo`. They
  reach the model in one of two ways:
  - as function-valued parameters or constants;
  - as input sequences of draws and rendered colours.
- **Errors.** Exceptions the code can throw are `Outcome`/`Result` values.
  They cover a null pattern or buffer, division by a zero period, and the
  strip constructors' `IllegalArgumentException` and negative-size buffer.
- **Form.** Objects whose fields the code updates are classes with `modifies`
  frames. Loops are `while`/`for` loops with invariants, each proved against a
  function on sequences. Properties of those functions are lemmas.

## Model

| member | source | states |
|---|---|---|
| Units.ToRadians | Glitch/Lib/main/Glitch/Lib/BaseMechanisms/SimplePivot.java:93 | 180 degrees is pi, 0 is 0, and the sign of the angle is kept |
| Mechanisms.WithinInclusiveMeans | Glitch/Lib/main/Glitch/BaseMechanisms/Pivot.java:124-126 | the `Math.abs(e) <= a` test holds exactly on the closed window [-a, a] and is symmetric in the error |
| Mechanisms.WithinStrictMeans | Glitch/Lib/BaseMechanisms/LinearMechanism.java:98-100 | the `Math.abs(e) < a` test holds exactly on the open window (-a, a); it implies the inclusive test, and they differ only at the edge |
| Motors.TestMotor.constructor | Glitch/Lib/test/Glitch/Lib/TestModules.java:60-67 | a new test motor has every reading at zero, both limit switches open, and no feedforward recorded |
| Motors.TestMotor.SetVelocity | Glitch/Lib/test/Glitch/Lib/TestModules.java:70-72 | only the velocity changes, to the command |
| Motors.TestMotor.SetDutyCycle | Glitch/Lib/test/Glitch/Lib/TestModules.java:75-77 | only the duty cycle changes, to the command |
| Motors.TestMotor.SetPositionWithFeedforward | Glitch/Lib/test/Glitch/Lib/TestModules.java:80-83 | the motor snaps to the position and records the feedforward; nothing else changes |
| Motors.TestMotor.SetPosition | Glitch/Lib/test/Glitch/Lib/TestModules.java:86-88 | the motor snaps to the position and keeps its recorded feedforward |
| Motors.TestMotor.SetForwardLimit | Glitch/Lib/test/Glitch/Lib/TestModules.java:115-117 | only the forward limit switch changes |
| Motors.TestMotor.SetReverseLimit | Glitch/Lib/test/Glitch/Lib/TestModules.java:119-121 | only the reverse limit switch changes |
| Roller.Roller.constructor | Glitch/Lib/main/Glitch/Lib/BaseMechanisms/Roller.java:18-22 | the roller holds the given motor |
| Roller.Roller.SetSpeedDutyCycle | Glitch/Lib/main/Glitch/Lib/BaseMechanisms/Roller.java:29-31 | the motor's duty cycle becomes the speed; velocity, position and feedforward are unchanged |
| Roller.Roller.SetSpeedVelocity | Glitch/Lib/main/Glitch/Lib/BaseMechanisms/Roller.java:38-40 | the motor's velocity becomes the speed; duty cycle, position and feedforward are unchanged |
| Roller.Roller.SetPosition | Glitch/Lib/main/Glitch/Lib/BaseMechanisms/Roller.java:47-49 | the motor reaches the position with a zero feedforward; duty cycle and velocity are unchanged |
| Pivot.FreshSetpointIsAtSetpoint | Glitch/Lib/main/Glitch/BaseMechanisms/Pivot.java:88-91 | a setpoint taken from the motor's own angle passes the at-setpoint test for every non-negative tolerance |
| Pivot.AtSetpointWindow | Glitch/Lib/main/Glitch/BaseMechanisms/Pivot.java:124-126 | the pivot is at its setpoint exactly when the motor angle (rotations times 360) is within the tolerance of the setpoint, both ends included |
| Pivot.SetpointTestIgnoresGoal | Glitch/Lib/main/Glitch/BaseMechanisms/Pivot.java:124-126 | with the motor at 0 rotations, a 90 degree goal and a 1 degree tolerance, the pivot reads at setpoint but is not at its goal |
| Pivot.AtGoalWindow | Glitch/Lib/main/Glitch/BaseMechanisms/Pivot.java:124-126 | the corrected test holds exactly when the motor angle is within the tolerance of the goal |
| Pivot.Pivot.constructor | Glitch/Lib/main/Glitch/BaseMechanisms/Pivot.java:41-63 | the pivot keeps the motor, zero angle, constraints, tolerance and gains; goal and setpoint start at rest at zero |
| Pivot.Pivot.WithoutFeedforward | Glitch/Lib/main/Glitch/BaseMechanisms/Pivot.java:74-81 | the five-argument constructor is the full constructor with every feedforward gain zero |
| Pivot.Pivot.SetPosition | Glitch/Lib/main/Glitch/BaseMechanisms/Pivot.java:88-91 | the goal becomes the angle at rest and the setpoint restarts at rest at the motor's angle; the pivot then reads at setpoint, and it is at its goal exactly when the motor is within the tolerance of the new goal |
| Pivot.Pivot.GoToSetpoint | Glitch/Lib/main/Glitch/BaseMechanisms/Pivot.java:105-113 | the motor is commanded to the setpoint divided by 360, with the arm feedforward of the setpoint's angle from horizontal and its velocities; duty, velocity, current and both limit switches are unchanged |
| Pivot.Pivot.SetDutyCycle | Glitch/Lib/main/Glitch/BaseMechanisms/Pivot.java:115-117 | only the motor's duty cycle changes |
| Pivot.Pivot.Periodic | Glitch/Lib/main/Glitch/BaseMechanisms/Pivot.java:148-156 | the setpoint advances one 0.02 s profile step toward the unchanged goal and the motor is commanded there; afterwards the pivot reads at setpoint; duty, velocity, current and both limit switches are unchanged |
| SimplePivot.CommandedIsAtTarget | Glitch/Lib/main/Glitch/Lib/BaseMechanisms/SimplePivot.java:113-115 | a motor commanded to target/360 rotations passes the at-setpoint test for every non-negative tolerance |
| SimplePivot.SimplePivot.constructor | Glitch/Lib/main/Glitch/Lib/BaseMechanisms/SimplePivot.java:36-53 | the pivot keeps the motor, zero angle, tolerance and gains; the target starts at zero |
| SimplePivot.SimplePivot.WithoutFeedforward | Glitch/Lib/main/Glitch/Lib/BaseMechanisms/SimplePivot.java:62-67 | the three-argument constructor is the full one with zero gains |
| SimplePivot.SimplePivot.SetPosition | Glitch/Lib/main/Glitch/Lib/BaseMechanisms/SimplePivot.java:74-76 | only the target changes; the motor is not commanded |
| SimplePivot.SimplePivot.GoToSetpoint | Glitch/Lib/main/Glitch/Lib/BaseMechanisms/SimplePivot.java:90-98 | the motor is commanded to target/360 with the holding feedforward at the angle from horizontal in radians and zero velocity; duty, velocity, current and both limit switches are unchanged |
| SimplePivot.SimplePivot.SetDutyCycle | Glitch/Lib/main/Glitch/Lib/BaseMechanisms/SimplePivot.java:100-102 | only the motor's duty cycle changes |
| SimplePivot.SimplePivot.Periodic | Glitch/Lib/main/Glitch/Lib/BaseMechanisms/SimplePivot.java:137-142 | every tick commands the target, so afterwards the pivot is at its target for every non-negative tolerance; duty, velocity, current and both limit switches are unchanged |
| LinearMechanism.ReachedGoalNotAtSetpointAsWritten | Glitch/Lib/BaseMechanisms/LinearMechanism.java:98-100 | as written, a 1 m goal reached exactly with 2 rotations per meter never reads at setpoint under a 0.1 m tolerance, and the reported position is 4 m |
| LinearMechanism.MetersOf | Glitch/Lib/BaseMechanisms/LinearMechanism.java:87-91 | converting rotations back to meters inverts the command's meters-to-rotations scaling |
| LinearMechanism.CorrectedRoundTrip | Glitch/Lib/BaseMechanisms/LinearMechanism.java:87-100 | a commanded position reads back as itself in meters, and the corrected test passes at the goal for every positive tolerance |
| LinearMechanism.LinearMechanism.constructor | Glitch/Lib/BaseMechanisms/LinearMechanism.java:41-63 | the mechanism keeps the motor, constraints, tolerance, conversion factor and gains; goal and setpoint start at rest at zero |
| LinearMechanism.LinearMechanism.SetPosition | Glitch/Lib/BaseMechanisms/LinearMechanism.java:70-73 | the goal becomes the position at rest, and the setpoint restarts at rest at the raw motor position |
| LinearMechanism.LinearMechanism.SetMotorFFAndPIDPosition | Glitch/Lib/BaseMechanisms/LinearMechanism.java:87-91 | the motor gets meters times rotations-per-meter with the elevator feedforward from the motor velocity to the setpoint velocity; duty, velocity, current and both limit switches are unchanged |
| LinearMechanism.LinearMechanism.Periodic | Glitch/Lib/BaseMechanisms/LinearMechanism.java:122-130 | the setpoint advances one profile step toward the unchanged goal, the motor is commanded there, and for a non-zero factor the motor reads back the setpoint in meters; duty, velocity, current and both limit switches are unchanged |
| MaxSwerve.GearConstants | Glitch/Lib/Swerve/MAXSwerve.java:72-91 | with a 14-tooth pinion the reduction is 33:7, the free speed 97 rot/s, the wheel 0.0739 m; the velocity factors are the position factors per minute, and the top wheel speed is free speed times the distance per rotation |
| MaxSwerve.TranslationsFollowModuleOrder | Glitch/Lib/Swerve/MAXSwerve.java:42-47 | there are four module translations, each half the chassis width from both axes; modules 0 and 1 are in front and 0 and 2 on the left |
| MaxSwerve.SteerReferenceUndoesOffset | Glitch/Lib/Swerve/MAXSwerve.java:188-191 | commanding the corrected steer angle sends back the raw encoder angle, wrapped |
| MaxSwerve.ModuleState.constructor | Glitch/Lib/Swerve/MAXSwerve.java:264 | a new module state holds the given speed and angle |
| MaxSwerve.MaxSwerve.constructor | Glitch/Lib/Swerve/MAXSwerve.java:108-185 | the module keeps its ids, offset and library functions; the target state is fresh, at zero speed, with the encoder angle in simulation and zero on hardware; no command has been sent yet |
| MaxSwerve.MaxSwerve.HeadingErrorFrom | Glitch/Lib/Swerve/MAXSwerve.java:212-214 | in simulation the heading error is zero |
| MaxSwerve.MaxSwerve.CommandedFrom | Glitch/Lib/Swerve/MAXSwerve.java:221-229 | a commanded state has the optimised angle; in simulation it is exactly the optimised state, unscaled |
| MaxSwerve.MaxSwerve.GetHeadingError | Glitch/Lib/Swerve/MAXSwerve.java:212-214 | in simulation the module's heading error is always zero |
| MaxSwerve.MaxSwerve.GetState | Glitch/Lib/Swerve/MAXSwerve.java:194-197 | in simulation the module returns its target object itself; on hardware it returns a fresh state of the encoder velocity and corrected steer angle |
| MaxSwerve.MaxSwerve.GetPosition | Glitch/Lib/Swerve/MAXSwerve.java:205-209 | in simulation the integrated distance and the target's angle; on hardware the drive encoder distance |
| MaxSwerve.MaxSwerve.OptimizeAndScale | Glitch/Lib/Swerve/MAXSwerve.java:224-229 | the caller's state is optimised in place, and its speed is scaled by the cosine of the heading error |
| MaxSwerve.MaxSwerve.SetTargetState | Glitch/Lib/Swerve/MAXSwerve.java:221-250 | the caller's state object becomes the target; the drive gets a closed-loop velocity with feedforward or an open-loop voltage, and the steer gets the angle minus the offset, wrapped; in simulation the distance grows by speed times 0.02 s; the encoders are unchanged |
| MaxSwerve.MaxSwerve.Dispatch | Glitch/Lib/Swerve/MAXSwerve.java:232-249 | the drive and steer commands, the recorded target and the simulated distance update of a state already optimised |
| MaxSwerve.MaxSwerve.SetTargetStateOptimized | Glitch/Lib/Swerve/MAXSwerve.java:216-218 | the two-argument overload always optimises, and otherwise behaves as the three-argument one |
| MaxSwerve.MaxSwerve.SetX | Glitch/Lib/Swerve/MAXSwerve.java:263-265 | a fresh zero-speed target at pi/4 plus the offset, optimised, with an open-loop feedforward voltage and a steer reference for that angle; the simulated distance and the encoder readings stay |
| MaxSwerve.MaxSwerve.SetO | Glitch/Lib/Swerve/MAXSwerve.java:268-271 | a fresh zero-speed target at 3pi/4 plus the offset, optimised, open loop, with a steer reference for that angle; the simulated distance and the encoder readings stay |
| MaxSwerve.MaxSwerve.ResetEncoder | Glitch/Lib/Swerve/MAXSwerve.java:274-277 | the drive encoder is zeroed, and in simulation so is the integrated distance; nothing else changes |
| RevSwerve.Ordinal | Glitch/Lib/main/Glitch/Lib/Swerve/RevSwerve.java:26-32 | every location's ordinal is a valid module index |
| RevSwerve.OrdinalsAreIndices | Glitch/Lib/main/Glitch/Lib/Swerve/RevSwerve.java:26-32 | the four locations are numbered 0 to 3 in declaration order, without gaps or repeats |
| RevSwerve.SimGyro.constructor | Glitch/Lib/main/Glitch/Lib/Swerve/RevSwerve.java:58-60 | the staged and reported headings start at zero |
| RevSwerve.SimGyro.SetNextHeading | Glitch/Lib/main/Glitch/Lib/Swerve/RevSwerve.java:67-69 | only the staged heading changes |
| RevSwerve.SimGyro.ApplyNextHeading | Glitch/Lib/main/Glitch/Lib/Swerve/RevSwerve.java:71-73 | the reported heading becomes the staged one |
| RevSwerve.SimGyro.Reset | Glitch/Lib/main/Glitch/Lib/Swerve/RevSwerve.java:62-65 | both headings are zero |
| RevSwerve.RevSwerve.constructor | Glitch/Lib/main/Glitch/Lib/Swerve/RevSwerve.java:84-115 | four fresh, distinct modules, each at its location's index with its own CAN ids, their simulated distances at zero, and a zeroed simulated gyro |
| RevSwerve.RevSwerve.InitSwerveModules | Glitch/Lib/main/Glitch/Lib/Swerve/RevSwerve.java:118-123 | each location gets one fresh module, stored at its ordinal, with the ids of that location |
| RevSwerve.RevSwerve.ZeroHeading | Glitch/Lib/main/Glitch/Lib/Swerve/RevSwerve.java:167-171 | the navX and both simulated headings are zero, so the heading reads zero |
| RevSwerve.RevSwerve.SetNextSimHeading | Glitch/Lib/main/Glitch/Lib/Swerve/RevSwerve.java:190-193 | a heading is staged and the reported heading does not move |
| RevSwerve.RevSwerve.ApplySimHeading | Glitch/Lib/main/Glitch/Lib/Swerve/RevSwerve.java:198-200 | the staged heading becomes the reported one, which in simulation is the drive's heading |
| RevSwerve.RevSwerve.GetModulePositions | Glitch/Lib/main/Glitch/Lib/Swerve/RevSwerve.java:130-138 | a fresh four-entry array of the modules' positions in module order, also stored in the cache |
| RevSwerve.RevSwerve.GetModuleStates | Glitch/Lib/main/Glitch/Lib/Swerve/RevSwerve.java:145-153 | a fresh four-entry array matching the cache; in simulation the entries are the modules' own target objects |
| RevSwerve.RevSwerve.Desaturate | Glitch/Lib/main/Glitch/Lib/Swerve/RevSwerve.java:223 | each desired state's speed becomes the desaturated speed at its index; its angle is unchanged |
| RevSwerve.RevSwerve.SetModuleStates | Glitch/Lib/main/Glitch/Lib/Swerve/RevSwerve.java:222-229 | module i receives desired[i] after desaturation to the top wheel speed, closed loop and optimised, and holds that object as its target |
| RevSwerve.RevSwerve.CommandAll | Glitch/Lib/main/Glitch/Lib/Swerve/RevSwerve.java:224-228 | every module in index order is commanded with its own desired state: drive reference, steer reference, and encoder readings unchanged |
| RevSwerve.RevSwerve.CommandNext | Glitch/Lib/main/Glitch/Lib/Swerve/RevSwerve.java:225-227 | one loop pass: module i is commanded, the earlier modules keep their commands, the later ones are untouched |
| RevSwerve.RevSwerve.CommandModule | Glitch/Lib/main/Glitch/Lib/Swerve/RevSwerve.java:226 | one module's closed-loop, optimised command with a state object it does not already hold, its steer reference set and its encoder readings unchanged |
| RevSwerve.RevSwerve.SetChassisSpeeds | Glitch/Lib/main/Glitch/Lib/Swerve/RevSwerve.java:212-220 | each module gets a fresh state from the kinematics, desaturated and commanded as above; in simulation the staged heading advances by the turn rate times 0.02 s; the reported heading stays |
| RevSwerve.RevSwerve.NewStates | Glitch/Lib/main/Glitch/Lib/Swerve/RevSwerve.java:213 | four fresh, distinct state objects holding the kinematics' values |
| SparkConfigurator.SparkConfig.constructor | Glitch/Lib/Motors/SparkConfigurator.java:184-197 | a new configuration has no period set and no follow setting |
| SparkConfigurator.SparkConfig.SetFollow | Glitch/Lib/Motors/SparkConfigurator.java:115 | the follow setting names the leader and the inversion; the periods are unchanged |
| SparkConfigurator.Spark.constructor | Glitch/Lib/Motors/SparkConfigurator.java:184-197 | a new controller has received nothing |
| SparkConfigurator.Spark.Configure | Glitch/Lib/Motors/SparkConfigurator.java:169 | the controller takes over the configuration's periods and follow setting, and counts one more configure call |
| SparkConfigurator.ComputeLeaderStatus | Glitch/Lib/Motors/SparkConfigurator.java:68-96 | the leader's status array is the decision table `LeaderStatus` |
| SparkConfigurator.LeaderStatusTable | Glitch/Lib/Motors/SparkConfigurator.java:68-96 | seven groups: group 0 always fast; group 1 fast iff velocity, voltage or current is logged; group 2 fast iff position is logged, 3 iff an analog sensor is fitted, 4 iff an alternate encoder is fitted; 5 fast iff an absolute encoder is fitted and position is logged, 6 iff an absolute encoder is fitted and velocity is logged; nothing fitted and nothing logged gives FAST, SLOW, SLOW, OFF, OFF, OFF, OFF |
| SparkConfigurator.WriteFromIdempotent | Glitch/Lib/Motors/SparkConfigurator.java:144-168 | entering the fall-through switch twice at the same case with the same period is the same as entering it once |
| SparkConfigurator.RepeatIsOnce | Glitch/Lib/Motors/SparkConfigurator.java:98-105 | any positive number of retries acts as one |
| SparkConfigurator.ApplyAscendingShape | Glitch/Lib/Motors/SparkConfigurator.java:98-105 | after rounds 0..n-1 the groups before n hold their own periods and every later group holds the period of round n-1 |
| SparkConfigurator.AscendingGivesEachGroupItsOwn | Glitch/Lib/Motors/SparkConfigurator.java:98-105 | after all seven rounds every group holds exactly its own period |
| SparkConfigurator.ConfigLogging | Glitch/Lib/Motors/SparkConfigurator.java:143-170 | every group from case i on gets status[i], then the controller is configured with the result |
| SparkConfigurator.ApplyStatus | Glitch/Lib/Motors/SparkConfigurator.java:98-105 | the seven rounds with retries leave each group at its own period, and the controller holds that configuration after 7 times the retry count configure calls |
| SparkConfigurator.SetupLogging | Glitch/Lib/Motors/SparkConfigurator.java:57-107 | every group's period is the leader table's, the controller holds it, the follow setting is unchanged, and 35 configure calls were made |
| SparkConfigurator.SetupLoggingFollower | Glitch/Lib/Motors/SparkConfigurator.java:109-140 | the follow setting names the leader; every group holds the follower table's period; 36 configure calls were made |
| Vision.Latest | Glitch/Lib/main/Glitch/Lib/Vision/Vision.java:203-205 | a frame exists iff the read succeeded with a non-empty list, and it is the last result read |
| Vision.CountAccepted | Glitch/Lib/main/Glitch/Lib/Vision/Vision.java:207-213 | at most one accepted target per target scanned |
| Vision.AbortStops | Glitch/Lib/main/Glitch/Lib/Vision/Vision.java:214-222 | once an exception has ended a camera's scan, later targets add nothing |
| Vision.ScanExtends | Glitch/Lib/main/Glitch/Lib/Vision/Vision.java:207-222 | the measurements of the later targets extend those of the earlier ones; an exception does not remove them |
| Vision.ScanBound | Glitch/Lib/main/Glitch/Lib/Vision/Vision.java:207-219 | one measurement at most per target that passes the filter, each stamped with the frame's stamp |
| Vision.NoneAcceptedNoneOut | Glitch/Lib/main/Glitch/Lib/Vision/Vision.java:213 | a frame in which no target passes the ambiguity and distance filter yields nothing |
| Vision.OlderResultsIgnored | Glitch/Lib/main/Glitch/Lib/Vision/Vision.java:203-205 | only the last unread result contributes; older ones are read and dropped |
| Vision.SilentCameras | Glitch/Lib/main/Glitch/Lib/Vision/Vision.java:203-206 | a camera whose read throws, which has nothing unread, or whose latest frame has no targets adds nothing |
| Vision.DrainInCameraOrder | Glitch/Lib/main/Glitch/Lib/Vision/Vision.java:199-225 | the drain is the concatenation of the cameras' outputs in configuration order |
| Vision.CameraBound | Glitch/Lib/main/Glitch/Lib/Vision/Vision.java:203-219 | a camera adds at most one measurement per target of its latest frame, each with that frame's stamp (the clock in simulation, the capture time otherwise) |
| Vision.DrainBound | Glitch/Lib/main/Glitch/Lib/Vision/Vision.java:311-340 | at most one measurement per target of the latest frames, and in simulation every stamp is the clock |
| Vision.RealStampsAreCaptureTimes | Glitch/Lib/main/Glitch/Lib/Vision/Vision.java:217 | on the real provider every measurement carries its frame's capture time |
| Vision.StartPoseIsFirstCandidate | Glitch/Lib/main/Glitch/Lib/Vision/Vision.java:228-249 | the start pose is empty iff no camera has a candidate; otherwise it is the first candidate in camera order |
| Vision.PendingOf | Glitch/Lib/main/Glitch/Lib/Vision/Vision.java:203 | one pending read per camera, as that camera would return it |
| Vision.StartPoseStays | Glitch/Lib/main/Glitch/Lib/Vision/Vision.java:238-243 | once a start pose is found, later cameras do not change it |
| Vision.Camera.constructor | Glitch/Lib/main/Glitch/Lib/Vision/Vision.java:174-178 | a new camera has its configuration and an empty queue |
| Vision.Camera.GetAllUnreadResults | Glitch/Lib/main/Glitch/Lib/Vision/Vision.java:203 | the read returns the pending results and clears the queue; a failing read throws and keeps it |
| Vision.Provider.Pending | Glitch/Lib/main/Glitch/Lib/Vision/Vision.java:203 | what each camera's read would return, in camera order |
| Vision.Provider.constructor | Glitch/Lib/main/Glitch/Lib/Vision/Vision.java:183-191 | one fresh camera per configuration entry, in order, each with an empty queue |
| Vision.Provider.DrainMeasurements | Glitch/Lib/main/Glitch/Lib/Vision/Vision.java:199-225 | the result is the drain specification over every camera's pending read; every camera that did not throw has an empty queue afterwards |
| Vision.Provider.DrainAt | Glitch/Lib/main/Glitch/Lib/Vision/Vision.java:202-222 | one pass of the drain loop: the camera's queue is read (and cleared unless the read throws) and the drain grows to cover one more camera |
| Vision.Provider.DrainCamera | Glitch/Lib/main/Glitch/Lib/Vision/Vision.java:202-222 | one camera's output is appended to what was drained before |
| Vision.Provider.BestStartPose | Glitch/Lib/main/Glitch/Lib/Vision/Vision.java:228-249 | the result is the first camera's candidate: when one is found, no camera before the one that returned had a candidate and that one did; only the cameras up to it were read, the rest keep their queues |
| Vision.Provider.SearchCameras | Glitch/Lib/main/Glitch/Lib/Vision/Vision.java:229-248 | the camera loop returns what the forward search over the queued frames gives, reading each camera up to the first with a candidate |
| Vision.Provider.StartPoseAt | Glitch/Lib/main/Glitch/Lib/Vision/Vision.java:230-246 | one pass of the loop: camera c's queue is drained unless it is failing, and its candidate is returned |
| Vision.SearchFindsFirst | Glitch/Lib/main/Glitch/Lib/Vision/Vision.java:229-248 | searching from a point with no candidate yet returns the start pose; when it finds one, the camera before its stop had none and its stop has one; when not, it read all cameras |
| Vision.Provider.CameraCandidate | Glitch/Lib/main/Glitch/Lib/Vision/Vision.java:231-243 | one camera's candidate: its latest frame's best target with a known tag, solved to a field pose |
| Colors.LitIffNotBlack | Glitch/Lib/main/Glitch/Lib/LEDS/GlitchLEDPatterns.java:431 | with non-negative channels, a non-zero channel sum is the same as not black |
| Colors.CountLit | Glitch/Lib/main/Glitch/Lib/LEDS/GlitchLEDPatterns.java:430-434 | the lit count is at most the buffer length |
| Colors.CountLitZero | Glitch/Lib/main/Glitch/Lib/LEDS/GlitchLEDPatterns.java:436 | the count is zero iff no pixel is lit |
| Colors.CountLitPixels | Glitch/Lib/main/Glitch/Lib/LEDS/GlitchLEDPatterns.java:430-434 | the counting loop returns the number of lit pixels |
| LedPatterns.Truncate | Glitch/Lib/main/Glitch/Lib/LEDS/GlitchLEDPatterns.java:283 | the long cast rounds toward zero: the result is within one of its argument, below it for positive values and above for negative |
| LedPatterns.JavaRem | Glitch/Lib/main/Glitch/Lib/LEDS/GlitchLEDPatterns.java:288 | Java's remainder takes the sign of the dividend and is smaller than the divisor in magnitude |
| LedPatterns.WindowMeans | Glitch/Lib/main/Glitch/Lib/LEDS/GlitchLEDPatterns.java:288-289 | for a non-negative clock and a positive period, the gate is open iff the clock modulo the period is strictly between 0 and 39000 us |
| LedPatterns.TinyPeriodNeverWrites | Glitch/Lib/main/Glitch/Lib/LEDS/GlitchLEDPatterns.java:288-289 | a period of at most 1 us never opens the gate |
| LedPatterns.DefaultPeriods | Glitch/Lib/main/Glitch/Lib/LEDS/GlitchLEDPatterns.java:387-409 | the default old fire and fire periods are 110000 us and the noise period is 50000 us; the one-argument fire has no shift |
| LedPatterns.OldFireOverlay | Glitch/Lib/main/Glitch/Lib/LEDS/GlitchLEDPatterns.java:235-258 | a zero period throws and writes nothing; outside the gate nothing is written; inside it every pixel is the base colour or black by the 1.275 threshold |
| LedPatterns.OldFirePixelChoices | Glitch/Lib/main/Glitch/Lib/LEDS/GlitchLEDPatterns.java:250-254 | an old fire pixel is its base colour or black, and the first pixel stays lit under a flicker of at most 0.85 |
| LedPatterns.DampFloor | Glitch/Lib/main/Glitch/Lib/LEDS/GlitchLEDPatterns.java:299 | the int cast of a scaled channel is at most the scaled value |
| LedPatterns.DampBounds | Glitch/Lib/main/Glitch/Lib/LEDS/GlitchLEDPatterns.java:299-310 | damping never brightens a channel, leaves it whole for the first k times length pixels, and keeps zero at zero |
| LedPatterns.ShiftBounds | Glitch/Lib/main/Glitch/Lib/LEDS/GlitchLEDPatterns.java:297-312 | the shifted colour is no brighter than the base in any channel, keeps the target colour's own channel, and is the base colour on the first quarter of the strip |
| LedPatterns.FirePixelChoices | Glitch/Lib/main/Glitch/Lib/LEDS/GlitchLEDPatterns.java:355-375 | a fire pixel is its shifted colour or black; with zero energy it is black; inside the flame with positive energy and a draw below 0.8 it is lit |
| LedPatterns.FireOverlay | Glitch/Lib/main/Glitch/Lib/LEDS/GlitchLEDPatterns.java:276-379 | a zero period throws and writes nothing; outside the gate nothing is written; inside it every pixel is the fire rule's colour |
| LedPatterns.NoiseRuleIsXor | Glitch/Lib/main/Glitch/Lib/LEDS/GlitchLEDPatterns.java:452-470 | the population table lights an interior pixel iff exactly one of its neighbours is lit; the middle pixel does not matter |
| LedPatterns.Chosen | Glitch/Lib/main/Glitch/Lib/LEDS/GlitchLEDPatterns.java:474 | a draw in [0, 1) picks a pixel inside the strip |
| LedPatterns.RandomNoiseOverlay | Glitch/Lib/main/Glitch/Lib/LEDS/GlitchLEDPatterns.java:418-484 | a zero period throws; outside the gate nothing is written; inside it an all-dark reader gets the pattern, otherwise the writer holds the noise frame |
| LedPatterns.NeighbourPass | Glitch/Lib/main/Glitch/Lib/LEDS/GlitchLEDPatterns.java:440-472 | interior pixels follow the neighbour rule and the two ends are not written |
| LedPatterns.NoiseFrame | Glitch/Lib/main/Glitch/Lib/LEDS/GlitchLEDPatterns.java:440-477 | the noise frame has the reader's length |
| LedPatterns.NoiseFrameShape | Glitch/Lib/main/Glitch/Lib/LEDS/GlitchLEDPatterns.java:440-477 | the chosen pixel shows its base colour, other interior pixels follow the XOR rule, and the ends keep their prior colour |
| LegacyPatterns.FireOverlay | Glitch/Lib/main/Glitch/Lib/GlitchLEDPatterns.java:221-242 | a zero period throws; outside the gate nothing is written; inside it each pixel is the reader's colour or black by the 1.275 threshold |
| LegacyPatterns.NoiseStepWrites | Glitch/Lib/main/Glitch/Lib/GlitchLEDPatterns.java:273-283 | every pixel ends as its own colour or black, never its prior one; the two branch conditions decide which |
| LegacyPatterns.NoiseRun | Glitch/Lib/main/Glitch/Lib/GlitchLEDPatterns.java:273-283 | the run writes exactly k pixels |
| LegacyPatterns.NoiseOwnOrBlack | Glitch/Lib/main/Glitch/Lib/GlitchLEDPatterns.java:273-283 | the noise overlay introduces no colour: each pixel is the reader's own or black |
| LegacyPatterns.NoiseCountDrift | Glitch/Lib/main/Glitch/Lib/GlitchLEDPatterns.java:268-283 | after k pixels the running count is within k of the lit count it started from |
| LegacyPatterns.RandomNoiseOverlay | Glitch/Lib/main/Glitch/Lib/GlitchLEDPatterns.java:258-286 | a zero period throws; outside the gate nothing is written; inside it the writer holds the noise run over the pattern |
| LegacyPatterns.NoisePass | Glitch/Lib/main/Glitch/Lib/GlitchLEDPatterns.java:273-283 | the pixel loop leaves exactly the noise run in the writer |
| LegacyPatterns.LegacyDefaultPeriods | Glitch/Lib/main/Glitch/Lib/GlitchLEDPatterns.java:248-250 | the one-argument overloads use 0.07 s for fire and 0.05 s for random noise, which are 70000 and 50000 microseconds |
| LegacyPatterns.DefaultFireOverlay | Glitch/Lib/main/Glitch/Lib/GlitchLEDPatterns.java:248-250 | `fire(pattern)` is the fire overlay with a 70000 µs period: it never throws, writes nothing outside the gate, and applies the 1.275 fire rule inside it |
| LegacyPatterns.DefaultRandomNoiseOverlay | Glitch/Lib/main/Glitch/Lib/GlitchLEDPatterns.java:292-294 | `randomNoise(pattern)` is the noise overlay with a 50000 µs period: it never throws, writes nothing outside the gate, and leaves the noise run inside it |
| LedSections.Carve | Glitch/Lib/main/Glitch/Lib/LEDS/AbstractLEDS.java:120-136 | a successful carving of k lengths has k sections |
| LedSections.CarveNext | Glitch/Lib/main/Glitch/Lib/LEDS/AbstractLEDS.java:129-135 | the running index after k accepted sections is their total size |
| LedSections.CarveAccepts | Glitch/Lib/main/Glitch/Lib/LEDS/AbstractLEDS.java:122-136 | the carving succeeds iff every section is non-empty and passes the check at its running index |
| LedSections.CarveBounds | Glitch/Lib/main/Glitch/Lib/LEDS/AbstractLEDS.java:129-135 | accepted sections lie back to back in argument order; a negative length gives a reversed view |
| LedSections.CarveShape | Glitch/Lib/main/Glitch/Lib/LEDS/AbstractLEDS.java:120-136 | acceptance and the bounds of every section, together |
| LedSections.CarveError | Glitch/Lib/main/Glitch/Lib/LEDS/AbstractLEDS.java:123-128 | the first section that is empty or fails the check decides the exception |
| LedSections.UncheckedRefusesOnlyEmpty | Glitch/Lib/main/Glitch/LEDs/LEDS.java:105-116 | the earlier strip refuses a layout iff some section is empty |
| LedSections.AsWrittenOnlyLastOverruns | Glitch/Lib/main/Glitch/Lib/LEDS/AbstractLEDS.java:126-128 | in an accepted layout every section after the first starts inside the strip, and every forward section ends inside it; only a final reversed section can run past the end |
| LedSections.ReversedOverrunAccepted | Glitch/Lib/main/Glitch/Lib/LEDS/AbstractLEDS.java:126-131 | the library's own overrun check accepts one reversed section of 15 on a 10-LED strip, whose view runs from 14 down to 0 past the end |
| LedSections.CorrectedFits | Glitch/Lib/main/Glitch/Lib/LEDS/AbstractLEDS.java:126-128 | with the corrected test every accepted section lies inside the strip |
| LedSections.ChecksAgreeWhenFitting | Glitch/Lib/main/Glitch/Lib/LEDS/AbstractLEDS.java:122-136 | on non-empty layouts whose total fits the strip, the written and the corrected tests carve the same sections |
| LedSections.KeptBeforeExpiry | Glitch/Lib/main/Glitch/Lib/LEDS/AbstractLEDS.java:80-86 | a timed pattern is kept, with the elapsed time counting up, while the steps stay short of the duration |
| LedSections.ExpiresAt | Glitch/Lib/main/Glitch/Lib/LEDS/AbstractLEDS.java:80-86 | the first step that reaches the duration installs the base pattern forever, and later steps keep it |
| LedSections.StaysInfinite | Glitch/Lib/main/Glitch/Lib/LEDS/AbstractLEDS.java:81 | once the duration is infinite, further updates change nothing |
| LedSections.Section.constructor | Glitch/Lib/main/Glitch/Lib/LEDS/AbstractLEDS.java:26-38 | a new section shows the off pattern forever, has no base pattern and has shown nothing |
| LedSections.Section.SetPattern | Glitch/Lib/main/Glitch/Lib/LEDS/AbstractLEDS.java:45-49 | the pattern and duration are set and the elapsed time restarts; the base pattern stays |
| LedSections.Section.SetPatternForever | Glitch/Lib/main/Glitch/Lib/LEDS/AbstractLEDS.java:55-57 | the pattern is shown with the infinite duration |
| LedSections.Section.SetBase | Glitch/Lib/main/Glitch/Lib/LEDS/AbstractLEDS.java:63-69 | a non-null argument becomes the base pattern; a null one leaves the base as it was |
| LedSections.Section.Update | Glitch/Lib/main/Glitch/Lib/LEDS/AbstractLEDS.java:80-89 | the timer takes one step; a null pattern then throws, otherwise the pattern is shown |
| LedSections.UpdateAll | Glitch/Lib/main/Glitch/Lib/LEDS/AbstractLEDS.java:174-184 | sections update in order until one throws on a null pattern; each earlier section now shows its pattern, the throwing and later ones keep what they showed and the later ones keep their timers |
| LedStrips.LedStrip.constructor | Glitch/Lib/main/Glitch/Lib/LEDS/AbstractLEDS.java:115-119 | the strip keeps its length, sections and port |
| LedStrips.LedStrip.NewAbstract | Glitch/Lib/main/Glitch/Lib/LEDS/AbstractLEDS.java:115-137 | a negative length throws; otherwise the strip succeeds iff the checked carving does, with fresh sections in the carved bounds, each off forever, and no strip object |
| LedStrips.LedStrip.NewOnPort | Glitch/Lib/main/Glitch/Lib/LEDS.java:114-142 | the same carving as the abstract strip, with the strip object on the port |
| LedStrips.LedStrip.NewUnchecked | Glitch/Lib/main/Glitch/LEDs/LEDS.java:97-122 | only empty sections are refused, and the strip object is on the port |
| LedStrips.LedStrip.InitializeLeds | Glitch/Lib/main/Glitch/Lib/LEDS/AbstractLEDS.java:143-149 | afterwards a strip object exists on the given port |
| LedStrips.LedStrip.DisableLeds | Glitch/Lib/main/Glitch/Lib/LEDS/AbstractLEDS.java:151-156 | afterwards no strip object exists |
| LedStrips.LedStrip.Periodic | Glitch/Lib/main/Glitch/Lib/LEDS/AbstractLEDS.java:174-184 | every section takes a 0.02 s step in order until one throws on a null pattern; the throwing section is the first whose pattern is null after its step, every earlier one holds a pattern, the later sections are untouched, every section before the throwing one shows its pattern while the others keep what they showed, and no base pattern changes |
| LedStrips.BuildSections | Glitch/Lib/main/Glitch/Lib/LEDS/AbstractLEDS.java:120-136 | the constructor loop yields exactly the carving: the same error, or fresh, distinct sections in the carved bounds |
| LedStrips.CarveStops | Glitch/Lib/main/Glitch/Lib/LEDS/AbstractLEDS.java:123-128 | an exception at section k is the exception of the whole constructor |
| FakeLeds.FakeLayout | Glitch/Lib/main/Glitch/Lib/LEDS/FakeLEDS.java:13 | the example strip carves [0..24], the reversed [49..25] and [50..99], and the corrected test agrees |
| FakeLeds.StartLastsTwoSeconds | Glitch/Lib/main/Glitch/Lib/LEDS/FakeLEDS.java:25-29 | purple survives 99 periodic updates, and from the 100th on the base pattern is shown forever |
| FakeLeds.FakeStrip.constructor | Glitch/Lib/main/Glitch/Lib/LEDS/FakeLEDS.java:12-23 | three sections in the carved bounds, each with the fun-gradient fire shifted toward red, green or blue as its base, each still off |
| FakeLeds.FakeStrip.Start | Glitch/Lib/main/Glitch/Lib/LEDS/FakeLEDS.java:25-29 | every section holds purple for 2 s from now; its base pattern and what it shows are unchanged until the next periodic step |
| BaseLeds.ViewTargets | Glitch/Lib/BaseMechanisms/LEDs.java:30-32 | a view inside the buffer addresses distinct pixels, from its start to its end |
| BaseLeds.WholeTargets | Glitch/Lib/BaseMechanisms/LEDs.java:126-127 | the whole buffer addresses each pixel once |
| BaseLeds.FlickerAll | Glitch/Lib/BaseMechanisms/LEDs.java:127-131 | the flickered target has the target's length |
| BaseLeds.FlickerChoices | Glitch/Lib/BaseMechanisms/LEDs.java:128-130 | a fire pixel is its colour or black; it is black past 1.3 times the divisor for a non-negative flicker, and the first pixel is kept under a flicker of at most 0.85 |
| BaseLeds.FireTailBurnsOut | Glitch/Lib/BaseMechanisms/LEDs.java:127-131 | with the divisor 36 every pixel from index 47 on is black |
| BaseLeds.NoiseStepChoices | Glitch/Lib/BaseMechanisms/LEDs.java:208-215 | a noise pixel ends as its prior colour, the scratch colour or black; the count stays non-negative; with nothing lit and a high draw the pixel takes the scratch colour and the count becomes 1 |
| BaseLeds.NoiseRun | Glitch/Lib/BaseMechanisms/LEDs.java:207-216 | the run writes exactly k pixels |
| BaseLeds.NoiseChoices | Glitch/Lib/BaseMechanisms/LEDs.java:207-216 | every pixel ends as its prior colour, the scratch colour or black |
| BaseLeds.NoiseCountNonNegative | Glitch/Lib/BaseMechanisms/LEDs.java:202-216 | with draws from [0, 1), the running count of lit pixels never goes negative |
| BaseLeds.NoiseNeverRuns | Glitch/Lib/BaseMechanisms/LEDs.java:170-189 | on a new subsystem both `activateRandomNoise` variants throw on the null scratch buffer |
| BaseLeds.Leds.constructor | Glitch/Lib/BaseMechanisms/LEDs.java:111-119 | a new subsystem has a black buffer of the given length, the default pattern, and no scratch buffer |
| BaseLeds.Leds.Create | Glitch/Lib/BaseMechanisms/LEDs.java:111-119 | the constructor throws iff the length is negative; otherwise the buffer has that length |
| BaseLeds.Leds.Paint | Glitch/Lib/BaseMechanisms/LEDs.java:126 | the pattern's colours land on the target and nothing else changes |
| BaseLeds.Leds.BlackOut | Glitch/Lib/BaseMechanisms/LEDs.java:127-131 | the target holds the flickered colours and nothing else changes |
| BaseLeds.Leds.FireOver | Glitch/Lib/BaseMechanisms/LEDs.java:125-132 | a null pattern throws and changes nothing; otherwise the target holds the flickered pattern |
| BaseLeds.Leds.FireAnimation | Glitch/Lib/BaseMechanisms/LEDs.java:125-132 | the fire over the whole buffer with the divisor 36 |
| BaseLeds.Leds.FireAnimationOnView | Glitch/Lib/BaseMechanisms/LEDs.java:140-147 | the fire over one view with the divisor 36 |
| BaseLeds.Leds.FireAnimationOnSection | Glitch/Lib/BaseMechanisms/LEDs.java:154-162 | the fire over the section's view with the divisor 14 |
| BaseLeds.Leds.ActivateOver | Glitch/Lib/BaseMechanisms/LEDs.java:170-176 | a null pattern throws; a null scratch buffer throws after the target was painted; otherwise the target holds the noise run; the outer elapsed time is unchanged |
| BaseLeds.Leds.ActivateRandomNoise | Glitch/Lib/BaseMechanisms/LEDs.java:170-176 | the noise activation over the whole buffer |
| BaseLeds.Leds.ActivateRandomNoiseOnView | Glitch/Lib/BaseMechanisms/LEDs.java:183-189 | the noise activation over one view |
| BaseLeds.Leds.ActivateOverCorrected | Glitch/Lib/BaseMechanisms/LEDs.java:170-176 | with a missing scratch buffer allocated first, every non-null pattern succeeds and the target holds the noise run |
| BaseLeds.Leds.RunNoise | Glitch/Lib/BaseMechanisms/LEDs.java:199-217 | after painting, the scratch buffer holds the pattern and the target holds the noise run over what was painted |
| BaseLeds.Leds.RandomNoiseAnimation | Glitch/Lib/BaseMechanisms/LEDs.java:199-217 | the scratch buffer holds the pattern, and the target holds the noise run over its own prior colours |
| BaseLeds.Leds.NoisePass | Glitch/Lib/BaseMechanisms/LEDs.java:207-216 | the pixel loop leaves exactly the noise run on the target and nothing else changes |
| BaseLeds.Leds.NoiseAt | Glitch/Lib/BaseMechanisms/LEDs.java:208-215 | one loop pass extends the run by one pixel |
| BaseLeds.Leds.NoisePixel | Glitch/Lib/BaseMechanisms/LEDs.java:208-215 | one pixel takes the noise step's colour and count |
| BaseLeds.Section.constructor | Glitch/Lib/BaseMechanisms/LEDs.java:24-32 | a new section views its range and shows the default pattern forever, with the subsystem's elapsed time |
| BaseLeds.Section.SetPattern | Glitch/Lib/BaseMechanisms/LEDs.java:38-42 | the pattern and duration are set and the elapsed time restarts |
| BaseLeds.Section.SetPatternForever | Glitch/Lib/BaseMechanisms/LEDs.java:48-50 | the pattern is shown with the infinite duration |
| BaseLeds.Section.Update | Glitch/Lib/BaseMechanisms/LEDs.java:55-65 | one 0.02 s timer step falling back to the default pattern |
| BaseLeds.Section.UpdateWithLogic | Glitch/Lib/BaseMechanisms/LEDs.java:72-90 | the pattern never changes. Before expiry only the time moves. On expiry, "fire" runs the fire on the section's view, "noise" runs the noise on the whole buffer, and any other word changes no pixel. On success the timer becomes infinite; after a throw the timer is left with the incremented time; the strip's outer elapsed time is unchanged |

## Left out

- Hardware and I/O are not modelled: `AddressableLED`, `setData`, `start` and `close`, the Spark and navX drivers, NetworkTables logging, `System.out.println` and `Thread.sleep`. Where a strip object exists it is modelled only by its port.
- Floating point is not modelled: values are mathematical reals. Trigonometry, square roots and `Math.random` come in as parameters or input draws.
- The library algorithms come in as oracles, and the model proves only what follows from them: the motion profile, the feedforwards, `optimize`, `desaturateWheelSpeeds`, the kinematics, the PhotonVision solvers and `LEDPattern.applyTo`.
- Aliasing is not modelled: the overlays' reader and writer are distinct buffers here, while WPILib may pass the same buffer as both.
- WPILib's own range check of `createView` is not modelled. `BaseLeds.Section` requires its view to fit the buffer. `LedSections.Section` accepts any bounds, so where WPILib's `createView` throws `IndexOutOfBoundsException` on a view past the end (14 down to 0 on a 10-LED strip), the model builds the section and does not throw.
- The earlier copy `Glitch/Lib/LEDs/GlitchLEDPatterns.java` of the fire and noise overlays has the same bodies as `Glitch/Lib/main/Glitch/Lib/GlitchLEDPatterns.java`. `LegacyPatterns` models both, and its rows cite the latter.
- The `LEDS` and `AbstractLEDS` sections and their `update` are one model (`LedSections.Section`), because the bodies are the same.
- `SimplePivot.zeroEncoder` is not modelled. It calls `zeroPosition` on a motor type that does not declare it.
- The mechanisms' command factories (`WaitUntilCommand`, `runOnce`) and the SysId routines are scheduler plumbing and are not modelled. Their effects are the modelled setters and tests.
- `getChassisSpeeds`, `getVoltages`, `setBrakeMode` and the raw-voltage accessors are pass-throughs to the hardware and are not modelled.
- `linearProgress` and the named colour maps are static pattern constants of WPILib and are not modelled. They appear only by name (`Named`).
- `BaseLeds.Leds`: the periodic `setData` is I/O and is not modelled.
- BaseLeds.NoiseStep: when the count is zero, Java's `||` short-circuits and draws no coin. The model still consumes the coin at that index, which is harmless because the coin is unused.
- BaseLeds.Section.UpdateWithLogic: the `System.out.println` for an unknown logic word is output only; the model states that nothing else happens.
- LedStrips.LedStrip.Periodic: the final `setData` that pushes the buffer to the hardware strip is not modelled; the contract states each section's timer and shown pattern, not the LED buffer contents.
- MaxSwerve.MaxSwerve.GetPosition: on hardware only the distance is stated, because the angle is the corrected steer angle of a new `Rotation2d` and the wrap is an oracle.
- Vision.Provider.DrainMeasurements: in simulation the drain first calls `visionSim.update` with the reference pose, which generates the frames it then reads. The model takes the frames queued when the call starts as those generated frames. Each simulated measurement also reads the FPGA clock afresh, while the model stamps them all with one clock reading `now`.
- Vision.Provider.constructor: the simulated provider's `VisionSystemSim`, calibration and camera registration are simulation plumbing. The constructor states only the camera list.

## Findings

| source | as written | input that shows it | evidently intended | confidence | as-written member | corrected member |
|---|---|---|---|---|---|---|
| Glitch/Lib/main/Glitch/BaseMechanisms/Pivot.java:124-126 | `isAtSetpoint` compares the motor angle with the profiled setpoint, which `setPosition` has just set to the motor's own angle, so it is true straight after any new goal | motor at 0 rotations, `setPosition(90)`, tolerance 1 degree | the command waits until the pivot reaches the goal: compare the motor angle with the goal | not executed | Pivot.SetpointTestIgnoresGoal | Pivot.AtGoalWindow |
| Glitch/Lib/BaseMechanisms/LinearMechanism.java:98-100 | `isAtSetpoint` compares raw motor rotations with the goal in meters | 2 rotations per meter, goal 1 m, motor commanded to 2 rotations, tolerance 0.1 | convert the motor position to meters before comparing | not executed | LinearMechanism.ReachedGoalNotAtSetpointAsWritten | LinearMechanism.CorrectedRoundTrip |
| Glitch/Lib/main/Glitch/Lib/LEDS/AbstractLEDS.java:126-128 | the overrun test adds a negative length, so a reversed section never overruns | strip of 10, one section of -15: the library's own check accepts view 14 down to 0, and the strip is built without its `IllegalArgumentException` (WPILib's `createView` would then throw `IndexOutOfBoundsException` instead; the model does not throw) | refuse any section whose magnitude passes the end of the strip | not executed | LedSections.ReversedOverrunAccepted | LedSections.CorrectedFits |
| Glitch/Lib/BaseMechanisms/LEDs.java:170-189 | `fakeBuffer` is never assigned, so `fakeBuffer.getLength()` throws before the buffer can be created | any `activateRandomNoise` call on a new subsystem | allocate the scratch buffer when it is missing or of the wrong size | not executed | BaseLeds.NoiseNeverRuns | BaseLeds.Leds.ActivateOverCorrected |
