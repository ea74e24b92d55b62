# Swerve drivetrain command layer (mentorbot `subsystems/drivesubsystem.py`)

This project models the per-wheel command and unit-conversion layer of a four-module swerve
drivetrain, and the orchestration in `DriveSubsystem` that drives it.

- **Module contract.** `SwerveModule` is the abstract base class. The drivetrain commands every
  wheel through it: read the steering angle, wheel velocity and total wheel distance; send a
  steering-angle target and a wheel-speed target; reset against the absolute sensor.
  `applyState` is its dispatch policy. It always sends the optimized speed, and sends the
  re-optimized steering angle only when the optimized speed's magnitude reaches
  `kMinWheelLinearVelocity`.
- **Three variants**, one class each. The fields are the hardware registers the variant reads
  and writes.
  - `PWMSwerveModule` (simulation): motor outputs clamped to [-1, 1].
  - `REVSwerveModule`: steering encoder in degrees.
  - `CTRESwerveModule`: raw pulses, and pulses per 100 ms.
- **Register snapshots.** Each class exposes `Registers()`, a value holding all its register
  fields. Each method is specified by a pure function of the old snapshot. The properties are
  proved about those functions: round trips of the unit conversions, clamping, the
  `applyState` policy, and what `reset` re-seeds.
- **`DriveSubsystem`.**
  - Scales driver factors into chassis speeds.
  - Dispatches on the coordinate mode.
  - Builds the kinematics from the wheel offsets in front-left, front-right, back-left,
    back-right order, and applies the four desaturated states to the modules in that same order.
  - Resets the modules in order and then re-seeds the odometry from positions read after the
    reset.
  - Provides the planar helpers `rotatePoint` and `shiftPoint`.

Modelling conventions:

- Floats are `real`. `Rotation2d` stores its radians as given. Degrees use Python's `math.pi`.
- The tunables of the `constants` module become one `Config.Constants` record. The divisors must
  be non-zero and the wheel speed maximum positive (`ValidConstants`). `constants.py` is not part
  of this model, so no numeric value is assumed.
- `math.cos` and `math.sin` are supplied as a `Trig` value.
- The wpimath collaborators and `util.convenietmath.optimizeAngle` are uninterpreted functions
  held in `Wpimath.ModuleLibrary` and `Wpimath.DriveLibrary`: `SwerveModuleState.optimize`,
  `SwerveDrive4Kinematics.toSwerveModuleStates`, `desaturateWheelSpeeds`,
  `ChassisSpeeds.fromFieldRelativeSpeeds` and `SwerveDrive4Odometry`. The odometry object is a
  type parameter.
- Gyro readings are method parameters. `DriveSubsystem` only ever builds REV or PWM modules, so
  its invariant excludes the CTRE variant.

## Model

| member | source | states |
|---|---|---|
| `Geometry.Rotation2d.FromDegrees` | subsystems/drivesubsystem.py:313-315 | a rotation made from d degrees reads back as exactly d degrees |
| `PwmModule.SteerOutput` | subsystems/drivesubsystem.py:109-112 | the steering output lies in [-1, 1]; it equals target − encoder radians when that error is in [-1, 1], and is +1 or −1 with the error's sign otherwise; it is positive iff the target is ahead, and zero iff on target |
| `PwmModule.DriveOutput` | subsystems/drivesubsystem.py:120-123 | the wheel output lies in [-1, 1]; times kMaxWheelLinearVelocity it gives the target whenever the target is within the maximum; beyond it the output is ±1 with the target's sign; zero iff the target is zero |
| `PwmModule.PWMSwerveModule.constructor` | subsystems/drivesubsystem.py:87-104 | the encoders passed in keep their readings; the PWM controllers, built together with the module, start at WPILib's default output 0 |
| `PwmModule.PWMSwerveModule.SetSwerveAngleTarget` | subsystems/drivesubsystem.py:109-112 | only the steering output changes, to the clamped angle error |
| `PwmModule.PWMSwerveModule.SetWheelLinearVelocityTarget` | subsystems/drivesubsystem.py:120-123 | only the wheel output changes, to the clamped speed fraction |
| `PwmModule.SwerveAngle` | subsystems/drivesubsystem.py:106-107 | the simulated module reads the steering encoder's distance as radians: targeting the angle it reports gives a zero steering output |
| `RevModule.SwerveAngle` | subsystems/drivesubsystem.py:313-315 | the REV module's angle is the one whose degrees the steering encoder holds |
| `RevModule.WithSwerveAngle` | subsystems/drivesubsystem.py:313-319 | after setSwerveAngle(a) the module reads back exactly a; only the steering encoder changes |
| `RevModule.AfterReset` | subsystems/drivesubsystem.py:341-345 | after reset the module reads the absolute sensor's degrees times kRadiansPerDegree; with kRadiansPerDegree = π/180 the steering encoder then holds the absolute degrees; only the steering encoder changes |
| `RevModule.SteerReferenceReachesTarget` | subsystems/drivesubsystem.py:321-325 | the position reference sent for target t is the encoder position at which the module reads t |
| `RevModule.REVSwerveModule.constructor` | subsystems/drivesubsystem.py:138-158 | sensors start at the given readings and no reference has been sent |
| `RevModule.REVSwerveModule.SetSwerveAngle` | subsystems/drivesubsystem.py:317-319 | the steering encoder is set to the angle in degrees |
| `RevModule.REVSwerveModule.SetSwerveAngleTarget` | subsystems/drivesubsystem.py:321-325 | the steering controller gets a position reference in degrees |
| `RevModule.REVSwerveModule.SetWheelLinearVelocityTarget` | subsystems/drivesubsystem.py:335-339 | the drive controller gets a velocity reference of the target |
| `RevModule.REVSwerveModule.Reset` | subsystems/drivesubsystem.py:341-345 | the steering encoder is re-seeded from the absolute sensor |
| `CtreModule.SwerveAngle` | subsystems/drivesubsystem.py:524-528 | the CTRE module's angle is the one whose pulse count the steering sensor holds |
| `CtreModule.WheelLinearVelocity` | subsystems/drivesubsystem.py:542-550 | the CTRE module's speed is the one whose pulses per 100 ms the drive sensor holds |
| `CtreModule.AngleToPulses` | subsystems/drivesubsystem.py:530-534 | the pulses written for an angle read back as that angle |
| `CtreModule.PulsesToAngle` | subsystems/drivesubsystem.py:524-528 | the angle read from a pulse count is the one whose pulse count it is |
| `CtreModule.VelocityToSensorUnits` | subsystems/drivesubsystem.py:552-559 | the pulses per 100 ms commanded for a speed read back as that speed |
| `CtreModule.SensorUnitsToVelocity` | subsystems/drivesubsystem.py:542-550 | the speed read from sensor units is the one that converts back to them |
| `CtreModule.WithSwerveAngle` | subsystems/drivesubsystem.py:530-534 | after setSwerveAngle(a) the module reads back exactly a; only the steering sensor changes |
| `CtreModule.AfterReset` | subsystems/drivesubsystem.py:561-565 | after reset the module reads the absolute sensor's degrees times kRadiansPerDegree; only the steering sensor changes |
| `CtreModule.VelocityRoundTrip` | subsystems/drivesubsystem.py:542-559 | if the drive sensor's velocity equals the value setWheelLinearVelocityTarget(v) commanded, getWheelLinearVelocity returns v |
| `CtreModule.SteerTargetReachesTarget` | subsystems/drivesubsystem.py:536-540 | once the steering sensor reaches the position target sent for t, getSwerveAngle returns t |
| `CtreModule.CTRESwerveModule.constructor` | subsystems/drivesubsystem.py:357-373 | sensors start at the given readings and both controllers at 0% output |
| `CtreModule.CTRESwerveModule.SetSwerveAngle` | subsystems/drivesubsystem.py:530-534 | the steering sensor is set to radians times pulses per radian |
| `CtreModule.CTRESwerveModule.SetSwerveAngleTarget` | subsystems/drivesubsystem.py:536-540 | the steering controller gets a position command in pulses |
| `CtreModule.CTRESwerveModule.SetWheelLinearVelocityTarget` | subsystems/drivesubsystem.py:552-559 | the drive controller gets a velocity command in pulses per 100 ms |
| `CtreModule.CTRESwerveModule.Reset` | subsystems/drivesubsystem.py:561-565 | the steering sensor is re-seeded from the absolute sensor |
| `SwerveModules.SwerveAngle` | subsystems/drivesubsystem.py:34-35 | getSwerveAngle, for every variant, against its raw register: the simulated steering motor rests at the reported angle; the REV encoder holds its degrees; the CTRE sensor holds its pulses |
| `SwerveModules.WheelLinearVelocity` | subsystems/drivesubsystem.py:43-44 | getWheelLinearVelocity, for every variant: the simulated encoder rate or the REV encoder velocity, or the speed whose pulses per 100 ms the CTRE sensor holds |
| `SwerveModules.WheelTotalPosition` | subsystems/drivesubsystem.py:61-62 | getWheelTotalPosition exists exactly for the PWM and REV variants and is their drive encoder's distance |
| `SwerveModules.State` | subsystems/drivesubsystem.py:55-59 | getState, against the raw registers: PWM speed is the encoder rate and the angle is the encoder distance in radians; REV speed is the encoder velocity and the angle's degrees are the steering encoder position; the CTRE sensors hold the speed's pulses per 100 ms and the angle's pulses |
| `SwerveModules.StateAfterSetSwerveAngle` | subsystems/drivesubsystem.py:55-59 | after setSwerveAngle(a) on a REV or CTRE module, getState reports a at the unchanged wheel velocity, and the wheel distance is unchanged |
| `SwerveModules.OptimizedAngleReadsOnlyTheAngle` | subsystems/drivesubsystem.py:52-53 | optimizedAngle depends on the module only through its measured angle, so neither an angle nor a speed target changes it |
| `SwerveModules.Position` | subsystems/drivesubsystem.py:61-65 | getPosition succeeds exactly for the PWM and REV variants (CTRE has no getWheelTotalPosition); it reports the total wheel distance at the measured angle |
| `SwerveModules.TargetsTouchOnlyTheirController` | subsystems/drivesubsystem.py:109-123 | sending an angle or speed target changes no reading (state, position) and not the other controller's command, and keeps the PWM outputs in range |
| `SwerveModules.ApplyStatePolicy` | subsystems/drivesubsystem.py:67-75 | applyState (its register function `AppliedState`) always leaves the drive controller with the command for the optimized speed; the steering controller gets the command for optimizeAngle(current, optimized angle) when the optimized speed's magnitude is at least kMinWheelLinearVelocity, and is unchanged otherwise (so it changes only if the threshold is met); readings are unchanged and the PWM output range is kept |
| `SwerveModules.AppliedStateKeepsValid` | subsystems/drivesubsystem.py:67-75 | applyState keeps a simulated module's outputs in [-1, 1] (the last clause of `ApplyStatePolicy` on its own, which the drivetrain's proofs use) |
| `SwerveModules.AfterResetKeepsValid` | subsystems/drivesubsystem.py:125-126 | reset keeps a simulated module's outputs in [-1, 1] (the last clause of `ResetReseedsAngle` on its own, which the drivetrain's proofs use) |
| `SwerveModules.ResetReseedsAngle` | subsystems/drivesubsystem.py:341-345 | reset leaves a simulated module untouched; it re-seeds a REV or CTRE module's angle from the absolute sensor times kRadiansPerDegree; it sends no command |
| `SwerveModules.SwerveModule.SetSwerveAngleTarget` | subsystems/drivesubsystem.py:40-41 | dispatches to the variant; the registers become the variant's angle-target state |
| `SwerveModules.SwerveModule.SetWheelLinearVelocityTarget` | subsystems/drivesubsystem.py:46-47 | dispatches to the variant; the registers become the variant's speed-target state |
| `SwerveModules.SwerveModule.Reset` | subsystems/drivesubsystem.py:49-50 | dispatches to the variant's reset (none for PWM) |
| `SwerveModules.SwerveModule.ApplyState` | subsystems/drivesubsystem.py:67-75 | the registers after the call are those of the applyState policy applied to the registers before it |
| `Drive.ScaledChassisSpeeds` | subsystems/drivesubsystem.py:809-813 | forward, sideways and rotation factors multiply their own maxima; a factor in [-1, 1] gives a speed no larger in magnitude than its maximum |
| `Drive.CoordinateModeDispatch` | subsystems/drivesubsystem.py:821-830 | in `RobotChassisSpeeds`, robot-relative speeds reach kinematics unchanged and the heading is ignored; field-relative speeds are converted with the given heading |
| `Drive.RotatePointAsWrittenCounterclockwise` | subsystems/drivesubsystem.py:846-853 | for ccw = True, rotatePoint as written (`RotatePointAsWritten`) equals the corrected rotation `RotatePoint` |
| `Drive.RotatePointAsWrittenByZero` | subsystems/drivesubsystem.py:846-853 | at cos 1, sin 0, rotatePoint as written returns (x, y) for ccw = True and (x, −y) for ccw = False |
| `Drive.RotatePointAsWrittenReflects` | subsystems/drivesubsystem.py:849-853 | with ccw = False and cos 1, sin 0, the code as written sends (0, 1) to (0, −1); the intended rotation keeps (0, 1) |
| `Drive.RotatePointByZero` | subsystems/drivesubsystem.py:846-853 | for the corrected rotation, cos 1 and sin 0 give back (x, y) in either direction |
| `Drive.RotatePointPreservesLength` | subsystems/drivesubsystem.py:846-853 | when cos² + sin² = 1 the point rotated by the corrected rotation is as far from the origin as (x, y) |
| `Drive.RotatePointClockwiseUndoesCounterclockwise` | subsystems/drivesubsystem.py:846-853 | with the corrected rotation, rotating clockwise by an angle undoes rotating counterclockwise by it |
| `Drive.ShiftPoint` | subsystems/drivesubsystem.py:855-863 | using rotatePoint as written, the result always has rotation 0; shifting a pose to its own position gives (0, 0) |
| `Drive.ShiftPointKeepsOffset` | subsystems/drivesubsystem.py:855-863 | the shifted point is as far from the origin as savedPose is from currentPose, and rotating it back by currentPose's heading recovers the offset |
| `Drive.DriveSubsystem.constructor` | subsystems/drivesubsystem.py:664-694 | the constants and libraries passed in are the ones every later contract uses; modules held in FL, FR, BL, BR order, kinematics built from the wheel offsets in the same order, odometry created from the heading, the FL, FR, BL, BR positions and the zero pose |
| `Drive.DriveSubsystem.ResetSwerveModules` | subsystems/drivesubsystem.py:701-712 | every module is reset, then the odometry is reset to the zero pose with positions read after the module resets |
| `Drive.DriveSubsystem.SetOdometryPosition` | subsystems/drivesubsystem.py:714-723 | the odometry is reset to the given pose with the current FL, FR, BL, BR positions |
| `Drive.DriveSubsystem.Periodic` | subsystems/drivesubsystem.py:740-751 | the odometry is updated with the heading and the FL, FR, BL, BR positions |
| `Drive.DriveSubsystem.ArcadeDriveWithFactors` | subsystems/drivesubsystem.py:790-815 | the scaled speeds are dispatched exactly as arcadeDriveWithSpeeds dispatches them |
| `Drive.DriveSubsystem.ArcadeDriveWithSpeeds` | subsystems/drivesubsystem.py:817-844 | the four desaturated states, computed from the robot-relative speeds with the FL, FR, BL, BR kinematics, are applied by the applyState policy to FL, FR, BL, BR respectively; no other module changes and the invariant holds |

## Left out

- Vendor configuration in the REV and CTRE constructors (CAN, PID and conversion-factor uploads, error printing) is left out. It is I/O against libraries outside the model. The constructors take the initial sensor readings instead.
- The hardware selection on `RobotBase.isReal()` is represented only by the invariant that the drivetrain holds no CTRE module. The module objects are passed to the constructor.
- The unused slew-rate limiters are left out.
- The internals of wpimath and of `optimizeAngle` are not modelled, because their code lies outside this repository. This covers kinematics, desaturation, state optimization, the field-to-robot transform and odometry. These are uninterpreted functions, so no property that depends on them is claimed: angle optimization bounds, desaturation ratios, zero-speed kinematics, field-relative at heading 0.
- The gyro (AHRS) is left out. Its readings are parameters. `resetGyro` has the same odometry effect as `SetOdometryPosition` and differs only in gyro calls, so it has no member of its own.
- The telemetry in `periodic` (SmartDashboard, timed printing) is left out.
- The module `name` is left out; it is used only for display.
- The simulated module inherits `setSwerveAngle`, which raises NotImplementedError. `SwerveModules.WithSwerveAngle` therefore requires a REV or CTRE module instead of modelling the exception.
- PWM encoders are modelled as the distances they report. The pulse count times distance-per-pulse configured at construction is not modelled.
- Float rounding is left out, and so are real `cos` and `sin`: `real` is exact, and trigonometry is supplied through `Trig`.
- `Rotation2d` is compared by its stored radians. wpimath compares rotations modulo a full turn.
- Sensor registers change only through the model's setters and resets. Physical motion is not modelled.

## Findings

| source | as written | input that shows it | evidently intended | confidence | as-written member | corrected member |
|---|---|---|---|---|---|---|
| subsystems/drivesubsystem.py:849-853 | with `ccw=False`, `invert = -1` multiplies the cosine term of `yNew`, so the map is a reflection, not a clockwise rotation | `rotatePoint(0, 1, 0, False)` (cos 1, sin 0) gives (0, −1) instead of (0, 1) | `invert` multiplies the sine term of `yNew`: `yNew = x·sin·invert + y·cos` | not executed; medium (`shiftPoint` only calls the `ccw=True` branch, where both agree) | `Drive.RotatePointAsWrittenReflects` | `Drive.RotatePointClockwiseUndoesCounterclockwise` |
