/**
 * DriveSubsystem: owns the four modules (front-left, front-right, back-left, back-right),
 * the kinematics built from the four wheel offsets in the same order, and the odometry.
 * It scales driver factors into chassis speeds, converts field-relative commands into the
 * robot frame, and dispatches the four desaturated module states in order.
 */
module Drive {
  import opened Wrappers
  import opened Geometry
  import opened Config
  import opened Wpimath
  import opened SwerveModules

  /** DriveSubsystem.CoordinateMode */
  datatype CoordinateMode = RobotRelative | FieldRelative

  /**
   * The chassis speeds arcadeDriveWithFactors commands: each factor times its own maximum,
   * so factors in [-1, 1] never exceed the configured maxima.
   */
  function ScaledChassisSpeeds(forwardSpeedFactor: real, sidewaysSpeedFactor: real,
                               rotationSpeedFactor: real, k: ValidConstants): (c: ChassisSpeeds)
    ensures c.vx == forwardSpeedFactor * k.kMaxForwardLinearVelocity
    ensures c.vy == sidewaysSpeedFactor * k.kMaxSidewaysLinearVelocity
    ensures c.omega == rotationSpeedFactor * k.kMaxRotationAngularVelocity
    ensures Abs(forwardSpeedFactor) <= 1.0 ==> Abs(c.vx) <= Abs(k.kMaxForwardLinearVelocity)
    ensures Abs(sidewaysSpeedFactor) <= 1.0 ==> Abs(c.vy) <= Abs(k.kMaxSidewaysLinearVelocity)
    ensures Abs(rotationSpeedFactor) <= 1.0 ==> Abs(c.omega) <= Abs(k.kMaxRotationAngularVelocity)
  {
    ScaleWithinMaximum(forwardSpeedFactor, k.kMaxForwardLinearVelocity);
    ScaleWithinMaximum(sidewaysSpeedFactor, k.kMaxSidewaysLinearVelocity);
    ScaleWithinMaximum(rotationSpeedFactor, k.kMaxRotationAngularVelocity);
    ChassisSpeeds(forwardSpeedFactor * k.kMaxForwardLinearVelocity,
                  sidewaysSpeedFactor * k.kMaxSidewaysLinearVelocity,
                  rotationSpeedFactor * k.kMaxRotationAngularVelocity)
  }

  /** A factor of magnitude at most 1 scales a maximum to a value no larger in magnitude. */
  lemma ScaleWithinMaximum(factor: real, maximum: real)
    ensures Abs(factor) <= 1.0 ==> Abs(factor * maximum) <= Abs(maximum)
  {
    AbsOfProduct(factor, maximum);
    if Abs(factor) <= 1.0 {
      assert Abs(maximum) - Abs(factor) * Abs(maximum) == (1.0 - Abs(factor)) * Abs(maximum);
      NonNegativeProduct(1.0 - Abs(factor), Abs(maximum));
    }
  }

  /** |a * b| = |a| * |b| */
  lemma AbsOfProduct(a: real, b: real)
    ensures Abs(a * b) == Abs(a) * Abs(b)
  {
    NonNegativeProduct(Abs(a), Abs(b));
    if a < 0.0 {
      assert a * b == -(Abs(a) * b);
    }
    if b < 0.0 {
      assert a * b == -(a * Abs(b));
    }
    if a < 0.0 && b < 0.0 {
      assert a * b == Abs(a) * Abs(b);
    }
  }

  /** The product of two non-negative reals is non-negative. */
  lemma NonNegativeProduct(a: real, b: real)
    requires a >= 0.0 && b >= 0.0
    ensures a * b >= 0.0
  {
  }

  /** The robot-relative speeds for a command in the given coordinate mode. */
  function RobotChassisSpeeds<Odometry>(lib: DriveLibrary<Odometry>, chassisSpeeds: ChassisSpeeds,
                                        coordinateMode: CoordinateMode, robotAngle: Rotation2d): ChassisSpeeds {
    match coordinateMode
    case RobotRelative => chassisSpeeds
    case FieldRelative => lib.fromFieldRelativeSpeeds(chassisSpeeds.vx, chassisSpeeds.vy, chassisSpeeds.omega, robotAngle)
  }

  /** The four desaturated module states, FL, FR, BL, BR, for robot-relative speeds. */
  function DesaturatedStates<Odometry>(lib: DriveLibrary<Odometry>, kinematics: SwerveDrive4Kinematics,
                                       robotChassisSpeeds: ChassisSpeeds, k: ValidConstants): ModuleStates {
    lib.desaturateWheelSpeeds(lib.toSwerveModuleStates(kinematics, robotChassisSpeeds), k.kMaxWheelLinearVelocity)
  }

  /**
   * The coordinate-mode dispatch: a robot-relative command reaches kinematics unchanged; a
   * field-relative one is first converted with the odometry's heading; the heading is not
   * consulted in robot-relative mode.
   */
  lemma CoordinateModeDispatch<Odometry>(lib: DriveLibrary<Odometry>, c: ChassisSpeeds, a: Rotation2d, b: Rotation2d)
    ensures RobotChassisSpeeds(lib, c, RobotRelative, a) == c
    ensures RobotChassisSpeeds(lib, c, RobotRelative, a) == RobotChassisSpeeds(lib, c, RobotRelative, b)
    ensures RobotChassisSpeeds(lib, c, FieldRelative, a) == lib.fromFieldRelativeSpeeds(c.vx, c.vy, c.omega, a)
  {
  }

  // ---------------------------------------------------------------------------------------
  // Planar helpers. The source's cos and sin are supplied by a Trig value.

  /** The source's `ccw * 2 - 1`: 1 for counterclockwise, -1 otherwise. */
  function Invert(ccw: bool): real { (if ccw then 1.0 else 0.0) * 2.0 - 1.0 }

  /** rotatePoint as written: `invert` multiplies the sine term of x and the cosine term of y. */
  function RotatePointAsWritten(x: real, y: real, angle: real, ccw: bool, trig: Trig): (real, real) {
    var invert := Invert(ccw);
    (x * trig.cos(angle) - y * trig.sin(angle) * invert,
     x * trig.sin(angle) + y * trig.cos(angle) * invert)
  }

  /**
   * rotatePoint as intended: rotation of (x, y) by angle, counterclockwise when ccw holds
   * and clockwise otherwise (`invert` multiplies both sine terms).
   */
  function RotatePoint(x: real, y: real, angle: real, ccw: bool, trig: Trig): (real, real) {
    var invert := Invert(ccw);
    (x * trig.cos(angle) - y * trig.sin(angle) * invert,
     x * trig.sin(angle) * invert + y * trig.cos(angle))
  }

  /** For counterclockwise rotation, the code as written and the intended rotation agree. */
  lemma RotatePointAsWrittenCounterclockwise(x: real, y: real, angle: real, trig: Trig)
    ensures RotatePointAsWritten(x, y, angle, true, trig) == RotatePoint(x, y, angle, true, trig)
  {
    var asWritten, intended := RotatePointAsWritten(x, y, angle, true, trig), RotatePoint(x, y, angle, true, trig);
    assert asWritten.0 == intended.0 && asWritten.1 == intended.1;
  }

  /**
   * Clockwise as written is not a rotation: at an angle with cos 1 and sin 0 (no rotation at
   * all) it sends (0, 1) to (0, -1), while the intended rotation leaves the point where it is.
   */
  lemma RotatePointAsWrittenReflects(angle: real, trig: Trig)
    requires trig.cos(angle) == 1.0 && trig.sin(angle) == 0.0
    ensures RotatePointAsWritten(0.0, 1.0, angle, false, trig) == (0.0, -1.0)
    ensures RotatePoint(0.0, 1.0, angle, false, trig) == (0.0, 1.0)
  {
  }

  /**
   * rotatePoint as written at an angle with cos 1 and sin 0: counterclockwise it leaves every
   * point where it is; clockwise it mirrors the point in the x axis.
   */
  lemma RotatePointAsWrittenByZero(x: real, y: real, angle: real, trig: Trig)
    requires trig.cos(angle) == 1.0 && trig.sin(angle) == 0.0
    ensures RotatePointAsWritten(x, y, angle, true, trig) == (x, y)
    ensures RotatePointAsWritten(x, y, angle, false, trig) == (x, -y)
  {
    RotatePointAsWrittenCounterclockwise(x, y, angle, trig);
    RotatePointByZero(x, y, angle, true, trig);
    var q := RotatePointAsWritten(x, y, angle, false, trig);
    assert q.0 == x * 1.0 - y * 0.0 * -1.0;
    assert q.1 == x * 0.0 + y * 1.0 * -1.0;
    assert q.0 == x && q.1 == -y;
  }

  /** The corrected rotation by an angle with cos 1 and sin 0 leaves every point where it is, in either direction. */
  lemma RotatePointByZero(x: real, y: real, angle: real, ccw: bool, trig: Trig)
    requires trig.cos(angle) == 1.0 && trig.sin(angle) == 0.0
    ensures RotatePoint(x, y, angle, ccw, trig) == (x, y)
  {
    var p := RotatePoint(x, y, angle, ccw, trig);
    assert p.0 == x * 1.0 - y * 0.0 * Invert(ccw);
    assert p.1 == x * 0.0 * Invert(ccw) + y * 1.0;
    assert p.0 == x && p.1 == y;
  }

  /** Rotation keeps the distance from the origin whenever cos² + sin² = 1 at the angle. */
  lemma RotatePointPreservesLength(x: real, y: real, angle: real, ccw: bool, trig: Trig)
    requires trig.Pythagorean(angle)
    ensures var p := RotatePoint(x, y, angle, ccw, trig); p.0 * p.0 + p.1 * p.1 == x * x + y * y
  {
  }

  /** Rotating clockwise by an angle undoes rotating counterclockwise by it. */
  lemma RotatePointClockwiseUndoesCounterclockwise(x: real, y: real, angle: real, trig: Trig)
    requires trig.Pythagorean(angle)
    ensures var p := RotatePoint(x, y, angle, true, trig); RotatePoint(p.0, p.1, angle, false, trig) == (x, y)
  {
    var c, s := trig.cos(angle), trig.sin(angle);
    var p := RotatePoint(x, y, angle, true, trig);
    var q := RotatePoint(p.0, p.1, angle, false, trig);
    assert p.0 == x * c - y * s && p.1 == x * s + y * c;
    calc {
      q.0;
      p.0 * c + p.1 * s;
      (x * c - y * s) * c + (x * s + y * c) * s;
      x * (c * c + s * s);
    }
    calc {
      q.1;
      -p.0 * s + p.1 * c;
      -(x * c - y * s) * s + (x * s + y * c) * c;
      y * (c * c + s * s);
    }
    assert q.0 == x && q.1 == y;
  }

  /**
   * shiftPoint: the offset of savedPose from currentPose, rotated by minus currentPose's
   * heading (into currentPose's frame), as a pose with rotation 0.
   */
  function ShiftPoint(savedPose: Pose2d, currentPose: Pose2d, trig: Trig): (shifted: Pose2d)
    ensures shifted.rotation == Rotation2d(0.0)
    ensures savedPose.x == currentPose.x && savedPose.y == currentPose.y ==> shifted.x == 0.0 && shifted.y == 0.0
  {
    var xDelta := savedPose.x - currentPose.x;
    var yDelta := savedPose.y - currentPose.y;
    var coords := RotatePointAsWritten(xDelta, yDelta, currentPose.rotation.radians * -1.0, true, trig);
    Pose2d(coords.0, coords.1, Rotation2d(0.0))
  }

  /**
   * The shifted point is as far from the origin as savedPose is from currentPose, and rotating
   * it back by currentPose's heading recovers the offset.
   */
  lemma ShiftPointKeepsOffset(savedPose: Pose2d, currentPose: Pose2d, trig: Trig)
    requires trig.Pythagorean(currentPose.rotation.radians * -1.0)
    ensures var shifted := ShiftPoint(savedPose, currentPose, trig);
      var dx, dy := savedPose.x - currentPose.x, savedPose.y - currentPose.y;
      && shifted.x * shifted.x + shifted.y * shifted.y == dx * dx + dy * dy
      && RotatePoint(shifted.x, shifted.y, currentPose.rotation.radians * -1.0, false, trig) == (dx, dy)
  {
    var dx, dy := savedPose.x - currentPose.x, savedPose.y - currentPose.y;
    var angle := currentPose.rotation.radians * -1.0;
    RotatePointAsWrittenCounterclockwise(dx, dy, angle, trig);
    RotatePointPreservesLength(dx, dy, angle, true, trig);
    RotatePointClockwiseUndoesCounterclockwise(dx, dy, angle, trig);
  }

  // ---------------------------------------------------------------------------------------

  /** The position a module reports; drivetrain modules are never of the CTRE variant. */
  function PositionOf(m: SwerveModule, k: ValidConstants): SwerveModulePosition
    reads m.Obj()
    requires !m.CtreModule?
  {
    Position(m.Registers(), k).value
  }

  class DriveSubsystem<Odometry> {
    const k: ValidConstants
    const moduleLib: ModuleLibrary
    const lib: DriveLibrary<Odometry>
    const frontLeftModule: SwerveModule
    const frontRightModule: SwerveModule
    const backLeftModule: SwerveModule
    const backRightModule: SwerveModule
    const modules: seq<SwerveModule>
    const kinematics: SwerveDrive4Kinematics
    var odometry: Odometry

    function Repr(): set<object> {
      {frontLeftModule.Obj(), frontRightModule.Obj(), backLeftModule.Obj(), backRightModule.Obj()}
    }

    /**
     * The four modules are distinct objects, held in FL, FR, BL, BR order; the kinematics
     * holds the wheel offsets in that same order; the subsystem only builds REV (real robot)
     * or PWM (simulation) modules; each module keeps its variant invariant.
     */
    ghost predicate Valid()
      reads Repr()
    {
      && modules == [frontLeftModule, frontRightModule, backLeftModule, backRightModule]
      && this !in Repr()
      && kinematics == SwerveDrive4Kinematics(k.kFrontLeftWheelPosition, k.kFrontRightWheelPosition,
                                              k.kBackLeftWheelPosition, k.kBackRightWheelPosition)
      && frontLeftModule.Obj() != frontRightModule.Obj() && frontLeftModule.Obj() != backLeftModule.Obj()
      && frontLeftModule.Obj() != backRightModule.Obj() && frontRightModule.Obj() != backLeftModule.Obj()
      && frontRightModule.Obj() != backRightModule.Obj() && backLeftModule.Obj() != backRightModule.Obj()
      && !frontLeftModule.CtreModule? && !frontRightModule.CtreModule?
      && !backLeftModule.CtreModule? && !backRightModule.CtreModule?
      && frontLeftModule.Registers().Valid() && frontRightModule.Registers().Valid()
      && backLeftModule.Registers().Valid() && backRightModule.Registers().Valid()
    }

    /** Valid, restated over the module tuple's indices. */
    lemma ModulesValid()
      requires Valid()
      ensures forall i, j :: 0 <= i < j < |modules| ==> modules[i].Obj() != modules[j].Obj()
      ensures forall i :: 0 <= i < |modules| ==> !modules[i].CtreModule? && modules[i].Registers().Valid()
    {
    }

    /** The four module positions, FL, FR, BL, BR. */
    function ModulePositions(): ModulePositions
      reads Repr()
      requires Valid()
    {
      (PositionOf(frontLeftModule, k), PositionOf(frontRightModule, k),
       PositionOf(backLeftModule, k), PositionOf(backRightModule, k))
    }

    /** The four desaturated states the subsystem dispatches for a command. */
    function ModuleTargets(chassisSpeeds: ChassisSpeeds, coordinateMode: CoordinateMode): ModuleStates
      reads this
    {
      DesaturatedStates(lib, kinematics,
                        RobotChassisSpeeds(lib, chassisSpeeds, coordinateMode, lib.getPose(odometry).rotation), k)
    }

    constructor (frontLeft: SwerveModule, frontRight: SwerveModule, backLeft: SwerveModule, backRight: SwerveModule,
                 k: ValidConstants, moduleLib: ModuleLibrary, lib: DriveLibrary<Odometry>, heading: Rotation2d)
      requires frontLeft.Obj() != frontRight.Obj() && frontLeft.Obj() != backLeft.Obj() && frontLeft.Obj() != backRight.Obj()
      requires frontRight.Obj() != backLeft.Obj() && frontRight.Obj() != backRight.Obj() && backLeft.Obj() != backRight.Obj()
      requires !frontLeft.CtreModule? && !frontRight.CtreModule? && !backLeft.CtreModule? && !backRight.CtreModule?
      requires frontLeft.Registers().Valid() && frontRight.Registers().Valid()
      requires backLeft.Registers().Valid() && backRight.Registers().Valid()
      ensures Valid()
      ensures this.k == k && this.moduleLib == moduleLib && this.lib == lib
      ensures frontLeftModule == frontLeft && frontRightModule == frontRight
      ensures backLeftModule == backLeft && backRightModule == backRight
      ensures odometry == lib.createOdometry(kinematics, heading, ModulePositions(), ZeroPose)
    {
      this.k, this.moduleLib, this.lib := k, moduleLib, lib;
      frontLeftModule, frontRightModule, backLeftModule, backRightModule := frontLeft, frontRight, backLeft, backRight;
      modules := [frontLeft, frontRight, backLeft, backRight];
      var kinematics := SwerveDrive4Kinematics(k.kFrontLeftWheelPosition, k.kFrontRightWheelPosition,
                                               k.kBackLeftWheelPosition, k.kBackRightWheelPosition);
      this.kinematics := kinematics;
      odometry := lib.createOdometry(kinematics, heading,
                                     (PositionOf(frontLeft, k), PositionOf(frontRight, k),
                                      PositionOf(backLeft, k), PositionOf(backRight, k)), ZeroPose);
    }

    /** resetSwerveModules: reset every module in order, then re-seed the odometry. */
    method ResetSwerveModules(headingAfterGyroReset: Rotation2d)
      requires Valid()
      modifies this, Repr()
      ensures Valid()
      ensures forall i :: 0 <= i < |modules| ==> modules[i].Registers() == AfterReset(old(modules[i].Registers()), k)
      ensures odometry == lib.resetPosition(old(odometry), headingAfterGyroReset, ZeroPose, ModulePositions())
    {
      ModulesValid();
      var i := 0;
      while i < |modules|
        invariant 0 <= i <= |modules|
        invariant forall j :: 0 <= j < |modules| ==> modules[j].Registers().Valid()
        invariant forall j :: 0 <= j < i ==> modules[j].Registers() == AfterReset(old(modules[j].Registers()), k)
        invariant forall j :: i <= j < |modules| ==> modules[j].Registers() == old(modules[j].Registers())
        modifies Repr()
      {
        AfterResetKeepsValid(modules[i].Registers(), k);
        modules[i].Reset(k);
        i := i + 1;
      }
      assert modules[0].Registers().Valid() && modules[1].Registers().Valid();
      assert modules[2].Registers().Valid() && modules[3].Registers().Valid();
      odometry := lib.resetPosition(odometry, headingAfterGyroReset, ZeroPose, ModulePositions());
    }

    /**
     * setOdometryPosition: re-seed the odometry at pose with the current module positions;
     * the heading is what the gyro reports after its angle adjustment.
     */
    method SetOdometryPosition(pose: Pose2d, headingAfterAdjustment: Rotation2d)
      requires Valid()
      modifies this
      ensures Valid()
      ensures odometry == lib.resetPosition(old(odometry), headingAfterAdjustment, pose, ModulePositions())
    {
      odometry := lib.resetPosition(odometry, headingAfterAdjustment, pose, ModulePositions());
    }

    /** periodic: feed the heading and the FL, FR, BL, BR positions to the odometry. */
    method Periodic(heading: Rotation2d)
      requires Valid()
      modifies this
      ensures Valid()
      ensures odometry == lib.update(old(odometry), heading, ModulePositions())
    {
      odometry := lib.update(odometry, heading, ModulePositions());
    }

    method ArcadeDriveWithFactors(forwardSpeedFactor: real, sidewaysSpeedFactor: real, rotationSpeedFactor: real,
                                  coordinateMode: CoordinateMode)
      requires Valid()
      modifies Repr()
      ensures Valid()
      ensures var states := ModuleTargets(ScaledChassisSpeeds(forwardSpeedFactor, sidewaysSpeedFactor,
                                                              rotationSpeedFactor, k), coordinateMode);
        && frontLeftModule.Registers() == AppliedState(old(frontLeftModule.Registers()), states.0, moduleLib, k)
        && frontRightModule.Registers() == AppliedState(old(frontRightModule.Registers()), states.1, moduleLib, k)
        && backLeftModule.Registers() == AppliedState(old(backLeftModule.Registers()), states.2, moduleLib, k)
        && backRightModule.Registers() == AppliedState(old(backRightModule.Registers()), states.3, moduleLib, k)
    {
      var chassisSpeeds := ScaledChassisSpeeds(forwardSpeedFactor, sidewaysSpeedFactor, rotationSpeedFactor, k);
      ArcadeDriveWithSpeeds(chassisSpeeds, coordinateMode);
    }

    /**
     * arcadeDriveWithSpeeds: convert to robot-relative speeds, compute and desaturate the four
     * states, and apply them to FL, FR, BL, BR in the order the kinematics was built with.
     */
    method ArcadeDriveWithSpeeds(chassisSpeeds: ChassisSpeeds, coordinateMode: CoordinateMode)
      requires Valid()
      modifies Repr()
      ensures Valid()
      ensures var states := ModuleTargets(chassisSpeeds, coordinateMode);
        && frontLeftModule.Registers() == AppliedState(old(frontLeftModule.Registers()), states.0, moduleLib, k)
        && frontRightModule.Registers() == AppliedState(old(frontRightModule.Registers()), states.1, moduleLib, k)
        && backLeftModule.Registers() == AppliedState(old(backLeftModule.Registers()), states.2, moduleLib, k)
        && backRightModule.Registers() == AppliedState(old(backRightModule.Registers()), states.3, moduleLib, k)
    {
      var robotChassisSpeeds := RobotChassisSpeeds(lib, chassisSpeeds, coordinateMode, lib.getPose(odometry).rotation);
      var moduleStates := lib.toSwerveModuleStates(kinematics, robotChassisSpeeds);
      var (frontLeftState, frontRightState, backLeftState, backRightState) :=
        lib.desaturateWheelSpeeds(moduleStates, k.kMaxWheelLinearVelocity);
      AppliedStateKeepsValid(frontLeftModule.Registers(), frontLeftState, moduleLib, k);
      frontLeftModule.ApplyState(frontLeftState, moduleLib, k);
      AppliedStateKeepsValid(frontRightModule.Registers(), frontRightState, moduleLib, k);
      frontRightModule.ApplyState(frontRightState, moduleLib, k);
      AppliedStateKeepsValid(backLeftModule.Registers(), backLeftState, moduleLib, k);
      backLeftModule.ApplyState(backLeftState, moduleLib, k);
      AppliedStateKeepsValid(backRightModule.Registers(), backRightState, moduleLib, k);
      backRightModule.ApplyState(backRightState, moduleLib, k);
    }
  }
}
