/**
 * The wpimath collaborators the drivetrain calls but whose code is not part of this model:
 * state optimization, angle optimization, kinematics, desaturation, the field-to-robot
 * frame transform and odometry. Each is an uninterpreted function value supplied by the caller.
 */
module Wpimath {
  import opened Geometry

  /** SwerveDrive4Kinematics, built from the four wheel offsets in FL, FR, BL, BR order. */
  datatype SwerveDrive4Kinematics = SwerveDrive4Kinematics(
    frontLeft: Translation2d, frontRight: Translation2d,
    backLeft: Translation2d, backRight: Translation2d)

  /** The per-module collaborators. */
  datatype ModuleLibrary = ModuleLibrary(
    // SwerveModuleState.optimize(state, currentAngle)
    optimize: (SwerveModuleState, Rotation2d) -> SwerveModuleState,
    // util.convenietmath.optimizeAngle(currentAngle, targetAngle)
    optimizeAngle: (Rotation2d, Rotation2d) -> Rotation2d)

  /** The drive-level collaborators; Odometry stands for the SwerveDrive4Odometry object. */
  datatype DriveLibrary<!Odometry> = DriveLibrary(
    // kinematics.toSwerveModuleStates(speeds)
    toSwerveModuleStates: (SwerveDrive4Kinematics, ChassisSpeeds) -> ModuleStates,
    // SwerveDrive4Kinematics.desaturateWheelSpeeds(states, maxSpeed)
    desaturateWheelSpeeds: (ModuleStates, real) -> ModuleStates,
    // ChassisSpeeds.fromFieldRelativeSpeeds(vx, vy, omega, robotAngle)
    fromFieldRelativeSpeeds: (real, real, real, Rotation2d) -> ChassisSpeeds,
    // SwerveDrive4Odometry(kinematics, gyroAngle, positions, initialPose)
    createOdometry: (SwerveDrive4Kinematics, Rotation2d, ModulePositions, Pose2d) -> Odometry,
    // odometry.update(gyroAngle, positions...)
    update: (Odometry, Rotation2d, ModulePositions) -> Odometry,
    // odometry.resetPosition(gyroAngle, pose, positions...)
    resetPosition: (Odometry, Rotation2d, Pose2d, ModulePositions) -> Odometry,
    // odometry.getPose()
    getPose: Odometry -> Pose2d)
}
