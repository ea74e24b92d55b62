/**
 * The wpimath value types the drivetrain passes around, modelled as the values they store.
 * Real numbers stand for the source's floats; trigonometry is supplied from outside.
 */
module Geometry {

  /** The value of Python's math.pi, used by Rotation2d's degree conversions. */
  const Pi: real := 3.141592653589793

  function Abs(x: real): real { if x < 0.0 then -x else x }

  function Min(a: real, b: real): real { if a <= b then a else b }

  function Max(a: real, b: real): real { if a >= b then a else b }

  /** A rotation, stored in radians exactly as it was constructed (no wrapping). */
  datatype Rotation2d = Rotation2d(radians: real)
  {
    /** Rotation2d.degrees() */
    function Degrees(): real { radians * 180.0 / Pi }

    /** Rotation2d.fromDegrees(d): reading the rotation back in degrees gives d. */
    static function FromDegrees(d: real): (r: Rotation2d)
      ensures r.Degrees() == d
    {
      Rotation2d(d * Pi / 180.0)
    }
  }

  /** Converting a rotation to degrees and back gives the same rotation. */
  lemma DegreesRoundTrip(a: Rotation2d)
    ensures Rotation2d.FromDegrees(a.Degrees()) == a
  {
  }

  datatype Translation2d = Translation2d(x: real, y: real)

  datatype Pose2d = Pose2d(x: real, y: real, rotation: Rotation2d)

  /** Pose2d(): the origin, facing along the x axis. */
  const ZeroPose: Pose2d := Pose2d(0.0, 0.0, Rotation2d(0.0))

  /** (vx, vy) in meters per second, omega in radians per second. */
  datatype ChassisSpeeds = ChassisSpeeds(vx: real, vy: real, omega: real)

  /** A commanded wheel speed (signed, meters per second) and steering angle. */
  datatype SwerveModuleState = SwerveModuleState(speed: real, angle: Rotation2d)

  /** A measured cumulative wheel distance (meters) and steering angle. */
  datatype SwerveModulePosition = SwerveModulePosition(distance: real, angle: Rotation2d)

  /** The four per-wheel values, positionally: front-left, front-right, back-left, back-right. */
  type ModuleStates = (SwerveModuleState, SwerveModuleState, SwerveModuleState, SwerveModuleState)

  type ModulePositions = (SwerveModulePosition, SwerveModulePosition, SwerveModulePosition, SwerveModulePosition)

  /** Python's math.cos and math.sin, supplied by the caller. */
  datatype Trig = Trig(cos: real -> real, sin: real -> real)
  {
    /** cos²(a) + sin²(a) = 1 at the angle a. */
    predicate Pythagorean(a: real) { cos(a) * cos(a) + sin(a) * sin(a) == 1.0 }
  }
}
