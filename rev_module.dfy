/**
 * REVSwerveModule: SparkMax controllers whose built-in encoders are scaled at configuration
 * so that the steering encoder reads degrees and the drive encoder reads meters and m/s,
 * plus a CANCoder that reports the absolute steering angle in degrees.
 */
module RevModule {
  import opened Geometry
  import opened Config

  /** CANSparkMax.ControlType */
  datatype ControlType = Position | Velocity

  /** The last setReference(value, type) a SparkMax PID controller received, if any. */
  datatype SparkReference = NoReference | Reference(value: real, controlType: ControlType)

  datatype RevRegisters = RevRegisters(
    steerEncoderPosition: real,        // steerMotorEncoder position, degrees
    steerReference: SparkReference,    // steerMotorController
    driveEncoderPosition: real,        // driveMotor encoder position, meters
    driveEncoderVelocity: real,        // driveMotor encoder velocity, meters per second
    driveReference: SparkReference,    // driveMotorController
    absolutePosition: real)            // swerveEncoder.getAbsolutePosition(), degrees

  /** getSwerveAngle(): the steering encoder position read as degrees. */
  function SwerveAngle(r: RevRegisters): (a: Rotation2d)
    ensures a.Degrees() == r.steerEncoderPosition
  {
    Rotation2d.FromDegrees(r.steerEncoderPosition)
  }

  /** The registers after setSwerveAngle(a): the module then reads back exactly a. */
  function WithSwerveAngle(r: RevRegisters, a: Rotation2d): (r': RevRegisters)
    ensures SwerveAngle(r') == a
    ensures r' == r.(steerEncoderPosition := r'.steerEncoderPosition)
  {
    DegreesRoundTrip(a);
    r.(steerEncoderPosition := a.Degrees())
  }

  /** The registers after setSwerveAngleTarget(t). */
  function WithSwerveAngleTarget(r: RevRegisters, t: Rotation2d): RevRegisters {
    r.(steerReference := Reference(t.Degrees(), Position))
  }

  /** The registers after setWheelLinearVelocityTarget(v). */
  function WithWheelLinearVelocityTarget(r: RevRegisters, v: real): RevRegisters {
    r.(driveReference := Reference(v, Velocity))
  }

  /**
   * The registers after reset(): the steering angle is re-seeded from the absolute sensor's
   * degrees times kRadiansPerDegree; with kRadiansPerDegree = π/180 the steering encoder then
   * holds the absolute sensor's degrees.
   */
  function AfterReset(r: RevRegisters, k: ValidConstants): (r': RevRegisters)
    ensures SwerveAngle(r') == Rotation2d(r.absolutePosition * k.kRadiansPerDegree)
    ensures k.kRadiansPerDegree == Pi / 180.0 ==> r'.steerEncoderPosition == r.absolutePosition
    ensures r' == r.(steerEncoderPosition := r'.steerEncoderPosition)
  {
    WithSwerveAngle(r, Rotation2d(r.absolutePosition * k.kRadiansPerDegree))
  }

  /** Once the steering motor settles on the position reference it was sent, the module reads t. */
  lemma SteerReferenceReachesTarget(r: RevRegisters, t: Rotation2d)
    ensures SwerveAngle(r.(steerEncoderPosition := WithSwerveAngleTarget(r, t).steerReference.value)) == t
  {
    DegreesRoundTrip(t);
  }

  class REVSwerveModule {
    var steerEncoderPosition: real
    var steerReference: SparkReference
    var driveEncoderPosition: real
    var driveEncoderVelocity: real
    var driveReference: SparkReference
    var absolutePosition: real

    function Registers(): RevRegisters
      reads this
    {
      RevRegisters(steerEncoderPosition, steerReference, driveEncoderPosition,
                   driveEncoderVelocity, driveReference, absolutePosition)
    }

    /** The sensors start wherever the hardware is; no reference has been sent yet. */
    constructor (steerDegrees: real, drivePosition: real, driveVelocity: real, absoluteDegrees: real)
      ensures Registers() == RevRegisters(steerDegrees, NoReference, drivePosition, driveVelocity,
                                          NoReference, absoluteDegrees)
    {
      steerEncoderPosition, driveEncoderPosition, driveEncoderVelocity := steerDegrees, drivePosition, driveVelocity;
      absolutePosition := absoluteDegrees;
      steerReference, driveReference := NoReference, NoReference;
    }

    method SetSwerveAngle(swerveAngle: Rotation2d)
      modifies this
      ensures Registers() == WithSwerveAngle(old(Registers()), swerveAngle)
    {
      var steerEncoderDegrees := swerveAngle.Degrees();
      steerEncoderPosition := steerEncoderDegrees;
    }

    method SetSwerveAngleTarget(swerveAngleTarget: Rotation2d)
      modifies this
      ensures Registers() == WithSwerveAngleTarget(old(Registers()), swerveAngleTarget)
    {
      var steerAngleDegrees := swerveAngleTarget.Degrees();
      steerReference := Reference(steerAngleDegrees, Position);
    }

    method SetWheelLinearVelocityTarget(wheelLinearVelocityTarget: real)
      modifies this
      ensures Registers() == WithWheelLinearVelocityTarget(old(Registers()), wheelLinearVelocityTarget)
    {
      driveReference := Reference(wheelLinearVelocityTarget, Velocity);
    }

    method Reset(k: ValidConstants)
      modifies this
      ensures Registers() == AfterReset(old(Registers()), k)
    {
      var swerveEncoderAngle := absolutePosition * k.kRadiansPerDegree;
      SetSwerveAngle(Rotation2d(swerveEncoderAngle));
    }
  }
}
