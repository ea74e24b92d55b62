/**
 * PWMSwerveModule, the simulation variant: two PWM motor controllers that take an
 * open-loop output in [-1, 1], and two encoders that report the wheel distance in meters
 * (and its rate in m/s) and the steering angle in radians.
 */
module PwmModule {
  import opened Geometry
  import opened Config

  /** Everything the variant reads from or writes to its hardware. */
  datatype PwmRegisters = PwmRegisters(
    wheelEncoderDistance: real,   // wheelEncoder.getDistance(), meters
    wheelEncoderRate: real,       // wheelEncoder.getRate(), meters per second
    swerveEncoderDistance: real,  // swerveEncoder.getDistance(), radians
    wheelMotorOutput: real,       // last value passed to wheelMotor.set
    swerveMotorOutput: real)      // last value passed to swerveMotor.set
  {
    /** A PWM controller only ever receives outputs in [-1, 1]. */
    predicate OutputsInRange() {
      -1.0 <= wheelMotorOutput <= 1.0 && -1.0 <= swerveMotorOutput <= 1.0
    }
  }

  /** min(max(x, -1), 1) */
  function Clamp(x: real): real { Min(Max(x, -1.0), 1.0) }

  /**
   * The steering motor output for a target angle: the angle error when it lies in [-1, 1],
   * saturated at ±1 with the error's sign otherwise; zero exactly when on target.
   */
  function SteerOutput(targetRadians: real, encoderRadians: real): (out: real)
    ensures -1.0 <= out <= 1.0
    ensures -1.0 <= targetRadians - encoderRadians <= 1.0 ==> out == targetRadians - encoderRadians
    ensures targetRadians - encoderRadians > 1.0 ==> out == 1.0
    ensures targetRadians - encoderRadians < -1.0 ==> out == -1.0
    ensures (out > 0.0 <==> targetRadians > encoderRadians) && (out == 0.0 <==> targetRadians == encoderRadians)
  {
    Clamp(targetRadians - encoderRadians)
  }

  /**
   * The wheel motor output for a target speed: the speed as a fraction of the wheel speed
   * maximum when within it, saturated at ±1 with the speed's sign otherwise.
   */
  function DriveOutput(target: real, k: ValidConstants): (out: real)
    ensures -1.0 <= out <= 1.0
    ensures Abs(target) <= k.kMaxWheelLinearVelocity ==> out * k.kMaxWheelLinearVelocity == target
    ensures target > k.kMaxWheelLinearVelocity ==> out == 1.0
    ensures target < -k.kMaxWheelLinearVelocity ==> out == -1.0
    ensures (out > 0.0 <==> target > 0.0) && (out == 0.0 <==> target == 0.0)
  {
    var speedFactor := target / k.kMaxWheelLinearVelocity;
    FractionBounds(target, k.kMaxWheelLinearVelocity);
    Clamp(speedFactor)
  }

  /** How target / max compares with -1, 0 and 1. */
  lemma FractionBounds(target: real, max: real)
    requires max > 0.0
    ensures Abs(target) <= max ==> -1.0 <= target / max <= 1.0
    ensures target > max ==> target / max > 1.0
    ensures target < -max ==> target / max < -1.0
    ensures (target / max > 0.0 <==> target > 0.0) && (target / max == 0.0 <==> target == 0.0)
  {
    var q := target / max;
    assert q * max == target;
    // target - max and target + max are (q - 1) * max and (q + 1) * max, with max positive
    assert target - max == (q - 1.0) * max;
    assert target + max == (q + 1.0) * max;
    ProductSign(q - 1.0, max);
    ProductSign(q + 1.0, max);
    ProductSign(q, max);
  }

  /** A product with a positive factor has the sign of the other factor. */
  lemma ProductSign(a: real, b: real)
    requires b > 0.0
    ensures (a * b > 0.0 <==> a > 0.0) && (a * b == 0.0 <==> a == 0.0) && (a * b < 0.0 <==> a < 0.0)
  {
    if a > 0.0 {
      assert a * b > 0.0;
    } else if a < 0.0 {
      assert (-a) * b > 0.0;
    }
  }

  /**
   * getSwerveAngle(): the steering encoder's distance, as a rotation; targeting the angle the
   * module reports leaves the steering motor at rest.
   */
  function SwerveAngle(r: PwmRegisters): (a: Rotation2d)
    ensures SteerOutput(a.radians, r.swerveEncoderDistance) == 0.0
  {
    Rotation2d(r.swerveEncoderDistance)
  }

  /** The registers after setSwerveAngleTarget(t). */
  function WithSwerveAngleTarget(r: PwmRegisters, t: Rotation2d): PwmRegisters {
    r.(swerveMotorOutput := SteerOutput(t.radians, r.swerveEncoderDistance))
  }

  /** The registers after setWheelLinearVelocityTarget(v). */
  function WithWheelLinearVelocityTarget(r: PwmRegisters, v: real, k: ValidConstants): PwmRegisters {
    r.(wheelMotorOutput := DriveOutput(v, k))
  }

  class PWMSwerveModule {
    var wheelEncoderDistance: real
    var wheelEncoderRate: real
    var swerveEncoderDistance: real
    var wheelMotorOutput: real
    var swerveMotorOutput: real

    function Registers(): PwmRegisters
      reads this
    {
      PwmRegisters(wheelEncoderDistance, wheelEncoderRate, swerveEncoderDistance,
                   wheelMotorOutput, swerveMotorOutput)
    }

    /**
     * The encoders are handed in with whatever they read; the PWM controllers are fresh
     * (DriveSubsystem constructs them with the module), so their output is WPILib's 0.
     */
    constructor (wheelDistance: real, wheelRate: real, swerveDistance: real)
      ensures Registers() == PwmRegisters(wheelDistance, wheelRate, swerveDistance, 0.0, 0.0)
    {
      wheelEncoderDistance, wheelEncoderRate, swerveEncoderDistance := wheelDistance, wheelRate, swerveDistance;
      wheelMotorOutput, swerveMotorOutput := 0.0, 0.0;
    }

    method SetSwerveAngleTarget(swerveAngleTarget: Rotation2d)
      modifies this
      ensures Registers() == WithSwerveAngleTarget(old(Registers()), swerveAngleTarget)
    {
      var swerveError := swerveAngleTarget.radians - swerveEncoderDistance;
      var swerveErrorClamped := Clamp(swerveError);
      swerveMotorOutput := swerveErrorClamped;
    }

    method SetWheelLinearVelocityTarget(wheelLinearVelocityTarget: real, k: ValidConstants)
      modifies this
      ensures Registers() == WithWheelLinearVelocityTarget(old(Registers()), wheelLinearVelocityTarget, k)
    {
      var speedFactor := wheelLinearVelocityTarget / k.kMaxWheelLinearVelocity;
      var speedFactorClamped := Clamp(speedFactor);
      wheelMotorOutput := speedFactorClamped;
    }
  }
}
