/**
 * The tunables the drivetrain reads from its global constants module, gathered into one
 * immutable record that is passed to every operation that needs them.
 */
module Config {
  import opened Geometry

  datatype Constants = Constants(
    kMinWheelLinearVelocity: real,      // below this optimized speed no steering target is sent
    kMaxWheelLinearVelocity: real,      // desaturation limit and PWM full-scale speed (m/s)
    kSwerveEncoderPulsesPerRadian: real,
    kWheelEncoderPulsesPerMeter: real,
    k100MillisecondsPerSecond: real,    // CTRE velocities are in pulses per 100 ms
    kRadiansPerDegree: real,
    kMaxForwardLinearVelocity: real,
    kMaxSidewaysLinearVelocity: real,
    kMaxRotationAngularVelocity: real,
    kFrontLeftWheelPosition: Translation2d,
    kFrontRightWheelPosition: Translation2d,
    kBackLeftWheelPosition: Translation2d,
    kBackRightWheelPosition: Translation2d)
  {
    /** The constants divided by are non-zero; the wheel speed maximum is positive. */
    predicate Valid() {
      kMaxWheelLinearVelocity > 0.0
      && kSwerveEncoderPulsesPerRadian != 0.0
      && kWheelEncoderPulsesPerMeter != 0.0
      && k100MillisecondsPerSecond != 0.0
    }
  }

  type ValidConstants = k: Constants | k.Valid()
    witness Constants(0.0, 1.0, 1.0, 1.0, 1.0, 0.0, 0.0, 0.0, 0.0,
                      Translation2d(0.0, 0.0), Translation2d(0.0, 0.0),
                      Translation2d(0.0, 0.0), Translation2d(0.0, 0.0))
}
