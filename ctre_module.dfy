/**
 * CTRESwerveModule: TalonFX controllers whose integrated sensors count raw pulses (steering
 * position in pulses, drive velocity in pulses per 100 ms), plus a CANCoder that reports the
 * absolute steering angle in degrees. The unit conversions live here.
 */
module CtreModule {
  import opened Geometry
  import opened Config

  /** ctre.ControlMode */
  datatype ControlMode = PercentOutput | Position | Velocity

  /** The last set(mode, value) a TalonFX received. */
  datatype TalonControl = TalonControl(mode: ControlMode, value: real)

  datatype CtreRegisters = CtreRegisters(
    steerSensorPosition: real,    // steerMotor selected sensor position, pulses
    steerControl: TalonControl,
    driveSensorVelocity: real,    // driveMotor selected sensor velocity, pulses per 100 ms
    driveControl: TalonControl,
    absolutePosition: real)       // swerveEncoder.getAbsolutePosition(), degrees

  /** Steering pulses for an angle: reading them back gives that angle again. */
  function AngleToPulses(a: Rotation2d, k: ValidConstants): (pulses: real)
    ensures PulsesToAngle(pulses, k) == a
  {
    a.radians * k.kSwerveEncoderPulsesPerRadian
  }

  /** The angle a steering pulse count stands for: the one whose pulse count it is. */
  function PulsesToAngle(pulses: real, k: ValidConstants): (a: Rotation2d)
    ensures a.radians * k.kSwerveEncoderPulsesPerRadian == pulses
  {
    Rotation2d(pulses / k.kSwerveEncoderPulsesPerRadian)
  }

  /** Drive sensor units (pulses per 100 ms) for a wheel speed: reading them back gives the speed. */
  function VelocityToSensorUnits(v: real, k: ValidConstants): (units: real)
    ensures SensorUnitsToVelocity(units, k) == v
  {
    v * k.kWheelEncoderPulsesPerMeter / k.k100MillisecondsPerSecond
  }

  /** The wheel speed (m/s) drive sensor units stand for: the one whose sensor units they are. */
  function SensorUnitsToVelocity(units: real, k: ValidConstants): (v: real)
    ensures v * k.kWheelEncoderPulsesPerMeter / k.k100MillisecondsPerSecond == units
  {
    units * k.k100MillisecondsPerSecond / k.kWheelEncoderPulsesPerMeter
  }

  /** getSwerveAngle(): the angle whose steering pulse count the sensor holds. */
  function SwerveAngle(r: CtreRegisters, k: ValidConstants): (a: Rotation2d)
    ensures AngleToPulses(a, k) == r.steerSensorPosition
  {
    PulsesToAngle(r.steerSensorPosition, k)
  }

  /** getWheelLinearVelocity(): the speed whose sensor units the drive sensor holds. */
  function WheelLinearVelocity(r: CtreRegisters, k: ValidConstants): (v: real)
    ensures VelocityToSensorUnits(v, k) == r.driveSensorVelocity
  {
    SensorUnitsToVelocity(r.driveSensorVelocity, k)
  }

  /** The registers after setSwerveAngle(a): the module then reads back exactly a. */
  function WithSwerveAngle(r: CtreRegisters, a: Rotation2d, k: ValidConstants): (r': CtreRegisters)
    ensures SwerveAngle(r', k) == a
    ensures r' == r.(steerSensorPosition := r'.steerSensorPosition)
  {
    r.(steerSensorPosition := AngleToPulses(a, k))
  }

  /** The registers after setSwerveAngleTarget(t): a position command in pulses. */
  function WithSwerveAngleTarget(r: CtreRegisters, t: Rotation2d, k: ValidConstants): CtreRegisters {
    r.(steerControl := TalonControl(Position, AngleToPulses(t, k)))
  }

  /** The registers after setWheelLinearVelocityTarget(v): a velocity command in pulses per 100 ms. */
  function WithWheelLinearVelocityTarget(r: CtreRegisters, v: real, k: ValidConstants): CtreRegisters {
    r.(driveControl := TalonControl(Velocity, VelocityToSensorUnits(v, k)))
  }

  /** The registers after reset(): the angle is re-seeded from the absolute sensor. */
  function AfterReset(r: CtreRegisters, k: ValidConstants): (r': CtreRegisters)
    ensures SwerveAngle(r', k) == Rotation2d(r.absolutePosition * k.kRadiansPerDegree)
    ensures r' == r.(steerSensorPosition := r'.steerSensorPosition)
  {
    WithSwerveAngle(r, Rotation2d(r.absolutePosition * k.kRadiansPerDegree), k)
  }

  /**
   * When the drive sensor's velocity equals the value last commanded by
   * setWheelLinearVelocityTarget(v), getWheelLinearVelocity() returns v.
   */
  lemma VelocityRoundTrip(r: CtreRegisters, v: real, k: ValidConstants)
    ensures var sent := WithWheelLinearVelocityTarget(r, v, k);
      WheelLinearVelocity(sent.(driveSensorVelocity := sent.driveControl.value), k) == v
  {
  }

  /** When the steering sensor reaches the commanded position, getSwerveAngle() returns t. */
  lemma SteerTargetReachesTarget(r: CtreRegisters, t: Rotation2d, k: ValidConstants)
    ensures var sent := WithSwerveAngleTarget(r, t, k);
      SwerveAngle(sent.(steerSensorPosition := sent.steerControl.value), k) == t
  {
  }

  class CTRESwerveModule {
    var steerSensorPosition: real
    var steerControl: TalonControl
    var driveSensorVelocity: real
    var driveControl: TalonControl
    var absolutePosition: real

    function Registers(): CtreRegisters
      reads this
    {
      CtreRegisters(steerSensorPosition, steerControl, driveSensorVelocity, driveControl, absolutePosition)
    }

    /** The sensors start wherever the hardware is; both controllers start at 0% output. */
    constructor (steerPulses: real, driveVelocity: real, absoluteDegrees: real)
      ensures Registers() == CtreRegisters(steerPulses, TalonControl(PercentOutput, 0.0), driveVelocity,
                                           TalonControl(PercentOutput, 0.0), absoluteDegrees)
    {
      steerSensorPosition, driveSensorVelocity, absolutePosition := steerPulses, driveVelocity, absoluteDegrees;
      steerControl, driveControl := TalonControl(PercentOutput, 0.0), TalonControl(PercentOutput, 0.0);
    }

    method SetSwerveAngle(swerveAngle: Rotation2d, k: ValidConstants)
      modifies this
      ensures Registers() == WithSwerveAngle(old(Registers()), swerveAngle, k)
    {
      var steerEncoderPulses := swerveAngle.radians * k.kSwerveEncoderPulsesPerRadian;
      steerSensorPosition := steerEncoderPulses;
    }

    method SetSwerveAngleTarget(swerveAngleTarget: Rotation2d, k: ValidConstants)
      modifies this
      ensures Registers() == WithSwerveAngleTarget(old(Registers()), swerveAngleTarget, k)
    {
      var steerEncoderPulsesTarget := swerveAngleTarget.radians * k.kSwerveEncoderPulsesPerRadian;
      steerControl := TalonControl(Position, steerEncoderPulsesTarget);
    }

    method SetWheelLinearVelocityTarget(wheelLinearVelocityTarget: real, k: ValidConstants)
      modifies this
      ensures Registers() == WithWheelLinearVelocityTarget(old(Registers()), wheelLinearVelocityTarget, k)
    {
      var driveEncoderPulsesPerSecond := wheelLinearVelocityTarget * k.kWheelEncoderPulsesPerMeter;
      driveControl := TalonControl(Velocity, driveEncoderPulsesPerSecond / k.k100MillisecondsPerSecond);
    }

    method Reset(k: ValidConstants)
      modifies this
      ensures Registers() == AfterReset(old(Registers()), k)
    {
      var swerveEncoderAngle := absolutePosition * k.kRadiansPerDegree;
      SetSwerveAngle(Rotation2d(swerveEncoderAngle), k);
    }
  }
}
