/**
 * SwerveModule, the base class the drivetrain commands every wheel through: the capability
 * set {getSwerveAngle, setSwerveAngleTarget, getWheelLinearVelocity,
 * setWheelLinearVelocityTarget, getWheelTotalPosition, reset}, the derived getState,
 * getPosition and optimizedAngle, and the dispatch policy applyState. A module is one of the
 * three variants; its register state is a value of ModuleRegisters.
 */
module SwerveModules {
  import opened Wrappers
  import opened Geometry
  import opened Config
  import opened Wpimath
  import Pwm = PwmModule
  import Rev = RevModule
  import Ctre = CtreModule

  /** The register state of a module, by variant. */
  datatype ModuleRegisters = Pwm(pwm: Pwm.PwmRegisters) | Rev(rev: Rev.RevRegisters) | Ctre(ctre: Ctre.CtreRegisters)
  {
    /** The variant invariant: a simulated module's motor outputs lie in [-1, 1]. */
    predicate Valid() { Pwm? ==> pwm.OutputsInRange() }
  }

  /** What a module's motor controller was last told to do, by variant. */
  datatype MotorCommand =
    | PwmOutput(output: real)
    | SparkCommand(reference: Rev.SparkReference)
    | TalonCommand(control: Ctre.TalonControl)

  /**
   * getSwerveAngle(), against each variant's raw steering register: targeting it leaves the
   * simulated steering motor at rest; the REV encoder holds its degrees; the CTRE sensor holds
   * its pulse count.
   */
  function SwerveAngle(r: ModuleRegisters, k: ValidConstants): (a: Rotation2d)
    ensures r.Pwm? ==> Pwm.SteerOutput(a.radians, r.pwm.swerveEncoderDistance) == 0.0
    ensures r.Rev? ==> a.Degrees() == r.rev.steerEncoderPosition
    ensures r.Ctre? ==> Ctre.AngleToPulses(a, k) == r.ctre.steerSensorPosition
  {
    match r
    case Pwm(p) => Pwm.SwerveAngle(p)
    case Rev(v) => Rev.SwerveAngle(v)
    case Ctre(c) => Ctre.SwerveAngle(c, k)
  }

  /**
   * getWheelLinearVelocity(), against each variant's raw drive register: the simulated encoder
   * rate and the REV encoder velocity are already in m/s; the CTRE sensor holds the speed's
   * pulses per 100 ms.
   */
  function WheelLinearVelocity(r: ModuleRegisters, k: ValidConstants): (v: real)
    ensures r.Pwm? ==> v == r.pwm.wheelEncoderRate
    ensures r.Rev? ==> v == r.rev.driveEncoderVelocity
    ensures r.Ctre? ==> Ctre.VelocityToSensorUnits(v, k) == r.ctre.driveSensorVelocity
  {
    match r
    case Pwm(p) => p.wheelEncoderRate
    case Rev(v) => v.driveEncoderVelocity
    case Ctre(c) => Ctre.WheelLinearVelocity(c, k)
  }

  /** getWheelTotalPosition(): the drive encoder's distance; the CTRE variant does not implement it. */
  function WheelTotalPosition(r: ModuleRegisters): (d: Option<real>)
    ensures d.Some? <==> !r.Ctre?
    ensures r.Pwm? ==> d == Some(r.pwm.wheelEncoderDistance)
    ensures r.Rev? ==> d == Some(r.rev.driveEncoderPosition)
  {
    match r
    case Pwm(p) => Some(p.wheelEncoderDistance)
    case Rev(v) => Some(v.driveEncoderPosition)
    case Ctre(_) => None
  }

  /**
   * getState(): the measured wheel velocity at the measured steering angle, against each
   * variant's raw registers.
   */
  function State(r: ModuleRegisters, k: ValidConstants): (s: SwerveModuleState)
    ensures r.Pwm? ==> s.speed == r.pwm.wheelEncoderRate && s.angle.radians == r.pwm.swerveEncoderDistance
    ensures r.Rev? ==> s.speed == r.rev.driveEncoderVelocity && s.angle.Degrees() == r.rev.steerEncoderPosition
    ensures r.Ctre? ==> && Ctre.VelocityToSensorUnits(s.speed, k) == r.ctre.driveSensorVelocity
                        && Ctre.AngleToPulses(s.angle, k) == r.ctre.steerSensorPosition
  {
    SwerveModuleState(WheelLinearVelocity(r, k), SwerveAngle(r, k))
  }

  /** The registers after setSwerveAngle(a); the simulated variant does not implement it. */
  function WithSwerveAngle(r: ModuleRegisters, a: Rotation2d, k: ValidConstants): ModuleRegisters
    requires !r.Pwm?
  {
    match r
    case Rev(v) => Rev(Rev.WithSwerveAngle(v, a))
    case Ctre(c) => Ctre(Ctre.WithSwerveAngle(c, a, k))
  }

  /**
   * getState() after setSwerveAngle(a) reports a, at the unchanged wheel velocity, and
   * getPosition() reports a at the unchanged wheel distance.
   */
  lemma StateAfterSetSwerveAngle(r: ModuleRegisters, a: Rotation2d, k: ValidConstants)
    requires !r.Pwm?
    ensures State(WithSwerveAngle(r, a, k), k) == SwerveModuleState(WheelLinearVelocity(r, k), a)
    ensures WheelTotalPosition(WithSwerveAngle(r, a, k)) == WheelTotalPosition(r)
  {
  }

  /**
   * getPosition(): the total wheel distance at the measured steering angle; it fails
   * (NotImplementedError) exactly for the CTRE variant.
   */
  function Position(r: ModuleRegisters, k: ValidConstants): (p: Option<SwerveModulePosition>)
    ensures p.Some? <==> !r.Ctre?
    ensures p.Some? ==> p.value.angle == SwerveAngle(r, k) && Some(p.value.distance) == WheelTotalPosition(r)
  {
    match WheelTotalPosition(r)
    case Some(d) => Some(SwerveModulePosition(d, SwerveAngle(r, k)))
    case None => None
  }

  /** optimizedAngle(target) */
  function OptimizedAngle(r: ModuleRegisters, targetAngle: Rotation2d, lib: ModuleLibrary, k: ValidConstants): Rotation2d {
    lib.optimizeAngle(SwerveAngle(r, k), targetAngle)
  }

  /**
   * optimizedAngle(target) depends only on the measured angle, so neither target changes it:
   * re-optimizing after the speed target (as applyState does) optimizes against the angle
   * measured before it.
   */
  lemma OptimizedAngleReadsOnlyTheAngle(r: ModuleRegisters, target: Rotation2d, t: Rotation2d, v: real,
                                        lib: ModuleLibrary, k: ValidConstants)
    ensures OptimizedAngle(WithSpeedTarget(r, v, k), target, lib, k) == OptimizedAngle(r, target, lib, k)
    ensures OptimizedAngle(WithAngleTarget(r, t, k), target, lib, k) == OptimizedAngle(r, target, lib, k)
    ensures forall r' :: SwerveAngle(r', k) == SwerveAngle(r, k) ==>
              OptimizedAngle(r', target, lib, k) == OptimizedAngle(r, target, lib, k)
  {
  }

  /** The steering controller's last command. */
  function SteerCommand(r: ModuleRegisters): MotorCommand {
    match r
    case Pwm(p) => PwmOutput(p.swerveMotorOutput)
    case Rev(v) => SparkCommand(v.steerReference)
    case Ctre(c) => TalonCommand(c.steerControl)
  }

  /** The drive controller's last command. */
  function DriveCommand(r: ModuleRegisters): MotorCommand {
    match r
    case Pwm(p) => PwmOutput(p.wheelMotorOutput)
    case Rev(v) => SparkCommand(v.driveReference)
    case Ctre(c) => TalonCommand(c.driveControl)
  }

  /** The registers after setSwerveAngleTarget(t). */
  function WithAngleTarget(r: ModuleRegisters, t: Rotation2d, k: ValidConstants): ModuleRegisters {
    match r
    case Pwm(p) => Pwm(Pwm.WithSwerveAngleTarget(p, t))
    case Rev(v) => Rev(Rev.WithSwerveAngleTarget(v, t))
    case Ctre(c) => Ctre(Ctre.WithSwerveAngleTarget(c, t, k))
  }

  /** The registers after setWheelLinearVelocityTarget(v). */
  function WithSpeedTarget(r: ModuleRegisters, v: real, k: ValidConstants): ModuleRegisters {
    match r
    case Pwm(p) => Pwm(Pwm.WithWheelLinearVelocityTarget(p, v, k))
    case Rev(s) => Rev(Rev.WithWheelLinearVelocityTarget(s, v))
    case Ctre(c) => Ctre(Ctre.WithWheelLinearVelocityTarget(c, v, k))
  }

  /** The registers after reset(); the simulated module's reset does nothing. */
  function AfterReset(r: ModuleRegisters, k: ValidConstants): ModuleRegisters {
    match r
    case Pwm(_) => r
    case Rev(v) => Rev(Rev.AfterReset(v, k))
    case Ctre(c) => Ctre(Ctre.AfterReset(c, k))
  }

  /**
   * The registers after applyState(state): optimize against the current angle, always send
   * the optimized speed, and send the re-optimized angle only when the optimized speed's
   * magnitude reaches kMinWheelLinearVelocity.
   */
  function AppliedState(r: ModuleRegisters, state: SwerveModuleState, lib: ModuleLibrary, k: ValidConstants): ModuleRegisters {
    var optimizedState := lib.optimize(state, SwerveAngle(r, k));
    var afterSpeed := WithSpeedTarget(r, optimizedState.speed, k);
    if Abs(optimizedState.speed) >= k.kMinWheelLinearVelocity then
      WithAngleTarget(afterSpeed, OptimizedAngle(afterSpeed, optimizedState.angle, lib, k), k)
    else
      afterSpeed
  }

  /**
   * Sending a target changes only that target's controller: every reading through the module
   * contract and the other controller's command stay as they were, and the variant invariant
   * holds afterwards.
   */
  lemma TargetsTouchOnlyTheirController(r: ModuleRegisters, t: Rotation2d, v: real, k: ValidConstants)
    ensures State(WithAngleTarget(r, t, k), k) == State(r, k)
    ensures Position(WithAngleTarget(r, t, k), k) == Position(r, k)
    ensures DriveCommand(WithAngleTarget(r, t, k)) == DriveCommand(r)
    ensures State(WithSpeedTarget(r, v, k), k) == State(r, k)
    ensures Position(WithSpeedTarget(r, v, k), k) == Position(r, k)
    ensures SteerCommand(WithSpeedTarget(r, v, k)) == SteerCommand(r)
    ensures r.Valid() ==> WithAngleTarget(r, t, k).Valid() && WithSpeedTarget(r, v, k).Valid()
  {
  }

  /**
   * The applyState policy, against the registers before the call: the drive controller holds
   * the command for the optimized speed; the steering controller holds the command for
   * optimizeAngle(current angle, optimized angle) when the optimized speed's magnitude is at
   * least kMinWheelLinearVelocity, and is left exactly as it was otherwise; no reading changes
   * and the variant invariant is kept.
   */
  lemma ApplyStatePolicy(r: ModuleRegisters, state: SwerveModuleState, lib: ModuleLibrary, k: ValidConstants)
    ensures var optimizedState := lib.optimize(state, SwerveAngle(r, k));
      var r' := AppliedState(r, state, lib, k);
      && DriveCommand(r') == DriveCommand(WithSpeedTarget(r, optimizedState.speed, k))
      && (Abs(optimizedState.speed) >= k.kMinWheelLinearVelocity ==>
            SteerCommand(r') == SteerCommand(WithAngleTarget(r, lib.optimizeAngle(SwerveAngle(r, k), optimizedState.angle), k)))
      && (Abs(optimizedState.speed) < k.kMinWheelLinearVelocity ==> SteerCommand(r') == SteerCommand(r))
      && (SteerCommand(r') != SteerCommand(r) ==> Abs(optimizedState.speed) >= k.kMinWheelLinearVelocity)
      && State(r', k) == State(r, k) && Position(r', k) == Position(r, k)
      && (r.Valid() ==> r'.Valid())
  {
    var optimizedState := lib.optimize(state, SwerveAngle(r, k));
    var afterSpeed := WithSpeedTarget(r, optimizedState.speed, k);
    TargetsTouchOnlyTheirController(r, optimizedState.angle, optimizedState.speed, k);
    var t := OptimizedAngle(afterSpeed, optimizedState.angle, lib, k);
    TargetsTouchOnlyTheirController(afterSpeed, t, optimizedState.speed, k);
  }

  /**
   * reset() re-seeds the steering angle of the hardware variants from the absolute sensor's
   * degrees times kRadiansPerDegree and changes no command; the simulated module is untouched.
   */
  lemma ResetReseedsAngle(r: ModuleRegisters, k: ValidConstants)
    ensures r.Pwm? ==> AfterReset(r, k) == r
    ensures r.Rev? ==> SwerveAngle(AfterReset(r, k), k) == Rotation2d(r.rev.absolutePosition * k.kRadiansPerDegree)
    ensures r.Ctre? ==> SwerveAngle(AfterReset(r, k), k) == Rotation2d(r.ctre.absolutePosition * k.kRadiansPerDegree)
    ensures SteerCommand(AfterReset(r, k)) == SteerCommand(r) && DriveCommand(AfterReset(r, k)) == DriveCommand(r)
    ensures r.Valid() ==> AfterReset(r, k).Valid()
  {
  }

  /** applyState keeps the variant invariant. */
  lemma AppliedStateKeepsValid(r: ModuleRegisters, state: SwerveModuleState, lib: ModuleLibrary, k: ValidConstants)
    requires r.Valid()
    ensures AppliedState(r, state, lib, k).Valid()
  {
  }

  /** reset keeps the variant invariant. */
  lemma AfterResetKeepsValid(r: ModuleRegisters, k: ValidConstants)
    requires r.Valid()
    ensures AfterReset(r, k).Valid()
  {
  }

  /** A module object of one of the three variants. */
  datatype SwerveModule =
    | PwmModule(pwm: Pwm.PWMSwerveModule)
    | RevModule(rev: Rev.REVSwerveModule)
    | CtreModule(ctre: Ctre.CTRESwerveModule)
  {
    function Obj(): object {
      match this
      case PwmModule(m) => m
      case RevModule(m) => m
      case CtreModule(m) => m
    }

    function Registers(): ModuleRegisters
      reads Obj()
    {
      match this
      case PwmModule(m) => Pwm(m.Registers())
      case RevModule(m) => Rev(m.Registers())
      case CtreModule(m) => Ctre(m.Registers())
    }

    function GetSwerveAngle(k: ValidConstants): Rotation2d
      reads Obj()
    {
      SwerveAngle(Registers(), k)
    }

    /** optimizedAngle(target), against the module's current angle. */
    function OptimizedAngle(targetAngle: Rotation2d, lib: ModuleLibrary, k: ValidConstants): Rotation2d
      reads Obj()
    {
      lib.optimizeAngle(GetSwerveAngle(k), targetAngle)
    }

    method SetSwerveAngleTarget(swerveAngleTarget: Rotation2d, k: ValidConstants)
      modifies Obj()
      ensures Registers() == WithAngleTarget(old(Registers()), swerveAngleTarget, k)
    {
      match this
      case PwmModule(m) => m.SetSwerveAngleTarget(swerveAngleTarget);
      case RevModule(m) => m.SetSwerveAngleTarget(swerveAngleTarget);
      case CtreModule(m) => m.SetSwerveAngleTarget(swerveAngleTarget, k);
    }

    method SetWheelLinearVelocityTarget(wheelLinearVelocityTarget: real, k: ValidConstants)
      modifies Obj()
      ensures Registers() == WithSpeedTarget(old(Registers()), wheelLinearVelocityTarget, k)
    {
      match this
      case PwmModule(m) => m.SetWheelLinearVelocityTarget(wheelLinearVelocityTarget, k);
      case RevModule(m) => m.SetWheelLinearVelocityTarget(wheelLinearVelocityTarget);
      case CtreModule(m) => m.SetWheelLinearVelocityTarget(wheelLinearVelocityTarget, k);
    }

    method Reset(k: ValidConstants)
      modifies Obj()
      ensures Registers() == AfterReset(old(Registers()), k)
    {
      match this
      case PwmModule(_) =>
      case RevModule(m) => m.Reset(k);
      case CtreModule(m) => m.Reset(k);
    }

    method ApplyState(state: SwerveModuleState, lib: ModuleLibrary, k: ValidConstants)
      modifies Obj()
      ensures Registers() == AppliedState(old(Registers()), state, lib, k)
    {
      var optimizedState := lib.optimize(state, GetSwerveAngle(k));
      SetWheelLinearVelocityTarget(optimizedState.speed, k);
      if Abs(optimizedState.speed) >= k.kMinWheelLinearVelocity {
        var optimizedAngle := OptimizedAngle(optimizedState.angle, lib, k);
        SetSwerveAngleTarget(optimizedAngle, k);
      }
    }
  }
}
