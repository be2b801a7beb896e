/**
  The motor layer on top of the DRV8711 driver: two brushed motors driven by
  PWM, a brake mode mapped to the driver's decay mode, a current limit kept
  for self-healing, and the periodic fault poll.

  The two PWM units are abstract: each has an A and a B channel, and each
  channel is either forced low or driven with a duty cycle in percent.
  Speeds and currents are real numbers (the firmware's floats without NaN or
  infinities). The driver and the stored limit, globals in the firmware, are
  fields of the `Controller` state.
 */
module Motors {
  import opened Registers
  import opened Spi
  import opened Drv8711

  // The `MOTOR` and `BRAKE_MODE` enumerators.
  const LeftMotor: int := 0
  const RightMotor: int := 1
  const Neutral: int := 0
  const AutoBrake: int := 1

  /** The stored current limit before any call to `setCurrentLimit`. */
  const InitialCurrentLimit: real := 10.0

  datatype Channel = ForcedLow | Duty(percent: real)

  /** One PWM unit: channel A drives the motor forward, channel B backward. */
  datatype Unit = Unit(a: Channel, b: Channel)

  /** Unit 0 drives the right motor, unit 1 every other motor value. */
  datatype Pwm = Pwm(unit0: Unit, unit1: Unit)

  /** The motor layer's state: the driver's bus, the PWM outputs and the stored current limit. */
  datatype Controller = Controller(bus: Bus, pwm: Pwm, currentLimit: real)

  /** Both channels of both units start with a zero duty cycle. */
  const IdlePwm := Pwm(Unit(Duty(0.0), Duty(0.0)), Unit(Duty(0.0), Duty(0.0)))

  function Abs(x: real): real {
    if x < 0.0 then -x else x
  }

  function Min(x: real, y: real): real {
    if x <= y then x else y
  }

  /** `validateSpeed`: the speed limited to [-100, 100]. */
  function ValidateSpeed(speed: real): (v: real)
    ensures -100.0 <= v <= 100.0
    ensures -100.0 <= speed <= 100.0 ==> v == speed
    ensures (speed > 100.0 ==> v == 100.0) && (speed < -100.0 ==> v == -100.0)
  {
    if speed > 100.0 then 100.0
    else if speed < -100.0 then -100.0
    else speed
  }

  /** The validated speed is the closest speed to the request that lies in range. */
  lemma ValidateSpeedNearest(speed: real, x: real)
    requires -100.0 <= x <= 100.0
    ensures Abs(ValidateSpeed(speed) - speed) <= Abs(x - speed)
  {
  }

  /** The unit that drives `motor`. */
  function UnitOf(p: Pwm, motor: int): Unit {
    if motor == RightMotor then p.unit0 else p.unit1
  }

  /** `p` with the unit driving `motor` replaced by `u`. */
  function WithUnit(p: Pwm, motor: int, u: Unit): (p': Pwm)
    ensures UnitOf(p', motor) == u
  {
    if motor == RightMotor then p.(unit0 := u) else p.(unit1 := u)
  }

  /** `setMotorForwardSpeed`: channel B forced low, channel A driven at the validated speed. */
  function SetMotorForwardSpeed(p: Pwm, motor: int, speed: real): (p': Pwm)
    ensures UnitOf(p', motor).b == ForcedLow && UnitOf(p', motor).a.Duty?
    ensures speed >= 0.0 ==> UnitOf(p', motor).a.percent == Min(speed, 100.0)
    ensures motor == RightMotor ==> p'.unit1 == p.unit1
    ensures motor != RightMotor ==> p'.unit0 == p.unit0
  {
    var s := ValidateSpeed(speed);
    WithUnit(p, motor, Unit(Duty(s), ForcedLow))
  }

  /** `setMotorBackwardSpeed`: channel A forced low, channel B driven at the negated validated speed. */
  function SetMotorBackwardSpeed(p: Pwm, motor: int, speed: real): (p': Pwm)
    ensures UnitOf(p', motor).a == ForcedLow && UnitOf(p', motor).b.Duty?
    ensures speed <= 0.0 ==> UnitOf(p', motor).b.percent == Min(-speed, 100.0)
    ensures motor == RightMotor ==> p'.unit1 == p.unit1
    ensures motor != RightMotor ==> p'.unit0 == p.unit0
  {
    var s := -ValidateSpeed(speed);
    WithUnit(p, motor, Unit(ForcedLow, Duty(s)))
  }

  /** `setMotorSpeed`: forward for a speed of zero or more, backward otherwise. */
  function SetMotorSpeed(p: Pwm, motor: int, speed: real): (p': Pwm)
    ensures speed >= 0.0 ==> UnitOf(p', motor) == Unit(Duty(Min(speed, 100.0)), ForcedLow)
    ensures speed < 0.0 ==> UnitOf(p', motor) == Unit(ForcedLow, Duty(Min(-speed, 100.0)))
    ensures motor == RightMotor ==> p'.unit1 == p.unit1
    ensures motor != RightMotor ==> p'.unit0 == p.unit0
  {
    if speed >= 0.0 then SetMotorForwardSpeed(p, motor, speed)
    else SetMotorBackwardSpeed(p, motor, speed)
  }

  /** A channel's duty cycle, when it has one, is a percentage. */
  predicate ChannelInRange(c: Channel) {
    c.Duty? ==> 0.0 <= c.percent <= 100.0
  }

  /** A channel that does not drive the motor. */
  predicate Idle(c: Channel) {
    c.ForcedLow? || c.percent == 0.0
  }

  /** A unit never drives both directions at once, and its duty cycles are percentages. */
  predicate UnitSafe(u: Unit) {
    ChannelInRange(u.a) && ChannelInRange(u.b) && (Idle(u.a) || Idle(u.b))
  }

  predicate PwmSafe(p: Pwm) {
    UnitSafe(p.unit0) && UnitSafe(p.unit1)
  }

  lemma IdlePwmSafe()
    ensures PwmSafe(IdlePwm)
  {
  }

  /**
    Whatever the request, after `setMotorSpeed` the motor's unit has one
    channel forced low and the other driven at a percentage whose direction
    follows the sign of the speed; a safe PWM state stays safe.
   */
  lemma SetMotorSpeedSafe(p: Pwm, motor: int, speed: real)
    ensures var u := UnitOf(SetMotorSpeed(p, motor, speed), motor);
            && UnitSafe(u)
            && (u.a.ForcedLow? <==> speed < 0.0)
            && (u.b.ForcedLow? <==> speed >= 0.0)
    ensures PwmSafe(p) ==> PwmSafe(SetMotorSpeed(p, motor, speed))
  {
  }

  /** A duty cycle is the magnitude of the request, capped at 100. */
  lemma SetMotorSpeedDutyIsMagnitude(p: Pwm, motor: int, speed: real)
    ensures var u := UnitOf(SetMotorSpeed(p, motor, speed), motor);
            (if u.a.Duty? then u.a.percent else u.b.percent) == Min(Abs(speed), 100.0)
  {
  }

  /** `validateCurrent`: the current limited to [0, 20] A; a negative request becomes 0. */
  function ValidateCurrent(current: real): (v: real)
    ensures 0.0 <= v <= 20.0
    ensures 0.0 <= current <= 20.0 ==> v == current
    ensures (current > 20.0 ==> v == 20.0) && (current < 0.0 ==> v == 0.0)
  {
    if current > 20.0 then 20.0
    else if current < 0.0 then 0.0
    else current
  }

  /** The validated current is the closest current to the request that lies in range. */
  lemma ValidateCurrentNearest(current: real, x: real)
    requires 0.0 <= x <= 20.0
    ensures Abs(ValidateCurrent(current) - current) <= Abs(x - current)
  {
  }

  /** The byte `(uint8_t) current` passed to the driver: the validated current truncated to whole amperes. */
  function LimitAmps(current: real): (a: bv8)
    ensures a as int == ValidateCurrent(current).Floor
    ensures a <= 20
  {
    var n := ValidateCurrent(current).Floor;
    SmallByte(n)
  }

  /** A whole number from 0 to 20 as a byte. */
  function SmallByte(n: int): (a: bv8)
    requires 0 <= n <= 20
    ensures a as int == n
  {
    n as bv8
  }

  /** Every limit the motor layer passes is accepted by the driver, with a torque code of at most 111. */
  lemma MotorLimitAccepted(current: real)
    ensures LimitAmps(current) <= 50
    ensures TorqueCode(LimitAmps(current) as int) <= 111
    ensures |CurrentLimitEdits(LimitAmps(current))| == 2
  {
    var a := LimitAmps(current) as int;
    assert (a + 4) * 256 <= 24 * 256;
  }

  /** `setCurrentLimit`: stores the raw request, then sets the driver's limit to the truncated validated current. */
  method SetCurrentLimit(m: Controller, current: real) returns (m': Controller)
    ensures m'.currentLimit == current
    ensures m'.pwm == m.pwm
    ensures Performed(m.bus, m'.bus, CurrentLimitEdits(LimitAmps(current)))
  {
    var amps := LimitAmps(current);
    var b := Drv8711.SetCurrentLimit(m.bus, amps);
    m' := Controller(b, m.pwm, current);
  }

  /**
    `setMotorBrakeMode`: auto-brake selects fast decay (2), neutral selects
    slow decay (0), any other value writes nothing.
   */
  method SetMotorBrakeMode(m: Controller, mode: int) returns (m': Controller)
    ensures m'.pwm == m.pwm && m'.currentLimit == m.currentLimit
    ensures mode == AutoBrake ==> FieldWritten(m.bus, m'.bus, DecayMode, 2)
    ensures mode == Neutral ==> FieldWritten(m.bus, m'.bus, DecayMode, 0)
    ensures mode != AutoBrake && mode != Neutral ==> m' == m
  {
    m' := m;
    if mode == AutoBrake {
      var b := SetDecayMode(m.bus, ForceFastDecay);
      m' := m.(bus := b);
    } else if mode == Neutral {
      var b := SetDecayMode(m.bus, ForceSlowDecay);
      m' := m.(bus := b);
    }
  }

  /** The driver edits of a recovery: the default profile, then the stored limit. */
  function RecoveryEdits(limit: real): seq<Edit> {
    ProfileEdits() + CurrentLimitEdits(LimitAmps(limit))
  }

  /**
    The register file a recovery leaves: the profile's target with the
    torque byte of the stored limit and STATUS cleared.
   */
  function RecoveryTarget(r: Regs, limit: real): Regs {
    ProfileTarget(r).(torque := (r.torque & 0xF00) | LimitAmpsTorque(limit), status := 0)
  }

  /** The torque byte the driver computes for the stored limit, as a register value. */
  function LimitAmpsTorque(limit: real): (t: Reg12)
    ensures t as int == TorqueCode(LimitAmps(limit) as int)
  {
    MotorLimitAccepted(limit);
    TorqueByteIsCode(LimitAmps(limit));
    TorqueByte(LimitAmps(limit)) as Reg12
  }

  /** The bus after `writeRegister(STATUS_REG_ADDR, 0)`: one write frame; a connected chip's STATUS becomes 0. */
  function StatusCleared(b: Bus): Bus {
    Bus(if b.chip.connected then b.chip.(regs := b.chip.regs.(status := 0)) else b.chip,
        b.sent + [WriteFrame(StatusAddr as bv8, 0)])
  }

  /** `writeRegister(STATUS_REG_ADDR, 0)`, as `init` and `checkFaults` issue it. */
  method ClearStatus(b: Bus) returns (b': Bus)
    ensures b' == StatusCleared(b)
  {
    b' := WriteRegister(b, StatusAddr as bv8, 0);
    StatusWriteClears(b.chip.regs);
  }

  /** Writing 0 to the STATUS address clears STATUS and nothing else. */
  lemma StatusWriteClears(r: Regs)
    ensures r.Set(AddrOf(StatusAddr as bv8), ((0 as Word) & 0xFFF) as Reg12) == r.(status := 0)
  {
    AddrRoundTrip(StatusAddr);
  }

  /**
    The recovery branch of `checkFaults`: clear STATUS, run the default
    profile, and apply the stored (raw) limit again through `setCurrentLimit`.
    Every frame is stated, so this holds for a chip that no longer answers too.
   */
  method Reconnect(m: Controller) returns (m': Controller)
    ensures m'.pwm == m.pwm && m'.currentLimit == m.currentLimit
    ensures Performed(StatusCleared(m.bus), m'.bus, RecoveryEdits(m.currentLimit))
  {
    var b1 := ClearStatus(m.bus);
    var b2 := DefaultBrushedMotorProfile(b1);
    m' := SetCurrentLimit(m.(bus := b2), m.currentLimit);
    PerformedThen(b1, b2, m'.bus, ProfileEdits(), CurrentLimitEdits(LimitAmps(m.currentLimit)));
  }

  /**
    Whatever the chip held, a recovery leaves exactly the profile's settings,
    the torque code of the stored limit and a clear STATUS.
   */
  lemma RecoveryReachesTarget(r: Regs, limit: real)
    ensures ApplyEdits(r.(status := 0), RecoveryEdits(limit)) == RecoveryTarget(r, limit)
  {
    var r0 := r.(status := 0);
    var a := LimitAmps(limit);
    MotorLimitAccepted(limit);
    ApplyEditsAppend(r0, ProfileEdits(), CurrentLimitEdits(a));
    ProfileReachesTarget(r0);
    var t := ProfileTarget(r0);
    assert t == ProfileTarget(r).(status := 0);
    LimitAfterProfile(t, a);
    TorqueHighBitsKept(r.torque);
  }

  lemma TorqueHighBitsKept(v: Reg12)
    ensures ((v & 0xF00) | 65) & 0xF00 == v & 0xF00
  {
  }

  /** With the gain already x5, an accepted limit only replaces the torque byte. */
  lemma LimitAfterProfile(t: Regs, a: bv8)
    requires a <= 50 && t.ctrl & 0x300 == 0
    ensures ApplyEdits(t, CurrentLimitEdits(a)) == t.(torque := (t.torque & 0xF00) | TorqueByte(a) as Reg12)
  {
    CurrentLimitUnfold(t, a);
    TorqueAfterGain(t, TorqueByte(a));
  }

  /** Forcing gain x5 on a CTRL whose gain is already x5, then writing a torque byte, only replaces that byte. */
  lemma TorqueAfterGain(t: Regs, tb: bv8)
    requires t.ctrl & 0x300 == 0
    ensures Apply(Apply(t, FieldEdit(CtrlGain, Narrow(Gain5))), FieldEdit(TorqueField, tb as Word))
         == t.(torque := (t.torque & 0xF00) | tb as Reg12)
  {
    RecoveryCtrl(t, FieldEdit(CtrlGain, Narrow(Gain5)));
    RecoveryTorque(t, tb);
  }

  lemma CurrentLimitUnfold(r: Regs, a: bv8)
    requires a <= 50
    ensures ApplyEdits(r, CurrentLimitEdits(a))
         == Apply(Apply(r, FieldEdit(CtrlGain, Narrow(Gain5))), FieldEdit(TorqueField, TorqueByte(a) as Word))
  {
    var g := FieldEdit(CtrlGain, Narrow(Gain5));
    var tq := FieldEdit(TorqueField, TorqueByte(a) as Word);
    assert CurrentLimitEdits(a) == [g] + [tq];
    ApplyEditsSnoc(r, [], g);
    assert [] + [g] == [g];
    ApplyEditsSnoc(r, [g], tq);
  }

  /** Forcing gain x5 again changes nothing in the profile's CTRL. */
  lemma RecoveryCtrl(t: Regs, g: Edit)
    requires t.ctrl & 0x300 == 0
    requires g == FieldEdit(CtrlGain, Narrow(Gain5))
    ensures Apply(t, g) == t
  {
  }

  /** Writing a torque byte replaces bits 0..7 of TORQUE and nothing else. */
  lemma RecoveryTorque(t: Regs, tb: bv8)
    ensures Apply(t, FieldEdit(TorqueField, tb as Word)) == t.(torque := (t.torque & 0xF00) | tb as Reg12)
  {
  }

  /** The frame of the STALL probe. */
  const StallReadFrame: Word := ReadFrame(StallAddr as bv8)

  /** The fault branch of `checkFaults` after its STATUS read: report every flag, then clear STATUS. */
  method ClearFaults(b: Bus) returns (b': Bus)
    ensures b' == StatusCleared(Bus(b.chip, b.sent + ReportFrames))
  {
    var b1, report := PrintStatus(b);
    b' := ClearStatus(b1);
  }

  /** What `checkFaults` does, decided by what STALL and STATUS read back. */
  datatype Response = Recover | ResetFaults | NoAction

  function PollResponse(c: Chip): Response {
    if Observed(c, StallAddr) == 0xFFF then Recover
    else if Observed(c, StatusAddr) != 0 then ResetFaults
    else NoAction
  }

  /**
    The second test of `checkFaults`: read STATUS; when any bit is set,
    report the flags and clear STATUS, otherwise send nothing more.
   */
  method ResetIfFaulted(m: Controller) returns (m': Controller)
    ensures m'.pwm == m.pwm && m'.currentLimit == m.currentLimit
    ensures Observed(m.bus.chip, StatusAddr) != 0 ==>
              m'.bus == StatusCleared(Bus(m.bus.chip, m.bus.sent + [StatusReadFrame] + ReportFrames))
    ensures Observed(m.bus.chip, StatusAddr) == 0 ==> m'.bus == Bus(m.bus.chip, m.bus.sent + [StatusReadFrame])
  {
    AddrRoundTrip(StatusAddr);
    var b1, status := ReadRegister(m.bus, StatusAddr as bv8);
    if status != 0 {
      var b2 := ClearFaults(b1);
      m' := m.(bus := b2);
    } else {
      m' := m.(bus := b1);
    }
  }

  /**
    `checkFaults`: STALL reading all ones is taken as a lost chip and triggers
    a recovery; otherwise a non-zero STATUS is reported and cleared; otherwise
    nothing is written. The whole trace of each branch is stated. The PWM
    state and the stored limit are never changed.
   */
  method CheckFaults(m: Controller) returns (m': Controller)
    ensures m'.pwm == m.pwm && m'.currentLimit == m.currentLimit
    ensures PollResponse(m.bus.chip) == Recover ==>
              Performed(StatusCleared(Bus(m.bus.chip, m.bus.sent + [StallReadFrame])), m'.bus, RecoveryEdits(m.currentLimit))
    ensures PollResponse(m.bus.chip) == ResetFaults ==>
              m'.bus == StatusCleared(Bus(m.bus.chip, m.bus.sent + [StallReadFrame] + [StatusReadFrame] + ReportFrames))
    ensures PollResponse(m.bus.chip) == NoAction ==>
              m'.bus == Bus(m.bus.chip, m.bus.sent + [StallReadFrame] + [StatusReadFrame])
  {
    AddrRoundTrip(StallAddr);
    var b1, stall := ReadRegister(m.bus, StallAddr as bv8);
    if stall == 0xFFF {
      m' := Reconnect(m.(bus := b1));
    } else {
      m' := ResetIfFaulted(m.(bus := b1));
    }
  }

  /** A chip that does not answer is always recovered, never merely cleared. */
  lemma LostChipRecovers(c: Chip)
    requires !c.connected
    ensures PollResponse(c) == Recover
  {
  }

  /** A connected chip with clear STATUS and STALL not all ones gets no write at all. */
  lemma HealthyChipUntouched(c: Chip)
    requires c.connected && c.regs.stall != 0xFFF && c.regs.status == 0
    ensures PollResponse(c) == NoAction
  {
  }

  /**
    The register part of `init`: clear STATUS, then run the default profile;
    the PWM outputs start idle and the stored limit at 10 A.
   */
  method Init(b: Bus) returns (m: Controller)
    ensures m.pwm == IdlePwm && m.currentLimit == InitialCurrentLimit
    ensures Performed(StatusCleared(b), m.bus, ProfileEdits())
  {
    var b1 := ClearStatus(b);
    var b2 := DefaultBrushedMotorProfile(b1);
    m := Controller(b2, IdlePwm, InitialCurrentLimit);
  }

  /** After `init` the chip holds the profile's settings with STATUS clear, and the 10 A limit's torque code 65. */
  lemma InitReachesTarget(r: Regs)
    ensures ApplyEdits(r.(status := 0), ProfileEdits()) == ProfileTarget(r).(status := 0)
    ensures TorqueField.Of(ProfileTarget(r).torque) == 65
  {
    ProfileReachesTarget(r.(status := 0));
  }
}
