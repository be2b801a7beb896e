/**
  The DRV8711 register map: eight 12-bit registers addressed 0..7, the
  (register, bit offset, mask) descriptor of every named field, the codes of
  the enumerated settings, and the STATUS fault flags.

  Every width is a native bitvector width: a register is exactly 12 bits, an
  address exactly 3, so no value of these types can be out of range.
 */
module Registers {

  /** A 16-bit value, as the firmware's `uint16_t` and the SPI frame. */
  type Word = bv16

  /** A register value: the chip keeps 12 bits per register. */
  type Reg12 = bv12

  /** A register address as it reaches the chip (3 bits). */
  type Addr = bv3

  /** A bit offset within a 16-bit value. */
  type Offset = bv4

  const CtrlAddr: Addr := 0
  const TorqueAddr: Addr := 1
  const OffAddr: Addr := 2
  const BlankAddr: Addr := 3
  const DecayAddr: Addr := 4
  const StallAddr: Addr := 5
  const DriveAddr: Addr := 6
  const StatusAddr: Addr := 7

  /** The register file of one chip. */
  datatype Regs = Regs(ctrl: Reg12, torque: Reg12, off: Reg12, blank: Reg12,
                       decay: Reg12, stall: Reg12, drive: Reg12, status: Reg12)
  {
    function Get(a: Addr): Reg12 {
      if a == 0 then ctrl
      else if a == 1 then torque
      else if a == 2 then off
      else if a == 3 then blank
      else if a == 4 then decay
      else if a == 5 then stall
      else if a == 6 then drive
      else status
    }

    /** The register file with register `a` replaced by `v`. */
    function Set(a: Addr, v: Reg12): (r: Regs)
      ensures r.Get(a) == v
      ensures forall b: Addr :: b != a ==> r.Get(b) == Get(b)
    {
      if a == 0 then this.(ctrl := v)
      else if a == 1 then this.(torque := v)
      else if a == 2 then this.(off := v)
      else if a == 3 then this.(blank := v)
      else if a == 4 then this.(decay := v)
      else if a == 5 then this.(stall := v)
      else if a == 6 then this.(drive := v)
      else this.(status := v)
    }
  }

  /** The bits `mask << offset`. */
  function SpanOf(mask: Word, offset: Offset): Word {
    mask << offset
  }

  /** `code` cut to `mask` and moved to bit `offset`. */
  function Place(code: Word, mask: Word, offset: Offset): Word {
    (code & mask) << offset
  }

  /** The `mask`-wide value at bit `offset` of `v`. */
  function Extract(v: Word, mask: Word, offset: Offset): Word {
    (v >> offset) & mask
  }

  /** A non-empty run of low ones that, moved to `offset`, stays inside 12 bits. */
  predicate Fits(mask: Word, offset: Offset) {
    && mask != 0
    && mask & (mask + 1) == 0
    && (mask << offset) >> offset == mask
    && mask << offset <= 0xFFF
  }

  /** A field: `mask` (right-aligned) placed at bit `offset` of register `addr`. */
  datatype Field = Field(addr: Addr, offset: Offset, mask: Word)
  {
    /** The bits of the register the field occupies. */
    function Span(): Word {
      SpanOf(mask, offset)
    }

    /** A field is well formed when it is a contiguous run of bits inside 12 bits. */
    predicate WellFormed() {
      Fits(mask, offset)
    }

    /** The field's value within register value `v`. */
    function Of(v: Reg12): Word {
      Extract(v as Word, mask, offset)
    }

    /** Everything in `v` outside the field. */
    function Outside(v: Reg12): Word {
      v as Word & !Span()
    }
  }

  predicate Disjoint(f: Field, g: Field) {
    f.addr != g.addr || f.Span() & g.Span() == 0
  }

  // CTRL
  const CtrlEnable := Field(CtrlAddr, 0, 1)
  const CtrlGain := Field(CtrlAddr, 8, 0x3)
  const CtrlDeadTime := Field(CtrlAddr, 10, 0x3)
  // TORQUE
  const TorqueField := Field(TorqueAddr, 0, 0xFF)
  // OFF
  const OffTime := Field(OffAddr, 0, 0xFF)
  const OffPwmMode := Field(OffAddr, 8, 0x1)
  // BLANK
  const BlankTime := Field(BlankAddr, 0, 0xFF)
  const BlankAdaptive := Field(BlankAddr, 8, 0x1)
  // DECAY
  const DecayTime := Field(DecayAddr, 0, 0xFF)
  const DecayMode := Field(DecayAddr, 8, 0x7)
  // DRIVE
  const DriveOcpThreshold := Field(DriveAddr, 0, 0x3)
  const DriveOcpDeglitch := Field(DriveAddr, 2, 0x3)
  const DriveLowSideTime := Field(DriveAddr, 4, 0x3)
  const DriveHighSideTime := Field(DriveAddr, 6, 0x3)
  const DriveLowSidePeak := Field(DriveAddr, 8, 0x3)
  const DriveHighSidePeak := Field(DriveAddr, 10, 0x3)

  /** Every documented field of the register map. */
  function FieldTable(): (t: seq<Field>)
    ensures |t| == 16
    ensures forall i :: 0 <= i < |t| ==> t[i].WellFormed()
    ensures forall i, j :: 0 <= i < j < |t| ==> Disjoint(t[i], t[j])
  {
    [CtrlEnable, CtrlGain, CtrlDeadTime, TorqueField, OffTime, OffPwmMode,
     BlankTime, BlankAdaptive, DecayTime, DecayMode,
     DriveOcpThreshold, DriveOcpDeglitch, DriveLowSideTime, DriveHighSideTime,
     DriveLowSidePeak, DriveHighSidePeak]
  }

  /** The six DRIVE fields, low to high. */
  function DriveFields(): (t: seq<Field>)
    ensures |t| == 6
    ensures forall i :: 0 <= i < 6 ==> t[i].addr == DriveAddr && t[i].WellFormed()
    ensures forall i, j :: 0 <= i < j < 6 ==> t[i].Span() & t[j].Span() == 0
    ensures t[0].Span() | t[1].Span() | t[2].Span() | t[3].Span() | t[4].Span() | t[5].Span() == 0xFFF
  {
    [DriveOcpThreshold, DriveOcpDeglitch, DriveLowSideTime, DriveHighSideTime,
     DriveLowSidePeak, DriveHighSidePeak]
  }

  // Enumerated setting codes (the C enumerators' values).
  const Gain5: bv32 := 0
  const Gain10: bv32 := 1
  const Gain20: bv32 := 2
  const Gain40: bv32 := 3

  const DeadTime400ns: bv32 := 0
  const DeadTime450ns: bv32 := 1
  const DeadTime650ns: bv32 := 2
  const DeadTime850ns: bv32 := 3

  const Stepper: bv32 := 0
  const Brushed: bv32 := 1

  const ForceSlowDecay: bv32 := 0
  const SlowIncreasingMixedDecreasing: bv32 := 1
  const ForceFastDecay: bv32 := 2
  const ForceMixedDecay: bv32 := 3
  const SlowIncreasingAutoMixedDecreasing: bv32 := 4
  const ForceAutoMixedDecay: bv32 := 5

  const Ocp250mV: bv32 := 0
  const Ocp500mV: bv32 := 1
  const Ocp750mV: bv32 := 2
  const Ocp1000mV: bv32 := 3

  const Deglitch1us: bv32 := 0
  const Deglitch2us: bv32 := 1
  const Deglitch4us: bv32 := 2
  const Deglitch8us: bv32 := 3

  const GateDrive250ns: bv32 := 0
  const GateDrive500ns: bv32 := 1
  const GateDrive1000ns: bv32 := 2
  const GateDrive2000ns: bv32 := 3

  const LowSidePeak100mA: bv32 := 0
  const LowSidePeak200mA: bv32 := 1
  const LowSidePeak300mA: bv32 := 2
  const LowSidePeak400mA: bv32 := 3

  const HighSidePeak50mA: bv32 := 0
  const HighSidePeak100mA: bv32 := 1
  const HighSidePeak150mA: bv32 := 2
  const HighSidePeak200mA: bv32 := 3

  /** The fault flags of the STATUS register. */
  datatype Flag = OTS | AOCP | BOCP | APDF | BPDF | UVLO | STD | STDLAT
  {
    /** The flag's bit number in STATUS. */
    function Bit(): Offset {
      match this
      case OTS => 0
      case AOCP => 1
      case BOCP => 2
      case APDF => 3
      case BPDF => 4
      case UVLO => 5
      case STD => 6
      case STDLAT => 7
    }

    /** The one STATUS bit the flag occupies, `1 << bit`. */
    function Mask(): Reg12 {
      1 << Bit()
    }
  }

  /** The register addresses, in the order CTRL, TORQUE, OFF, BLANK, DECAY, STALL, DRIVE, STATUS. */
  lemma AddressesAreDistinct()
    ensures var addrs := [CtrlAddr, TorqueAddr, OffAddr, BlankAddr, DecayAddr, StallAddr, DriveAddr, StatusAddr];
            forall i :: 0 <= i < 8 ==> addrs[i] as int == i
  {
  }

  /** The three CTRL fields are well formed and do not overlap. */
  lemma CtrlFieldsDisjoint()
    ensures CtrlEnable.WellFormed() && CtrlGain.WellFormed() && CtrlDeadTime.WellFormed()
    ensures CtrlEnable.Span() & CtrlGain.Span() == 0
    ensures CtrlEnable.Span() & CtrlDeadTime.Span() == 0
    ensures CtrlGain.Span() & CtrlDeadTime.Span() == 0
  {
  }

  /** The named codes of each enumeration are 0, 1, 2, ... in order, and each fits its field. */
  lemma EnumCodesFitTheirFields()
    ensures var gains := [Gain5, Gain10, Gain20, Gain40];
            forall i :: 0 <= i < 4 ==> gains[i] == i as bv32 && gains[i] <= CtrlGain.mask as bv32
    ensures var times := [DeadTime400ns, DeadTime450ns, DeadTime650ns, DeadTime850ns];
            forall i :: 0 <= i < 4 ==> times[i] == i as bv32 && times[i] <= CtrlDeadTime.mask as bv32
    ensures var modes := [ForceSlowDecay, SlowIncreasingMixedDecreasing, ForceFastDecay,
                          ForceMixedDecay, SlowIncreasingAutoMixedDecreasing, ForceAutoMixedDecay];
            forall i :: 0 <= i < 6 ==> modes[i] == i as bv32 && modes[i] <= DecayMode.mask as bv32
    ensures Stepper == 0 && Brushed == 1 && Brushed <= OffPwmMode.mask as bv32
  {
  }

  /** The eight STATUS flags occupy the distinct bits 0..7, and each flag's mask is its bit. */
  lemma FlagBitsDistinct()
    ensures forall f: Flag :: f.Bit() < 8 && f.Mask() as Word == 1 << f.Bit()
    ensures forall f: Flag, g: Flag :: f != g ==> f.Bit() != g.Bit()
    ensures forall f: Flag, g: Flag :: f != g ==> f.Mask() & g.Mask() == 0
  {
  }
}
