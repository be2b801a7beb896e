/**
  The DRV8711 driver: read-modify-write field setters, the STATUS fault-flag
  accessors, the current-limit conversion and the default brushed-motor
  profile. Every operation takes the bus before and returns the bus after;
  the driver keeps no state of its own.
 */
module Drv8711 {
  import opened Registers
  import opened Spi

  /**
    The low 16 bits of an enumeration code. A setter masks the code and
    shifts it as an `int`; ORing that into the `uint16_t` register copy keeps
    only its low 16 bits.
   */
  function Narrow(code: bv32): Word {
    (code & 0xFFFF) as bv16
  }

  /** The code a boolean argument contributes, as C's `bool` to `int` conversion. */
  function BoolCode(b: bool): Word {
    if b then 1 else 0
  }

  /** What `readRegister` returns for address `a`: the register, or 0xFFF from a disconnected chip. */
  function Observed(c: Chip, a: Addr): Word {
    if c.connected then c.regs.Get(a) as Word else 0xFFF
  }

  /** `v` with the bits `span` replaced by `bits`, computed on 16 bits and cut to the 12 the chip keeps. */
  function Merge(v: Reg12, span: Word, bits: Word): Reg12 {
    (((v as Word & !span) | bits) & 0xFFF) as Reg12
  }

  /** One read-modify-write: clear `span` of register `addr`, OR in `bits`. */
  datatype Edit = Edit(addr: Addr, span: Word, bits: Word)

  /** The register file after the read-modify-write `e`. */
  function Apply(r: Regs, e: Edit): Regs {
    r.Set(e.addr, Merge(r.Get(e.addr), e.span, e.bits))
  }

  /** The two frames a read-modify-write sends to chip `c`: the read, then the write of the merged value. */
  function RmwFrames(c: Chip, e: Edit): seq<Word> {
    [ReadFrame(e.addr as bv8), WriteFrame(e.addr as bv8, (Observed(c, e.addr) & !e.span) | e.bits)]
  }

  /**
    Bus `b'` is bus `b` after the read-modify-write `e`: a read of its
    register, then a write of the merged value; a connected chip stores it,
    a disconnected chip loses it.
   */
  predicate Rewrote(b: Bus, b': Bus, e: Edit) {
    && b'.sent == b.sent + RmwFrames(b.chip, e)
    && b'.chip.connected == b.chip.connected
    && (b.chip.connected ==> b'.chip.regs == Apply(b.chip.regs, e))
    && (!b.chip.connected ==> b'.chip == b.chip)
  }

  /** A 3-bit address widened to `uint8_t` and masked back is itself. */
  lemma AddrRoundTrip(a: Addr)
    ensures AddrOf(a as bv8) == a
  {
  }

  /** The read step of a read-modify-write, restated on a 3-bit address. */
  predicate ReadStep(b: Bus, a: Addr, b1: Bus, v: Word) {
    && v == Observed(b.chip, a)
    && b1 == Bus(b.chip, b.sent + [ReadFrame(a as bv8)])
  }

  /** The write step of a read-modify-write, restated on a 3-bit address. */
  predicate WriteStep(b1: Bus, a: Addr, w: Word, b': Bus) {
    && b'.sent == b1.sent + [WriteFrame(a as bv8, w)]
    && b'.chip.connected == b1.chip.connected
    && (b1.chip.connected ==> b'.chip.regs == b1.chip.regs.Set(a, (w & 0xFFF) as Reg12))
    && (!b1.chip.connected ==> b'.chip == b1.chip)
  }

  lemma RmwSent(b: Bus, b1: Bus, b': Bus, a: Addr, span: Word, bits: Word, v: Word)
    requires ReadStep(b, a, b1, v) && WriteStep(b1, a, (v & !span) | bits, b')
    ensures b'.sent == b.sent + RmwFrames(b.chip, Edit(a, span, bits))
  {
  }

  lemma RmwRegs(b: Bus, b1: Bus, b': Bus, a: Addr, span: Word, bits: Word, v: Word)
    requires ReadStep(b, a, b1, v) && WriteStep(b1, a, (v & !span) | bits, b')
    ensures b.chip.connected ==> b'.chip.regs == Apply(b.chip.regs, Edit(a, span, bits))
  {
  }

  lemma RmwLost(b: Bus, b1: Bus, b': Bus, a: Addr, span: Word, bits: Word, v: Word)
    requires ReadStep(b, a, b1, v) && WriteStep(b1, a, (v & !span) | bits, b')
    ensures !b.chip.connected ==> b'.chip == b.chip
  {
  }

  /**
    The read-modify-write every setter performs: read register `a`, clear
    the bits `span`, OR in `bits`, write the result back.
   */
  method ReadModifyWrite(b: Bus, a: Addr, span: Word, bits: Word) returns (b': Bus)
    ensures Rewrote(b, b', Edit(a, span, bits))
  {
    AddrRoundTrip(a);
    var b1, v := ReadRegister(b, a as bv8);
    var w := (v & !span) | bits;
    b' := WriteRegister(b1, a as bv8, w);
    assert ReadStep(b, a, b1, v);
    assert WriteStep(b1, a, w, b');
    RmwSent(b, b1, b', a, span, bits, v);
    RmwRegs(b, b1, b', a, span, bits, v);
    RmwLost(b, b1, b', a, span, bits, v);
  }

  /** The edit that sets field `f` to `code`. */
  function FieldEdit(f: Field, code: Word): Edit {
    Edit(f.addr, f.Span(), Place(code, f.mask, f.offset))
  }

  /** The register a read-modify-write addressed holds the merged value. */
  lemma RmwGet(r: Regs, a: Addr, span: Word, bits: Word)
    ensures Apply(r, Edit(a, span, bits)).Get(a) == Merge(r.Get(a), span, bits)
  {
  }

  lemma FieldHoldsCodeBits(v: Reg12, mask: Word, offset: Offset, code: Word)
    requires Fits(mask, offset)
    ensures Extract(Merge(v, SpanOf(mask, offset), Place(code, mask, offset)) as Word, mask, offset) == code & mask
  {
  }

  lemma FieldKeepsOutsideBits(v: Reg12, mask: Word, offset: Offset, code: Word)
    requires Fits(mask, offset)
    ensures Merge(v, SpanOf(mask, offset), Place(code, mask, offset)) as Word & !SpanOf(mask, offset)
            == v as Word & !SpanOf(mask, offset)
  {
  }

  /** Setting a field leaves every other register alone. */
  lemma FieldKeepsOthers(r: Regs, f: Field, code: Word, a: Addr)
    requires a != f.addr
    ensures Apply(r, FieldEdit(f, code)).Get(a) == r.Get(a)
  {
  }

  /** A well-formed field, once set, holds the code cut to its width. */
  lemma FieldHoldsCode(r: Regs, r': Regs, f: Field, code: Word)
    requires Fits(f.mask, f.offset) && r' == Apply(r, FieldEdit(f, code))
    ensures f.Of(r'.Get(f.addr)) == code & f.mask
  {
    RmwGet(r, f.addr, f.Span(), Place(code, f.mask, f.offset));
    FieldHoldsCodeBits(r.Get(f.addr), f.mask, f.offset, code);
  }

  /** Setting a field keeps every other bit of its register. */
  lemma FieldKeepsOutside(r: Regs, r': Regs, f: Field, code: Word)
    requires Fits(f.mask, f.offset) && r' == Apply(r, FieldEdit(f, code))
    ensures f.Outside(r'.Get(f.addr)) == f.Outside(r.Get(f.addr))
  {
    RmwGet(r, f.addr, f.Span(), Place(code, f.mask, f.offset));
    FieldKeepsOutsideBits(r.Get(f.addr), f.mask, f.offset, code);
  }

  lemma SetFieldKeepsOthers(b: Bus, b': Bus, f: Field, code: Word)
    requires Rewrote(b, b', FieldEdit(f, code))
    ensures b.chip.connected ==> forall a: Addr :: a != f.addr ==> b'.chip.regs.Get(a) == b.chip.regs.Get(a)
  {
    forall a: Addr | a != f.addr
      ensures Apply(b.chip.regs, FieldEdit(f, code)).Get(a) == b.chip.regs.Get(a)
    {
      FieldKeepsOthers(b.chip.regs, f, code, a);
    }
  }

  /** The register file after the edits `es`, first to last. */
  function ApplyEdits(r: Regs, es: seq<Edit>): Regs
    decreases |es|
  {
    if |es| == 0 then r else ApplyEdits(Apply(r, es[0]), es[1..])
  }

  /** Applying two edit lists in turn is applying their concatenation. */
  lemma {:induction false} ApplyEditsAppend(r: Regs, es1: seq<Edit>, es2: seq<Edit>)
    ensures ApplyEdits(r, es1 + es2) == ApplyEdits(ApplyEdits(r, es1), es2)
    decreases |es1|
  {
    if |es1| == 0 {
      assert es1 + es2 == es2;
    } else {
      assert (es1 + es2)[1..] == es1[1..] + es2;
      ApplyEditsAppend(Apply(r, es1[0]), es1[1..], es2);
    }
  }


  /** Chip `c` after the edits `es`: a connected chip applies them, a disconnected one loses them. */
  function Edited(c: Chip, es: seq<Edit>): Chip {
    if c.connected then c.(regs := ApplyEdits(c.regs, es)) else c
  }

  /** Every frame the read-modify-writes `es` send, first to last, each computed from the chip it meets. */
  function EditFrames(c: Chip, es: seq<Edit>): seq<Word>
    decreases |es|
  {
    if |es| == 0 then []
    else RmwFrames(c, es[0]) + EditFrames(Edited(c, es[..1]), es[1..])
  }

  /**
    Bus `b'` is bus `b` after the read-modify-writes `es`: exactly their
    frames were sent, in order, and the chip is the edited chip.
   */
  ghost predicate Performed(b: Bus, b': Bus, es: seq<Edit>) {
    && b'.sent == b.sent + EditFrames(b.chip, es)
    && b'.chip.connected == b.chip.connected
    && (b.chip.connected ==> b'.chip.regs == ApplyEdits(b.chip.regs, es))
    && (!b.chip.connected ==> b'.chip == b.chip)
  }

  /** A read-modify-write performs its one edit. */
  lemma RewrotePerformed(b: Bus, b': Bus, e: Edit)
    requires Rewrote(b, b', e)
    ensures Performed(b, b', [e])
  {
    OneEdit(b.chip, e);
  }

  /** A one-edit list sends that edit's two frames and applies that edit. */
  lemma OneEdit(c: Chip, e: Edit)
    ensures EditFrames(c, [e]) == RmwFrames(c, e)
    ensures ApplyEdits(c.regs, [e]) == Apply(c.regs, e)
  {
    assert [e][1..] == [];
  }

  /** Editing with `es1` and then `es2` is editing with their concatenation. */
  lemma EditedAppend(c: Chip, es1: seq<Edit>, es2: seq<Edit>)
    ensures Edited(c, es1 + es2) == Edited(Edited(c, es1), es2)
  {
    if c.connected {
      ApplyEditsAppend(c.regs, es1, es2);
    }
  }

  /** The frames of a concatenation are the frames of its parts, the second sent to the chip the first left. */
  lemma {:induction false} EditFramesAppend(c: Chip, es1: seq<Edit>, es2: seq<Edit>)
    ensures EditFrames(c, es1 + es2) == EditFrames(c, es1) + EditFrames(Edited(c, es1), es2)
    decreases |es1|
  {
    if |es1| == 0 {
      assert es1 + es2 == es2;
      assert Edited(c, es1) == c;
    } else {
      var c1 := Edited(c, es1[..1]);
      assert (es1 + es2)[0] == es1[0];
      assert (es1 + es2)[..1] == es1[..1];
      assert (es1 + es2)[1..] == es1[1..] + es2;
      EditFramesAppend(c1, es1[1..], es2);
      assert es1 == es1[..1] + es1[1..];
      EditedAppend(c, es1[..1], es1[1..]);
    }
  }

  /** Performing two edit lists in turn performs their concatenation. */
  lemma PerformedThen(b: Bus, b1: Bus, b2: Bus, es1: seq<Edit>, es2: seq<Edit>)
    requires Performed(b, b1, es1) && Performed(b1, b2, es2)
    ensures Performed(b, b2, es1 + es2)
  {
    assert b1.chip == Edited(b.chip, es1);
    EditFramesAppend(b.chip, es1, es2);
    ApplyEditsAppend(b.chip.regs, es1, es2);
  }

  /**
    Field `f` was set to `code` by one read and one write of its register:
    on a connected chip the field then holds `code & mask`, the rest of the
    register keeps its bits and every other register keeps its value; a
    disconnected chip is unchanged.
   */
  ghost predicate FieldWritten(b: Bus, b': Bus, f: Field, code: Word) {
    && Rewrote(b, b', FieldEdit(f, code))
    && (b.chip.connected ==> f.Of(b'.chip.regs.Get(f.addr)) == code & f.mask)
    && (b.chip.connected ==> f.Outside(b'.chip.regs.Get(f.addr)) == f.Outside(b.chip.regs.Get(f.addr)))
    && (b.chip.connected ==> forall a: Addr :: a != f.addr ==> b'.chip.regs.Get(a) == b.chip.regs.Get(a))
  }

  /** The setter of field `f`: clear `mask << offset`, OR in `(code & mask) << offset`. */
  method UpdateField(b: Bus, f: Field, code: Word) returns (b': Bus)
    requires f.WellFormed()
    ensures FieldWritten(b, b', f, code)
  {
    b' := ReadModifyWrite(b, f.addr, f.Span(), Place(code, f.mask, f.offset));
    if b.chip.connected {
      FieldHoldsCode(b.chip.regs, b'.chip.regs, f, code);
      FieldKeepsOutside(b.chip.regs, b'.chip.regs, f, code);
    }
    SetFieldKeepsOthers(b, b', f, code);
  }

  /** `setMotorEnabled`: sets (`|= 1`) or clears (`&= ~1`) the ENBL bit of CTRL. */
  method SetMotorEnabled(b: Bus, enable: bool) returns (b': Bus)
    ensures FieldWritten(b, b', CtrlEnable, BoolCode(enable))
  {
    if enable {
      b' := UpdateField(b, CtrlEnable, 1);
    } else {
      b' := UpdateField(b, CtrlEnable, 0);
    }
  }

  /** `setSenseAmplifierGain`: the one setter that rejects a code above 3, and then sends nothing. */
  method SetSenseAmplifierGain(b: Bus, gain: bv32) returns (b': Bus)
    ensures gain > 3 ==> b' == b
    ensures gain <= 3 ==> FieldWritten(b, b', CtrlGain, Narrow(gain))
  {
    if gain > 3 {
      return b;
    }
    b' := UpdateField(b, CtrlGain, Narrow(gain));
  }

  method SetDeadTime(b: Bus, deadTime: bv32) returns (b': Bus)
    ensures FieldWritten(b, b', CtrlDeadTime, Narrow(deadTime))
  {
    b' := UpdateField(b, CtrlDeadTime, Narrow(deadTime));
  }

  method SetTorque(b: Bus, torque: bv8) returns (b': Bus)
    ensures FieldWritten(b, b', TorqueField, torque as Word)
  {
    b' := UpdateField(b, TorqueField, torque as Word);
  }

  /** `setTOFF`. */
  method SetOffTime(b: Bus, toff: bv8) returns (b': Bus)
    ensures FieldWritten(b, b', OffTime, toff as Word)
  {
    b' := UpdateField(b, OffTime, toff as Word);
  }

  method SetBlankingTime(b: Bus, time: bv8) returns (b': Bus)
    ensures FieldWritten(b, b', BlankTime, time as Word)
  {
    b' := UpdateField(b, BlankTime, time as Word);
  }

  method SetDecayTime(b: Bus, time: bv8) returns (b': Bus)
    ensures FieldWritten(b, b', DecayTime, time as Word)
  {
    b' := UpdateField(b, DecayTime, time as Word);
  }

  method SetDecayMode(b: Bus, mode: bv32) returns (b': Bus)
    ensures FieldWritten(b, b', DecayMode, Narrow(mode))
  {
    b' := UpdateField(b, DecayMode, Narrow(mode));
  }

  /** `setOverCurrentProtectionThreshold`. */
  method SetOverCurrentThreshold(b: Bus, threshold: bv32) returns (b': Bus)
    ensures FieldWritten(b, b', DriveOcpThreshold, Narrow(threshold))
  {
    b' := UpdateField(b, DriveOcpThreshold, Narrow(threshold));
  }

  method SetOverCurrentDeglitch(b: Bus, deglitch: bv32) returns (b': Bus)
    ensures FieldWritten(b, b', DriveOcpDeglitch, Narrow(deglitch))
  {
    b' := UpdateField(b, DriveOcpDeglitch, Narrow(deglitch));
  }

  /** `setLSGateDriveTime`. */
  method SetLowSideGateDriveTime(b: Bus, time: bv32) returns (b': Bus)
    ensures FieldWritten(b, b', DriveLowSideTime, Narrow(time))
  {
    b' := UpdateField(b, DriveLowSideTime, Narrow(time));
  }

  /** `setHSGateDriveTime`. */
  method SetHighSideGateDriveTime(b: Bus, time: bv32) returns (b': Bus)
    ensures FieldWritten(b, b', DriveHighSideTime, Narrow(time))
  {
    b' := UpdateField(b, DriveHighSideTime, Narrow(time));
  }

  /** `setLSGatePeakCurrent`. */
  method SetLowSideGatePeakCurrent(b: Bus, current: bv32) returns (b': Bus)
    ensures FieldWritten(b, b', DriveLowSidePeak, Narrow(current))
  {
    b' := UpdateField(b, DriveLowSidePeak, Narrow(current));
  }

  /** `setHSGatePeakCurrent`. */
  method SetHighSideGatePeakCurrent(b: Bus, current: bv32) returns (b': Bus)
    ensures FieldWritten(b, b', DriveHighSidePeak, Narrow(current))
  {
    b' := UpdateField(b, DriveHighSidePeak, Narrow(current));
  }

  /** A field setter performs the field's edit. */
  lemma FieldPerformed(b: Bus, b': Bus, f: Field, code: Word)
    requires FieldWritten(b, b', f, code)
    ensures Performed(b, b', [FieldEdit(f, code)])
  {
    RewrotePerformed(b, b', FieldEdit(f, code));
  }

  /** The edit `setPWMMode` performs: it clears eight bits at offset 8 and ORs in the low eight bits of the code there. */
  function PwmModeEdit(mode: bv32): Edit {
    Edit(OffAddr, SpanOf(0xFF, 8), Place(Narrow(mode), 0xFF, 8))
  }

  /**
    `setPWMMode` as written: its mask is eight bits wide, so after the 12-bit
    write OFF bits 8..11 hold the low four bits of the code; TOFF (bits 0..7)
    and every other register are kept.
   */
  method SetPwmMode(b: Bus, mode: bv32) returns (b': Bus)
    ensures Rewrote(b, b', PwmModeEdit(mode))
    ensures b.chip.connected ==> OffTime.Of(b'.chip.regs.off) == OffTime.Of(b.chip.regs.off)
    ensures b.chip.connected ==> b'.chip.regs.off as Word >> 8 == Narrow(mode) & 0xF
  {
    b' := ReadModifyWrite(b, OffAddr, SpanOf(0xFF, 8), Place(Narrow(mode), 0xFF, 8));
    if b.chip.connected {
      PwmModeKeepsOffTime(b.chip.regs, b'.chip.regs, mode);
      PwmModeHighBits(b.chip.regs, b'.chip.regs, mode);
    }
  }

  lemma PwmModeKeepsOffTime(r: Regs, r': Regs, mode: bv32)
    requires r' == Apply(r, PwmModeEdit(mode))
    ensures OffTime.Of(r'.off) == OffTime.Of(r.off)
  {
  }

  lemma PwmModeHighBits(r: Regs, r': Regs, mode: bv32)
    requires r' == Apply(r, PwmModeEdit(mode))
    ensures r'.off as Word >> 8 == Narrow(mode) & 0xF
  {
  }

  /** The field `setAdaptiveBlankingMode` actually writes: bit 8 of the register whose address is the TBLANK bit offset, 0. */
  const AdaptiveBlankingAsWritten := Field(BlankTime.offset as Addr, BlankAdaptive.offset, 1)

  /**
    `setAdaptiveBlankingMode` as written: it passes the TBLANK bit offset (0)
    as the register address, so it rewrites bit 8 of CTRL -- the low bit of
    the gain field -- and never touches BLANK.
   */
  method SetAdaptiveBlankingMode(b: Bus, enabled: bool) returns (b': Bus)
    ensures FieldWritten(b, b', AdaptiveBlankingAsWritten, BoolCode(enabled))
    ensures b'.chip.regs.blank == b.chip.regs.blank
    ensures b.chip.connected ==>
              CtrlGain.Of(b'.chip.regs.ctrl) == (CtrlGain.Of(b.chip.regs.ctrl) & 2) | BoolCode(enabled)
  {
    b' := UpdateField(b, AdaptiveBlankingAsWritten, BoolCode(enabled));
    if b.chip.connected {
      assert b'.chip.regs.Get(BlankAddr) == b.chip.regs.Get(BlankAddr);
      GainLowBit(b.chip.regs.ctrl, b'.chip.regs.ctrl, BoolCode(enabled));
    }
  }

  /** Rewriting CTRL bit 8 rewrites the low bit of the gain code and keeps its high bit. */
  lemma GainLowBit(v: Reg12, v': Reg12, code: Word)
    requires code <= 1
    requires AdaptiveBlankingAsWritten.Of(v') == code & 1
    requires AdaptiveBlankingAsWritten.Outside(v') == AdaptiveBlankingAsWritten.Outside(v)
    ensures CtrlGain.Of(v') == (CtrlGain.Of(v) & 2) | code
  {
  }

  /** The adaptive-blanking setter as the register map intends it: ABT, bit 8 of BLANK; CTRL is kept. */
  method SetAdaptiveBlankingModeIntended(b: Bus, enabled: bool) returns (b': Bus)
    ensures FieldWritten(b, b', BlankAdaptive, BoolCode(enabled))
    ensures b'.chip.regs.ctrl == b.chip.regs.ctrl
  {
    b' := UpdateField(b, BlankAdaptive, BoolCode(enabled));
    if b.chip.connected {
      assert b'.chip.regs.Get(CtrlAddr) == b.chip.regs.Get(CtrlAddr);
    }
  }

  /**
    The adaptive-blanking setter as written, on a chip whose gain is x20 and
    whose ABT bit is clear: enabling adaptive blanking switches the gain to
    x40 and leaves ABT clear.
   */
  lemma AdaptiveBlankingHitsGain()
    ensures var r := Regs(0x200, 0, 0, 0, 0, 0, 0, 0);
            var r' := Apply(r, FieldEdit(AdaptiveBlankingAsWritten, BoolCode(true)));
            && CtrlGain.Of(r.ctrl) == Narrow(Gain20)
            && CtrlGain.Of(r'.ctrl) == Narrow(Gain40)
            && BlankAdaptive.Of(r'.blank) == 0
  {
  }

  /** Whether flag `f` reads as set on chip `c`: a disconnected chip reads all ones. */
  predicate FlagRaised(c: Chip, f: Flag) {
    !c.connected || c.regs.status & f.Mask() != 0
  }

  /** `check<Flag>`: one read of STATUS, then the flag's bit of the reply. */
  method CheckFlag(b: Bus, f: Flag) returns (b': Bus, raised: bool)
    ensures b' == Bus(b.chip, b.sent + [ReadFrame(StatusAddr as bv8)])
    ensures raised == FlagRaised(b.chip, f)
  {
    var status;
    b', status := ReadRegister(b, StatusAddr as bv8);
    raised := (status >> f.Bit()) & 1 == 1;
    BitTest(status, f);
  }

  /** Testing the flag's bit by shifting agrees with testing its mask. */
  lemma BitTest(v: Word, f: Flag)
    requires v <= 0xFFF
    ensures ((v >> f.Bit()) & 1 == 1) == ((v as Reg12) & f.Mask() != 0)
  {
  }

  /**
    `clear<Flag>`: reads STATUS, clears the flag's bit (`&= ~(1 << bit)`,
    the read-modify-write with nothing ORed in) and writes it back. The flag
    then reads clear and every other flag reads as before. STD has no clear
    operation.
   */
  method ClearFlag(b: Bus, f: Flag) returns (b': Bus)
    requires f != STD
    ensures Rewrote(b, b', Edit(StatusAddr, 1 << f.Bit(), 0))
    ensures b.chip.connected ==> !FlagRaised(b'.chip, f)
    ensures forall g: Flag :: g != f ==> FlagRaised(b'.chip, g) == FlagRaised(b.chip, g)
  {
    b' := ReadModifyWrite(b, StatusAddr, 1 << f.Bit(), 0);
    ClearFlagRewrite(b.chip, b'.chip, f);
  }

  /** The flags of a chip before and after the read-modify-write of `clear<Flag>`. */
  lemma ClearFlagRewrite(c: Chip, c': Chip, f: Flag)
    requires c'.connected == c.connected
    requires !c.connected ==> c' == c
    requires c.connected ==> c'.regs == Apply(c.regs, Edit(StatusAddr, 1 << f.Bit(), 0))
    ensures c.connected ==> !FlagRaised(c', f)
    ensures forall g: Flag :: g != f ==> FlagRaised(c', g) == FlagRaised(c, g)
  {
    if c.connected {
      ClearedStatus(c.regs, c'.regs, f);
    }
    ClearFlagEffect(c, c', f);
  }

  /** The read-modify-write of `clear<Flag>` leaves STATUS with the flag's bit cleared and nothing else changed. */
  lemma ClearedStatus(r: Regs, r': Regs, f: Flag)
    requires r' == Apply(r, Edit(StatusAddr, 1 << f.Bit(), 0))
    ensures r'.status == r.status & !f.Mask()
  {
    FlagBitsDistinct();
    ClearMerge(r.status, f.Mask());
  }

  /** Merging with nothing ORed in clears the span. */
  lemma ClearMerge(v: Reg12, m: Reg12)
    ensures Merge(v, m as Word, 0) == v & !m
  {
  }

  /** A STATUS that lost exactly flag `f`'s bit reads `f` clear and every other flag as before. */
  lemma ClearFlagEffect(c: Chip, c': Chip, f: Flag)
    requires c'.connected == c.connected
    requires !c.connected ==> c' == c
    requires c.connected ==> c'.regs.status == c.regs.status & !f.Mask()
    ensures c.connected ==> !FlagRaised(c', f)
    ensures forall g: Flag :: g != f ==> FlagRaised(c', g) == FlagRaised(c, g)
  {
    if c.connected {
      FlagBitsDistinct();
      forall g: Flag | g != f
        ensures FlagRaised(c', g) == FlagRaised(c, g)
      {
        DisjointMasks(c.regs.status, f.Mask(), g.Mask());
      }
    }
  }

  /** Clearing the bits `m` keeps every bit of a mask `n` disjoint from `m`. */
  lemma DisjointMasks(v: Reg12, m: Reg12, n: Reg12)
    requires m & n == 0
    ensures (v & !m) & n == v & n
  {
  }

  /** The current-sense shunt resistance, in ohms. */
  const CurrentShuntResistance: real := 0.0025

  /** The real value `setCurrentLimit` computes, in exact arithmetic. */
  function TorqueValue(amps: int): real {
    (amps as real + 4.0) * (256.0 * 20.0 * CurrentShuntResistance) / 2.75
  }

  /** Integer reference for the torque code of an accepted current. */
  function TorqueCode(amps: int): int {
    (amps + 4) * 256 / 55
  }

  /** A current up to 50 A is accepted, and its truncated torque value is the integer code. */
  lemma TorqueValueAgreesWithCode(amps: int)
    requires 0 <= amps <= 255
    ensures TorqueValue(amps) <= 255.0 <==> amps <= 50
    ensures amps <= 50 ==> TorqueValue(amps).Floor == TorqueCode(amps)
    ensures amps <= 50 ==> 0 <= TorqueCode(amps) <= 251
  {
    var q := TorqueCode(amps);
    var r := (amps + 4) * 256 % 55;
    assert (amps + 4) * 256 == 55 * q + r;
    assert TorqueValue(amps) == q as real + r as real / 55.0;
  }

  /**
    For every accepted current the exact torque value lies at least 1/55
    away from an integer, so a rounding error far smaller than that cannot
    change the truncated code.
   */
  lemma TorqueValueAwayFromIntegers(amps: int)
    requires 0 <= amps <= 50
    ensures 1.0 / 55.0 <= TorqueValue(amps) - TorqueValue(amps).Floor as real <= 54.0 / 55.0
  {
    var q := TorqueCode(amps);
    var r := (amps + 4) * 256 % 55;
    assert 1 <= r <= 54;
    assert TorqueValue(amps) == q as real + r as real / 55.0;
    TorqueValueAgreesWithCode(amps);
  }

  /** `uint8_t(torqueValue)` for an accepted current, computed on 32 bits. */
  function TorqueByte(amps: bv8): bv8
    requires amps <= 50
  {
    ((amps as bv32 + 4) * 256 / 55) as bv8
  }

  /** The byte computed on 32 bits is the integer torque code: nothing overflows or is cut off. */
  lemma TorqueByteIsCode(amps: bv8)
    requires amps <= 50
    ensures TorqueByte(amps) as int == TorqueCode(amps as int)
  {
  }

  /** The edits `setCurrentLimit(amps)` performs: the gain always, the torque byte only when the current is accepted. */
  function CurrentLimitEdits(amps: bv8): seq<Edit> {
    [FieldEdit(CtrlGain, Narrow(Gain5))]
    + (if amps <= 50 then [FieldEdit(TorqueField, TorqueByte(amps) as Word)] else [])
  }

  /**
    `setCurrentLimit`: the gain is forced to x5 first, even when the current
    is then rejected; a torque value above 255 (a current above 50 A) stops
    there, any other current writes the truncated torque value.
   */
  method SetCurrentLimit(b: Bus, amps: bv8) returns (b': Bus)
    ensures Performed(b, b', CurrentLimitEdits(amps))
  {
    b' := SetSenseAmplifierGain(b, Gain5);
    FieldPerformed(b, b', CtrlGain, Narrow(Gain5));
    var torqueValue := TorqueValue(amps as int);
    TorqueValueAgreesWithCode(amps as int);
    if torqueValue > 255.0 {
      assert CurrentLimitEdits(amps) == [FieldEdit(CtrlGain, Narrow(Gain5))];
      return;
    }
    var b1 := b';
    b' := SetTorque(b1, TorqueByte(amps));
    FieldPerformed(b1, b', TorqueField, TorqueByte(amps) as Word);
    PerformedThen(b, b1, b', [FieldEdit(CtrlGain, Narrow(Gain5))], [FieldEdit(TorqueField, TorqueByte(amps) as Word)]);
  }

  /** Applying a list that ends in `e` applies `e` last. */
  lemma ApplyEditsSnoc(r: Regs, es: seq<Edit>, e: Edit)
    ensures ApplyEdits(r, es + [e]) == Apply(ApplyEdits(r, es), e)
  {
    ApplyEditsAppend(r, es, [e]);
    assert [e][1..] == [];
  }

  /** After `setCurrentLimit` the gain field reads x5 and the rest of CTRL is kept. */
  lemma CurrentLimitGain(r: Regs, amps: bv8)
    ensures CtrlGain.Of(ApplyEdits(r, CurrentLimitEdits(amps)).ctrl) == Narrow(Gain5)
    ensures CtrlGain.Outside(ApplyEdits(r, CurrentLimitEdits(amps)).ctrl) == CtrlGain.Outside(r.ctrl)
  {
    var g := FieldEdit(CtrlGain, Narrow(Gain5));
    ApplyEditsSnoc(r, [], g);
    assert [] + [g] == [g];
    var r1 := Apply(r, g);
    if amps <= 50 {
      ApplyEditsSnoc(r, [g], FieldEdit(TorqueField, TorqueByte(amps) as Word));
    } else {
      assert CurrentLimitEdits(amps) == [g];
    }
    FieldHoldsCode(r, r1, CtrlGain, Narrow(Gain5));
    FieldKeepsOutside(r, r1, CtrlGain, Narrow(Gain5));
  }

  /** An accepted current sets the torque byte to its torque code and keeps the rest of TORQUE. */
  lemma CurrentLimitAccepted(r: Regs, amps: bv8)
    requires amps <= 50
    ensures TorqueField.Of(ApplyEdits(r, CurrentLimitEdits(amps)).torque) as int == TorqueCode(amps as int)
    ensures TorqueField.Outside(ApplyEdits(r, CurrentLimitEdits(amps)).torque) == TorqueField.Outside(r.torque)
  {
    var g := FieldEdit(CtrlGain, Narrow(Gain5));
    var t := FieldEdit(TorqueField, TorqueByte(amps) as Word);
    ApplyEditsSnoc(r, [], g);
    assert [] + [g] == [g];
    ApplyEditsSnoc(r, [g], t);
    var r1 := Apply(r, g);
    var r2 := Apply(r1, t);
    FieldHoldsCode(r1, r2, TorqueField, TorqueByte(amps) as Word);
    FieldKeepsOutside(r1, r2, TorqueField, TorqueByte(amps) as Word);
    TorqueByteIsCode(amps);
  }

  /** A rejected current (above 50 A) leaves TORQUE as it was. */
  lemma CurrentLimitRejected(r: Regs, amps: bv8)
    requires amps > 50
    ensures ApplyEdits(r, CurrentLimitEdits(amps)).torque == r.torque
  {
    var g := FieldEdit(CtrlGain, Narrow(Gain5));
    assert CurrentLimitEdits(amps) == [] + [g];
    ApplyEditsSnoc(r, [], g);
  }

  /** Only CTRL and TORQUE are touched by `setCurrentLimit`. */
  lemma CurrentLimitKeepsOthers(r: Regs, amps: bv8)
    ensures var r' := ApplyEdits(r, CurrentLimitEdits(amps));
            r' == r.(ctrl := r'.ctrl, torque := r'.torque)
  {
    var g := FieldEdit(CtrlGain, Narrow(Gain5));
    ApplyEditsSnoc(r, [], g);
    assert [] + [g] == [g];
    if amps <= 50 {
      ApplyEditsSnoc(r, [g], FieldEdit(TorqueField, TorqueByte(amps) as Word));
    } else {
      assert CurrentLimitEdits(amps) == [g];
    }
  }

  const DeadTimeEdit := FieldEdit(CtrlDeadTime, Narrow(DeadTime850ns))
  const DecayModeEdit := FieldEdit(DecayMode, Narrow(ForceFastDecay))
  const BlankingEdit := FieldEdit(BlankTime, 255)
  const LowSidePeakEdit := FieldEdit(DriveLowSidePeak, Narrow(LowSidePeak400mA))
  const HighSidePeakEdit := FieldEdit(DriveHighSidePeak, Narrow(HighSidePeak200mA))
  const LowSideTimeEdit := FieldEdit(DriveLowSideTime, Narrow(GateDrive1000ns))
  const HighSideTimeEdit := FieldEdit(DriveHighSideTime, Narrow(GateDrive1000ns))
  const OcpThresholdEdit := FieldEdit(DriveOcpThreshold, Narrow(Ocp250mV))
  const OcpDeglitchEdit := FieldEdit(DriveOcpDeglitch, Narrow(Deglitch8us))
  const OffTimeEdit := FieldEdit(OffTime, 200)
  const EnableEdit := FieldEdit(CtrlEnable, BoolCode(true))

  /** The edits of `configureDefaultBrushedMotorProfile`, in the order the firmware makes them. */
  function ProfileEdits(): seq<Edit> {
    [DeadTimeEdit] + [DecayModeEdit] + [BlankingEdit] + [LowSidePeakEdit] + [HighSidePeakEdit]
    + [LowSideTimeEdit] + [HighSideTimeEdit] + [OcpThresholdEdit] + [OcpDeglitchEdit]
    + [PwmModeEdit(Brushed)] + CurrentLimitEdits(10) + [OffTimeEdit] + [EnableEdit]
  }

  /**
    `configureDefaultBrushedMotorProfile`: dead time 850 ns, fast decay,
    blanking byte 255, gate peak currents 400 mA / 200 mA, gate drive times
    1000 ns, over-current threshold 250 mV with 8 us deglitch, brushed PWM
    mode, a 10 A current limit, TOFF 200, and finally the enable bit -- each
    one read-modify-write of its register, in that order.
   */
  method DefaultBrushedMotorProfile(b: Bus) returns (b': Bus)
    ensures Performed(b, b', ProfileEdits())
  {
    var b1 := SetDeadTime(b, DeadTime850ns);
    FieldPerformed(b, b1, CtrlDeadTime, Narrow(DeadTime850ns));
    ghost var es := [DeadTimeEdit];

    var b2 := SetDecayMode(b1, ForceFastDecay);
    FieldPerformed(b1, b2, DecayMode, Narrow(ForceFastDecay));
    PerformedThen(b, b1, b2, es, [DecayModeEdit]);
    es := es + [DecayModeEdit];

    var b3 := SetBlankingTime(b2, 255);
    FieldPerformed(b2, b3, BlankTime, 255);
    PerformedThen(b, b2, b3, es, [BlankingEdit]);
    es := es + [BlankingEdit];

    var b4 := SetLowSideGatePeakCurrent(b3, LowSidePeak400mA);
    FieldPerformed(b3, b4, DriveLowSidePeak, Narrow(LowSidePeak400mA));
    PerformedThen(b, b3, b4, es, [LowSidePeakEdit]);
    es := es + [LowSidePeakEdit];

    var b5 := SetHighSideGatePeakCurrent(b4, HighSidePeak200mA);
    FieldPerformed(b4, b5, DriveHighSidePeak, Narrow(HighSidePeak200mA));
    PerformedThen(b, b4, b5, es, [HighSidePeakEdit]);
    es := es + [HighSidePeakEdit];

    var b6 := SetLowSideGateDriveTime(b5, GateDrive1000ns);
    FieldPerformed(b5, b6, DriveLowSideTime, Narrow(GateDrive1000ns));
    PerformedThen(b, b5, b6, es, [LowSideTimeEdit]);
    es := es + [LowSideTimeEdit];

    var b7 := SetHighSideGateDriveTime(b6, GateDrive1000ns);
    FieldPerformed(b6, b7, DriveHighSideTime, Narrow(GateDrive1000ns));
    PerformedThen(b, b6, b7, es, [HighSideTimeEdit]);
    es := es + [HighSideTimeEdit];

    var b8 := SetOverCurrentThreshold(b7, Ocp250mV);
    FieldPerformed(b7, b8, DriveOcpThreshold, Narrow(Ocp250mV));
    PerformedThen(b, b7, b8, es, [OcpThresholdEdit]);
    es := es + [OcpThresholdEdit];

    var b9 := SetOverCurrentDeglitch(b8, Deglitch8us);
    FieldPerformed(b8, b9, DriveOcpDeglitch, Narrow(Deglitch8us));
    PerformedThen(b, b8, b9, es, [OcpDeglitchEdit]);
    es := es + [OcpDeglitchEdit];

    var b10 := SetPwmMode(b9, Brushed);
    RewrotePerformed(b9, b10, PwmModeEdit(Brushed));
    PerformedThen(b, b9, b10, es, [PwmModeEdit(Brushed)]);
    es := es + [PwmModeEdit(Brushed)];

    var b11 := SetCurrentLimit(b10, 10);
    PerformedThen(b, b10, b11, es, CurrentLimitEdits(10));
    es := es + CurrentLimitEdits(10);

    var b12 := SetOffTime(b11, 200);
    FieldPerformed(b11, b12, OffTime, 200);
    PerformedThen(b, b11, b12, es, [OffTimeEdit]);
    es := es + [OffTimeEdit];

    b' := SetMotorEnabled(b12, true);
    FieldPerformed(b12, b', CtrlEnable, BoolCode(true));
    PerformedThen(b, b12, b', es, [EnableEdit]);
  }

  /**
    The register file the default profile leaves behind, written register
    by register: CTRL gets dead time 3, gain x5 and the enable bit and keeps
    bits 1..7; TORQUE gets byte 65 (10 A); OFF becomes 0x1C8 (brushed mode,
    TOFF 200); BLANK gets byte 255; DECAY gets mode 2 (fast decay) and keeps
    its other bits; DRIVE becomes 0xFAC; STALL and STATUS are untouched.
   */
  function ProfileTarget(r: Regs): Regs {
    Regs(ctrl := (r.ctrl & 0x0FE) | 0xC01,
         torque := (r.torque & 0xF00) | 65,
         off := 0x1C8,
         blank := (r.blank & 0xF00) | 0xFF,
         decay := (r.decay & 0x8FF) | 0x200,
         stall := r.stall,
         drive := 0xFAC,
         status := r.status)
  }

  /** The profile's edits applied one after another, without the list. */
  function ProfileRegs(r: Regs): Regs {
    var r1 := Apply(r, DeadTimeEdit);
    var r2 := Apply(r1, DecayModeEdit);
    var r3 := Apply(r2, BlankingEdit);
    var r4 := Apply(r3, LowSidePeakEdit);
    var r5 := Apply(r4, HighSidePeakEdit);
    var r6 := Apply(r5, LowSideTimeEdit);
    var r7 := Apply(r6, HighSideTimeEdit);
    var r8 := Apply(r7, OcpThresholdEdit);
    var r9 := Apply(r8, OcpDeglitchEdit);
    var r10 := Apply(r9, PwmModeEdit(Brushed));
    var r11 := Apply(r10, FieldEdit(CtrlGain, Narrow(Gain5)));
    var r12 := Apply(r11, FieldEdit(TorqueField, TorqueByte(10) as Word));
    var r13 := Apply(r12, OffTimeEdit);
    Apply(r13, EnableEdit)
  }

  lemma ProfileEditsUnfold(r: Regs)
    ensures ApplyEdits(r, ProfileEdits()) == ProfileRegs(r)
  {
    var p1 := [DeadTimeEdit];
    var p2 := p1 + [DecayModeEdit];
    var p3 := p2 + [BlankingEdit];
    var p4 := p3 + [LowSidePeakEdit];
    var p5 := p4 + [HighSidePeakEdit];
    var p6 := p5 + [LowSideTimeEdit];
    var p7 := p6 + [HighSideTimeEdit];
    var p8 := p7 + [OcpThresholdEdit];
    var p9 := p8 + [OcpDeglitchEdit];
    var p10 := p9 + [PwmModeEdit(Brushed)];
    var p12 := p10 + CurrentLimitEdits(10);
    var p13 := p12 + [OffTimeEdit];
    var p14 := p13 + [EnableEdit];
    assert p14 == ProfileEdits();
    ApplyEditsSnoc(r, [], DeadTimeEdit);
    assert [] + [DeadTimeEdit] == p1;
    ApplyEditsSnoc(r, p1, DecayModeEdit);
    ApplyEditsSnoc(r, p2, BlankingEdit);
    ApplyEditsSnoc(r, p3, LowSidePeakEdit);
    ApplyEditsSnoc(r, p4, HighSidePeakEdit);
    ApplyEditsSnoc(r, p5, LowSideTimeEdit);
    ApplyEditsSnoc(r, p6, HighSideTimeEdit);
    ApplyEditsSnoc(r, p7, OcpThresholdEdit);
    ApplyEditsSnoc(r, p8, OcpDeglitchEdit);
    ApplyEditsSnoc(r, p9, PwmModeEdit(Brushed));
    var g := FieldEdit(CtrlGain, Narrow(Gain5));
    var t := FieldEdit(TorqueField, TorqueByte(10) as Word);
    assert CurrentLimitEdits(10) == [g] + [t];
    ApplyEditsAppend(r, p10, CurrentLimitEdits(10));
    var r10 := ApplyEdits(r, p10);
    ApplyEditsSnoc(r10, [], g);
    assert [] + [g] == [g];
    ApplyEditsSnoc(r10, [g], t);
    ApplyEditsSnoc(r, p12, OffTimeEdit);
    ApplyEditsSnoc(r, p13, EnableEdit);
  }

  lemma ProfileCtrl(r: Regs)
    ensures ProfileRegs(r).ctrl == ProfileTarget(r).ctrl
  {
  }

  lemma ProfileTorque(r: Regs)
    ensures ProfileRegs(r).torque == ProfileTarget(r).torque
  {
  }

  lemma ProfileOff(r: Regs)
    ensures ProfileRegs(r).off == ProfileTarget(r).off
  {
  }

  lemma ProfileBlank(r: Regs)
    ensures ProfileRegs(r).blank == ProfileTarget(r).blank
  {
  }

  lemma ProfileDecay(r: Regs)
    ensures ProfileRegs(r).decay == ProfileTarget(r).decay
  {
  }

  lemma ProfileDrive(r: Regs)
    ensures ProfileRegs(r).drive == ProfileTarget(r).drive
  {
  }

  lemma ProfileUntouched(r: Regs)
    ensures ProfileRegs(r).stall == r.stall && ProfileRegs(r).status == r.status
  {
  }

  /** Whatever the chip held before, the profile's edits leave exactly the target register file. */
  lemma ProfileReachesTarget(r: Regs)
    ensures ApplyEdits(r, ProfileEdits()) == ProfileTarget(r)
  {
    ProfileEditsUnfold(r);
    ProfileCtrl(r);
    ProfileTorque(r);
    ProfileOff(r);
    ProfileBlank(r);
    ProfileDecay(r);
    ProfileDrive(r);
    ProfileUntouched(r);
  }

  /** In the target every field the profile names holds the named setting. */
  lemma ProfileTargetSettings(r: Regs)
    ensures var t := ProfileTarget(r);
            && CtrlDeadTime.Of(t.ctrl) == Narrow(DeadTime850ns)
            && CtrlGain.Of(t.ctrl) == Narrow(Gain5)
            && CtrlEnable.Of(t.ctrl) == 1
            && TorqueField.Of(t.torque) as int == TorqueCode(10)
            && OffTime.Of(t.off) == 200
            && OffPwmMode.Of(t.off) == Narrow(Brushed)
            && BlankTime.Of(t.blank) == 255
            && DecayMode.Of(t.decay) == Narrow(ForceFastDecay)
            && DriveOcpThreshold.Of(t.drive) == Narrow(Ocp250mV)
            && DriveOcpDeglitch.Of(t.drive) == Narrow(Deglitch8us)
            && DriveLowSideTime.Of(t.drive) == Narrow(GateDrive1000ns)
            && DriveHighSideTime.Of(t.drive) == Narrow(GateDrive1000ns)
            && DriveLowSidePeak.Of(t.drive) == Narrow(LowSidePeak400mA)
            && DriveHighSidePeak.Of(t.drive) == Narrow(HighSidePeak200mA)
  {
  }

  /** Running the profile a second time changes nothing: its result does not depend on what it overwrote twice. */
  lemma ProfileIdempotent(r: Regs)
    ensures ApplyEdits(ApplyEdits(r, ProfileEdits()), ProfileEdits()) == ApplyEdits(r, ProfileEdits())
  {
    ProfileReachesTarget(r);
    ProfileReachesTarget(ProfileTarget(r));
  }

  /**
    Reading back the register of a field just written: a connected chip
    returns the written code, a disconnected one all ones, so the field
    reads as its full mask.
   */
  lemma ReadBackField(c: Chip, c1: Chip, f: Field, code: Word, v: Word)
    requires c1.connected == c.connected && Fits(f.mask, f.offset)
    requires c.connected ==> f.Of(c1.regs.Get(f.addr)) == code & f.mask
    requires v == Observed(c1, f.addr)
    ensures Extract(v, f.mask, f.offset) == if c.connected then code & f.mask else f.mask
  {
    if !c.connected {
      FullMaskReadsMask(f.mask, f.offset);
    }
  }

  lemma FullMaskReadsMask(mask: Word, offset: Offset)
    requires Fits(mask, offset)
    ensures Extract(0xFFF, mask, offset) == mask
  {
  }

  /** Bus `b` after setting field `f` to `code` and reading its register back. */
  function ReadBackBus(b: Bus, f: Field, code: Word): Bus {
    var e := FieldEdit(f, code);
    Bus(Edited(b.chip, [e]), b.sent + RmwFrames(b.chip, e) + [ReadFrame(f.addr as bv8)])
  }

  /** The field read back after setting `f` to `code` on bus `b` equals `code`. */
  predicate ReadsBack(b: Bus, f: Field, code: Word) {
    Extract(Observed(Edited(b.chip, [FieldEdit(f, code)]), f.addr), f.mask, f.offset) == code
  }

  /** A field setter followed by a read of its register leaves the bus `ReadBackBus` describes. */
  lemma SetThenRead(b: Bus, b1: Bus, b': Bus, f: Field, code: Word, v: Word)
    requires FieldWritten(b, b1, f, code)
    requires b' == Bus(b1.chip, b1.sent + [ReadFrame(f.addr as bv8)]) && v == Observed(b1.chip, f.addr)
    ensures b' == ReadBackBus(b, f, code)
    ensures v == Observed(Edited(b.chip, [FieldEdit(f, code)]), f.addr)
  {
    OneEdit(b.chip, FieldEdit(f, code));
    assert b1.chip == Edited(b.chip, [FieldEdit(f, code)]);
  }

  /**
    Set the enable bit and read it back. A connected chip reads back what was
    written; a disconnected one reads all ones, which matches only "enabled".
   */
  method SetEnabledChecked(b: Bus, enable: bool) returns (b': Bus, ok: bool)
    ensures b' == ReadBackBus(b, CtrlEnable, BoolCode(enable))
    ensures ok <==> ReadsBack(b, CtrlEnable, BoolCode(enable))
    ensures b'.chip.connected == b.chip.connected
    ensures ok <==> b.chip.connected || enable
  {
    AddrRoundTrip(CtrlAddr);
    var b1 := SetMotorEnabled(b, enable);
    var ctrl;
    b', ctrl := ReadRegister(b1, CtrlAddr as bv8);
    assert ctrl == Observed(b1.chip, CtrlAddr);
    SetThenRead(b, b1, b', CtrlEnable, BoolCode(enable), ctrl);
    ReadBackField(b.chip, b1.chip, CtrlEnable, BoolCode(enable), ctrl);
    ok := Extract(ctrl, CtrlEnable.mask, CtrlEnable.offset) == BoolCode(enable);
  }

  /**
    The intent of the firmware's motor-enable self-check: clear the enable
    bit and read it back as 0, set it and read it back as 1. The check passes
    exactly when the chip answers.
   */
  method TestMotorEnable(b: Bus) returns (b': Bus, passed: bool)
    ensures b' == ReadBackBus(ReadBackBus(b, CtrlEnable, 0), CtrlEnable, 1)
    ensures passed <==> ReadsBack(b, CtrlEnable, 0) && ReadsBack(ReadBackBus(b, CtrlEnable, 0), CtrlEnable, 1)
    ensures b'.chip.connected == b.chip.connected
    ensures passed <==> b.chip.connected
  {
    var b1, disabledOk := SetEnabledChecked(b, false);
    var enabledOk;
    b', enabledOk := SetEnabledChecked(b1, true);
    passed := disabledOk && enabledOk;
  }

  /** The intent of the torque self-check: write 127 and read back 127 from the torque byte. */
  method TestSetTorque(b: Bus) returns (b': Bus, passed: bool)
    ensures b' == ReadBackBus(b, TorqueField, 127)
    ensures passed <==> ReadsBack(b, TorqueField, 127)
    ensures b'.chip.connected == b.chip.connected
    ensures passed <==> b.chip.connected
  {
    AddrRoundTrip(TorqueAddr);
    var b1 := SetTorque(b, 127);
    var torque;
    b', torque := ReadRegister(b1, TorqueAddr as bv8);
    assert torque == Observed(b1.chip, TorqueAddr);
    SetThenRead(b, b1, b', TorqueField, 127, torque);
    ReadBackField(b.chip, b1.chip, TorqueField, 127, torque);
    passed := Extract(torque, TorqueField.mask, TorqueField.offset) == 127;
  }

  /**
    Set the gain and read the gain field back. A connected chip reads back
    the code; a disconnected one reads 3, which matches only x40.
   */
  method SetGainChecked(b: Bus, gain: bv32) returns (b': Bus, ok: bool)
    requires gain <= 3
    ensures b' == ReadBackBus(b, CtrlGain, Narrow(gain))
    ensures ok <==> ReadsBack(b, CtrlGain, Narrow(gain))
    ensures b'.chip.connected == b.chip.connected
    ensures ok <==> b.chip.connected || gain == Gain40
  {
    AddrRoundTrip(CtrlAddr);
    var b1 := SetSenseAmplifierGain(b, gain);
    var ctrl;
    b', ctrl := ReadRegister(b1, CtrlAddr as bv8);
    assert ctrl == Observed(b1.chip, CtrlAddr);
    SetThenRead(b, b1, b', CtrlGain, Narrow(gain), ctrl);
    ReadBackField(b.chip, b1.chip, CtrlGain, Narrow(gain), ctrl);
    ok := Extract(ctrl, CtrlGain.mask, CtrlGain.offset) == Narrow(gain);
  }

  /** The intent of the gain self-check: set x5 and read back 0, set x40 and read back 3. */
  method TestSetGain(b: Bus) returns (b': Bus, passed: bool)
    ensures b' == ReadBackBus(ReadBackBus(b, CtrlGain, Narrow(Gain5)), CtrlGain, Narrow(Gain40))
    ensures passed <==> ReadsBack(b, CtrlGain, Narrow(Gain5))
                        && ReadsBack(ReadBackBus(b, CtrlGain, Narrow(Gain5)), CtrlGain, Narrow(Gain40))
    ensures b'.chip.connected == b.chip.connected
    ensures passed <==> b.chip.connected
  {
    var b1, lowOk := SetGainChecked(b, Gain5);
    var highOk;
    b', highOk := SetGainChecked(b1, Gain40);
    passed := lowOk && highOk;
  }

  /** The frame every `check<Flag>` sends. */
  const StatusReadFrame: Word := ReadFrame(StatusAddr as bv8)

  /** The flags in the order `printStatus` reports them. */
  const StatusFlags: seq<Flag> := [OTS, AOCP, BOCP, APDF, BPDF, UVLO, STD, STDLAT]

  /** The frames `printStatus` sends: one STATUS read per flag. */
  const ReportFrames: seq<Word> := seq(|StatusFlags|, _ => StatusReadFrame)

  /**
    `printStatus`: one `check<Flag>` per flag, each a read of STATUS. The
    report is what would be printed; reads change no register.
   */
  method PrintStatus(b: Bus) returns (b': Bus, report: seq<bool>)
    ensures b'.chip == b.chip
    ensures b'.sent == b.sent + ReportFrames
    ensures |report| == |StatusFlags|
    ensures forall i :: 0 <= i < |StatusFlags| ==> report[i] == FlagRaised(b.chip, StatusFlags[i])
  {
    b' := b;
    report := [];
    var i := 0;
    while i < |StatusFlags|
      invariant 0 <= i <= |StatusFlags| && |report| == i
      invariant b'.chip == b.chip
      invariant b'.sent == b.sent + seq(i, _ => StatusReadFrame)
      invariant forall k :: 0 <= k < i ==> report[k] == FlagRaised(b.chip, StatusFlags[k])
    {
      var raised;
      b', raised := CheckFlag(b', StatusFlags[i]);
      report := report + [raised];
      i := i + 1;
    }
  }
}
