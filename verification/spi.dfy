/**
  The 16-bit SPI frame of the DRV8711 and an abstract chip at the other end
  of the bus. Bit 15 selects read (1) or write (0), bits 14..12 carry the
  register address and bits 11..0 the payload.

  The chip is a plain register file. A disconnected chip leaves the data
  line pulled up: every reply is all ones and every write is lost. The bus
  keeps every frame the controller has sent, so that properties about which
  reads and writes an operation issues can be stated.
 */
module Spi {
  import opened Registers

  /** What a 16-bit frame asks of the chip. */
  datatype Request = ReadRequest(addr: Addr) | WriteRequest(addr: Addr, payload: Reg12)

  /** How the chip decodes a frame. */
  function Decode(w: Word): Request {
    var a := ((w >> 12) & 7) as Addr;
    if w & 0x8000 != 0 then ReadRequest(a) else WriteRequest(a, (w & 0xFFF) as Reg12)
  }

  /** The 3-bit address `regAddress & 0x07` of a `uint8_t` register address. */
  function AddrOf(regAddress: bv8): Addr {
    (regAddress & 0x07) as Addr
  }

  /** The frame `writeRegister` sends: address masked to 3 bits, payload to 12 bits, bit 15 clear. */
  function WriteFrame(regAddress: bv8, data: Word): (w: Word)
    ensures w & 0x8000 == 0
    ensures Decode(w) == WriteRequest(AddrOf(regAddress), (data & 0xFFF) as Reg12)
  {
    var spiData := (((regAddress & 0x07) as Word) << 12) | (data & 0x0FFF);
    spiData & !(1 << 15)
  }

  /** The frame `readRegister` sends: bit 15 set, address masked to 3 bits, zero payload. */
  function ReadFrame(regAddress: bv8): (w: Word)
    ensures w & 0x8000 != 0
    ensures w & 0xFFF == 0
    ensures Decode(w) == ReadRequest(AddrOf(regAddress))
  {
    (((regAddress & 0x07) as Word) << 12) | (1 << 15)
  }

  /** The frame that carries a request. */
  function Encode(r: Request): Word {
    match r
    case ReadRequest(a) => ReadFrame(a as bv8)
    case WriteRequest(a, v) => WriteFrame(a as bv8, v as Word)
  }

  /** Encoding then decoding gives back the request. */
  lemma DecodeEncode(r: Request)
    ensures Decode(Encode(r)) == r
  {
  }

  /** Every write frame, and every read frame with a zero payload, is the encoding of what it decodes to. */
  lemma EncodeDecode(w: Word)
    requires w & 0x8000 == 0 || w & 0xFFF == 0
    ensures Encode(Decode(w)) == w
  {
  }

  datatype Chip = Chip(regs: Regs, connected: bool)

  /** A bus transfer: the chip after the frame, and the 16 bits it shifted back. */
  datatype Exchange = Exchange(chip: Chip, miso: Word)

  /** The chip's response to one frame. */
  function Respond(c: Chip, w: Word): Exchange {
    if !c.connected then Exchange(c, 0xFFFF)
    else match Decode(w)
      case ReadRequest(a) => Exchange(c, c.regs.Get(a) as Word)
      case WriteRequest(a, v) => Exchange(c.(regs := c.regs.Set(a, v)), 0)
  }

  /** The chip and every frame sent to it so far, oldest first. */
  datatype Bus = Bus(chip: Chip, sent: seq<Word>)

  /** The bus after one 16-bit exchange and the 16 bits the chip shifted back. */
  datatype Reply = Reply(bus: Bus, value: Word)

  /** One chip-select-framed 16-bit exchange. */
  function Transfer16(b: Bus, w: Word): Reply {
    var e := Respond(b.chip, w);
    Reply(Bus(e.chip, b.sent + [w]), e.miso)
  }

  /** `writeRegister`: a connected chip stores the masked payload at the masked address. */
  method WriteRegister(b: Bus, regAddress: bv8, data: Word) returns (b': Bus)
    ensures b'.sent == b.sent + [WriteFrame(regAddress, data)]
    ensures b'.chip.connected == b.chip.connected
    ensures b.chip.connected ==> b'.chip.regs == b.chip.regs.Set(AddrOf(regAddress), (data & 0xFFF) as Reg12)
    ensures !b.chip.connected ==> b'.chip == b.chip
  {
    b' := Transfer16(b, WriteFrame(regAddress, data)).bus;
  }

  /** `readRegister`: the stored value, or 0xFFF from a disconnected chip; never more than 12 bits. */
  method ReadRegister(b: Bus, regAddress: bv8) returns (b': Bus, value: Word)
    ensures value <= 0xFFF
    ensures value == if b.chip.connected then b.chip.regs.Get(AddrOf(regAddress)) as Word else 0xFFF
    ensures b' == Bus(b.chip, b.sent + [ReadFrame(regAddress)])
  {
    var reply := Transfer16(b, ReadFrame(regAddress));
    b' := reply.bus;
    value := reply.value & 0x0FFF;
  }

  /** Reading a register back after writing it yields the masked payload; other registers are unaffected. */
  lemma ReadAfterWrite(b: Bus, a: bv8, data: Word, other: bv8)
    requires b.chip.connected
    ensures var w := Transfer16(b, WriteFrame(a, data)).bus;
            Transfer16(w, ReadFrame(a)).value & 0xFFF == data & 0xFFF
    ensures var w := Transfer16(b, WriteFrame(a, data)).bus;
            AddrOf(other) != AddrOf(a) ==>
              Transfer16(w, ReadFrame(other)).value == Transfer16(b, ReadFrame(other)).value
  {
  }
}
