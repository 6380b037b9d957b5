/*
 * The RS-485 soil probe of v11.0 speaks Modbus RTU. The firmware sends one
 * fixed "Read Holding Registers" request (function 0x03, Modbus Application
 * Protocol V1.1b3 section 6.3) and decodes the 13-byte reply: slave address,
 * function code, byte count 8, four big-endian registers, CRC-16 (low byte
 * first, MODBUS over Serial Line V1.02 section 2.5.1).
 */
module Modbus {
  import opened Common

  /** A 16-bit Modbus register. */
  type Register = bv16

  // ---------------------------------------------------------------- CRC-16

  /** One shift of the reflected CRC-16/MODBUS register (polynomial 0xA001). */
  function CrcShift(crc: bv16): bv16 {
    if crc & 1 == 1 then (crc >> 1) ^ 0xA001 else crc >> 1
  }

  /** Folds one byte into the CRC register: xor into the low byte, then eight shifts. */
  function CrcByte(crc: bv16, b: bv8): bv16 {
    var c := crc ^ (b as bv16);
    CrcShift(CrcShift(CrcShift(CrcShift(CrcShift(CrcShift(CrcShift(CrcShift(c))))))))
  }

  /** The CRC register after folding in `s`, starting from `crc`. */
  function CrcFrom(crc: bv16, s: seq<bv8>): bv16
    decreases |s|
  {
    if |s| == 0 then crc else CrcFrom(CrcByte(crc, s[0]), s[1..])
  }

  /** CRC-16/MODBUS: initial value 0xFFFF. */
  function Crc16(s: seq<bv8>): bv16 {
    CrcFrom(0xFFFF, s)
  }

  /** The CRC is computed incrementally, byte after byte. */
  lemma {:induction false} CrcFromAppend(crc: bv16, s: seq<bv8>, b: bv8)
    ensures CrcFrom(crc, s + [b]) == CrcByte(CrcFrom(crc, s), b)
    decreases |s|
  {
    if |s| == 0 {
      assert (s + [b])[1..] == [];
    } else {
      assert (s + [b])[1..] == s[1..] + [b];
      CrcFromAppend(CrcByte(crc, s[0]), s[1..], b);
    }
  }

  /** An RTU frame: the body followed by its CRC-16, low-order byte first. */
  function WithCrc(body: seq<bv8>): (frame: seq<bv8>)
    ensures |frame| == |body| + 2 && frame[..|body|] == body
  {
    var crc := Crc16(body);
    body + [(crc & 0xFF) as bv8, (crc >> 8) as bv8]
  }

  /** What a receiver that checks the CRC accepts: the last two bytes match the rest. */
  predicate CrcValid(frame: seq<bv8>) {
    |frame| >= 2 && WithCrc(frame[..|frame| - 2]) == frame
  }

  lemma WithCrcValid(body: seq<bv8>)
    ensures CrcValid(WithCrc(body))
  {
    var frame := WithCrc(body);
    assert frame[..|frame| - 2] == body;
  }

  // ------------------------------------------------------------ the request

  function High(r: Register): bv8 { (r >> 8) as bv8 }
  function Low(r: Register): bv8 { (r & 0xFF) as bv8 }

  /** Function 0x03: slave, function, start address and register count (both big-endian), CRC. */
  function ReadHoldingRegisters(slave: bv8, start: Register, count: Register): (frame: seq<bv8>)
    ensures |frame| == 8 && frame[0] == slave && frame[1] == 0x03
    ensures CrcValid(frame)
  {
    WithCrcValid([slave, 0x03, High(start), Low(start), High(count), Low(count)]);
    WithCrc([slave, 0x03, High(start), Low(start), High(count), Low(count)])
  }

  /** The bytes the firmware writes to the bus. */
  const SoilQuery: seq<bv8> := [0x01, 0x03, 0x00, 0x00, 0x00, 0x04, 0x44, 0x09]

  /** The register count the query asks for. */
  const SoilRegisterCount: Register := 4

  lemma SoilQueryCrcHead()
    ensures CrcByte(CrcByte(CrcByte(0xFFFF, 0x01), 0x03), 0x00) == 0xF020
  {
    assert CrcByte(0xFFFF, 0x01) == 0x807E;
    assert CrcByte(0x807E, 0x03) == 0x2140;
  }

  lemma SoilQueryCrcTail()
    ensures CrcByte(CrcByte(CrcByte(0xF020, 0x00), 0x00), 0x04) == 0x0944
  {
    assert CrcByte(0xF020, 0x00) == 0xD8F1;
    assert CrcByte(0xD8F1, 0x00) == 0x8419;
  }

  /** The CRC the firmware appends to its query. */
  lemma SoilQueryCrc()
    ensures Crc16([0x01, 0x03, 0x00, 0x00, 0x00, 0x04]) == 0x0944
  {
    SoilQueryCrcHead();
    SoilQueryCrcTail();
    CrcFromAppend(0xFFFF, [], 0x01);
    CrcFromAppend(0xFFFF, [0x01], 0x03);
    CrcFromAppend(0xFFFF, [0x01, 0x03], 0x00);
    CrcFromAppend(0xFFFF, [0x01, 0x03, 0x00], 0x00);
    CrcFromAppend(0xFFFF, [0x01, 0x03, 0x00, 0x00], 0x00);
    CrcFromAppend(0xFFFF, [0x01, 0x03, 0x00, 0x00, 0x00], 0x04);
    assert [0x01, 0x03, 0x00, 0x00, 0x00] + [0x04] == [0x01, 0x03, 0x00, 0x00, 0x00, 0x04];
  }

  /** The fixed query is a well-formed request: slave 1, registers 0..3, correct CRC. */
  lemma SoilQueryIsReadRequest()
    ensures SoilQuery == ReadHoldingRegisters(1, 0, SoilRegisterCount)
  {
    SoilQueryCrc();
    assert High(0) == 0 && Low(0) == 0 && High(SoilRegisterCount) == 0 && Low(SoilRegisterCount) == 4;
  }

  /** A reply to function 0x03 holds address, function, byte count, 2 bytes per register and the CRC. */
  function ReplyLength(count: nat): nat {
    3 + 2 * count + 2
  }

  /** The firmware waits for exactly this many bytes. */
  lemma SoilReplyLength()
    ensures ReplyLength(SoilRegisterCount as int) == 13
  {
  }

  // -------------------------------------------------------------- the reply

  type ReplyFrame = s: seq<bv8> | |s| == 13 witness [0, 0, 0, 0, 0, 0, 0, 0, 0, 0, 0, 0, 0]

  /** `buf[i] << 8 | buf[i + 1]`: a big-endian 16-bit register. */
  function Word(hi: bv8, lo: bv8): (w: Register)
    ensures High(w) == hi && Low(w) == lo
  {
    (hi as bv16 << 8) | lo as bv16
  }

  /**
   * The four registers of the probe, each in its raw unit: moisture and
   * temperature in hundredths (the firmware divides by 100.0), conductivity in
   * uS/cm, salinity in mg/L.
   */
  datatype SoilRegisters = SoilRegisters(moisture: Register, temperature: Register, conductivity: Register, salinity: Register)

  /** The firmware's only validity test: the three header bytes; the CRC is not checked. */
  predicate HeaderOk(frame: ReplyFrame) {
    frame[0] == 0x01 && frame[1] == 0x03 && frame[2] == 0x08
  }

  /**
   * The reply as the probe sends it: registers in address order 0x0000..0x0003,
   * moisture first, as the request's comment and the decoder's comment list them.
   */
  function EncodeReply(regs: SoilRegisters): (frame: ReplyFrame)
    ensures CrcValid(frame) && HeaderOk(frame)
  {
    var body: seq<bv8> := [0x01, 0x03, 0x08,
      High(regs.moisture), Low(regs.moisture), High(regs.temperature), Low(regs.temperature),
      High(regs.conductivity), Low(regs.conductivity), High(regs.salinity), Low(regs.salinity)];
    WithCrcValid(body);
    WithCrc(body)
  }

  /**
   * `readSoilSensor` as written: bytes 3-4 go to `soil_temp`, bytes 5-6 to
   * `soil_hum`, although register 0x0000 is the moisture register.
   */
  function DecodeReplyAsWritten(frame: ReplyFrame): (r: Option<SoilRegisters>)
    ensures r.Some? <==> HeaderOk(frame)
  {
    if HeaderOk(frame) then
      Some(SoilRegisters(moisture := Word(frame[5], frame[6]), temperature := Word(frame[3], frame[4]),
                         conductivity := Word(frame[7], frame[8]), salinity := Word(frame[9], frame[10])))
    else None
  }

  /** The decoder with the register order of the probe: what the firmware evidently intends. */
  function DecodeReply(frame: ReplyFrame): (r: Option<SoilRegisters>)
    ensures r.Some? <==> HeaderOk(frame)
  {
    if HeaderOk(frame) then
      Some(SoilRegisters(moisture := Word(frame[3], frame[4]), temperature := Word(frame[5], frame[6]),
                         conductivity := Word(frame[7], frame[8]), salinity := Word(frame[9], frame[10])))
    else None
  }

  lemma WordOfBytes(r: Register)
    ensures Word(High(r), Low(r)) == r
  {
  }

  /** Decoding what the probe sends gives back its registers. */
  lemma DecodeEncodeReply(regs: SoilRegisters)
    ensures DecodeReply(EncodeReply(regs)) == Some(regs)
  {
    WordOfBytes(regs.moisture);
    WordOfBytes(regs.temperature);
    WordOfBytes(regs.conductivity);
    WordOfBytes(regs.salinity);
  }

  /** The decoder as written swaps moisture and temperature of every reply. */
  lemma DecodeAsWrittenSwaps(regs: SoilRegisters)
    ensures DecodeReplyAsWritten(EncodeReply(regs)) == Some(regs.(moisture := regs.temperature, temperature := regs.moisture))
  {
    WordOfBytes(regs.moisture);
    WordOfBytes(regs.temperature);
    WordOfBytes(regs.conductivity);
    WordOfBytes(regs.salinity);
  }

  /**
   * Soil at 15.00 % moisture and 25.00 degrees: the decoder as written reports
   * 25.00 % moisture, above the 20 % start threshold, so the dry soil is not irrigated.
   */
  lemma DrySoilReadAsMoist()
    ensures DecodeReplyAsWritten(EncodeReply(SoilRegisters(1500, 2500, 0, 0))).value.moisture == 2500
    ensures DecodeReply(EncodeReply(SoilRegisters(1500, 2500, 0, 0))).value.moisture == 1500
  {
    DecodeAsWrittenSwaps(SoilRegisters(1500, 2500, 0, 0));
    DecodeEncodeReply(SoilRegisters(1500, 2500, 0, 0));
  }

  /** The CRC bytes never influence the decoded value: a corrupted frame with a good header is accepted. */
  lemma DecodeIgnoresCrc(f: ReplyFrame, g: ReplyFrame)
    requires f[..11] == g[..11]
    ensures DecodeReplyAsWritten(f) == DecodeReplyAsWritten(g)
    ensures DecodeReply(f) == DecodeReply(g)
  {
    assert forall i :: 0 <= i < 11 ==> f[i] == f[..11][i] == g[..11][i] == g[i];
  }
}
