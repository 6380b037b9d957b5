/*
 * The status bitmask every snapshot publishes alongside its telemetry.
 * Bit i is set exactly when the i-th flag below holds; older snapshots
 * publish a narrower word (4, 5, 7 or 9 bits).
 */
module StatusWord {

  /** The flags in bit order: bit 0 is the pump, bit 8 the fertiliser feedback fault. */
  datatype StatusFlags = StatusFlags(
    pumpRunning: bool,      // bit 0, value 1
    fertRunning: bool,      // bit 1, value 2
    alarmLatched: bool,     // bit 2, value 4 (pumpAlarm / pumpSoftAlarm)
    sensorError: bool,      // bit 3, value 8
    autoMode: bool,         // bit 4, value 16
    pumpOverload: bool,     // bit 5, value 32
    fertOverload: bool,     // bit 6, value 64
    pumpFeedbackError: bool,// bit 7, value 128
    fertFeedbackError: bool // bit 8, value 256
  )

  /** The widths the snapshots publish. */
  type StatusWidth = w: int | w == 4 || w == 5 || w == 7 || w == 9 witness 9

  function Bit(on: bool, value: bv16): bv16 {
    if on then value else 0
  }

  /**
   * The word a snapshot of the given width publishes: the chain of
   * `if (flag) status |= value;` statements, one per bit the snapshot knows.
   */
  function Encode(f: StatusFlags, width: StatusWidth): bv16 {
    Bit(f.pumpRunning, 1) | Bit(f.fertRunning, 2) | Bit(f.alarmLatched, 4) | Bit(f.sensorError, 8)
    | Bit(width >= 5 && f.autoMode, 16)
    | Bit(width >= 7 && f.pumpOverload, 32) | Bit(width >= 7 && f.fertOverload, 64)
    | Bit(width >= 9 && f.pumpFeedbackError, 128) | Bit(width >= 9 && f.fertFeedbackError, 256)
  }

  /** The firmware's `if (flag) status |= value;` chain, for the bits the width knows. */
  method EncodeFlags(f: StatusFlags, width: StatusWidth) returns (status: bv16)
    ensures status == Encode(f, width)
  {
    status := Bit(f.pumpRunning, 1);
    status := status | Bit(f.fertRunning, 2);
    status := status | Bit(f.alarmLatched, 4);
    status := status | Bit(f.sensorError, 8);
    status := status | Bit(width >= 5 && f.autoMode, 16);
    status := status | Bit(width >= 7 && f.pumpOverload, 32);
    status := status | Bit(width >= 7 && f.fertOverload, 64);
    status := status | Bit(width >= 9 && f.pumpFeedbackError, 128);
    status := status | Bit(width >= 9 && f.fertFeedbackError, 256);
  }

  /** How a dashboard reads the word back. */
  function Decode(s: bv16): StatusFlags {
    StatusFlags(s & 1 != 0, s & 2 != 0, s & 4 != 0, s & 8 != 0, s & 16 != 0,
                s & 32 != 0, s & 64 != 0, s & 128 != 0, s & 256 != 0)
  }

  /** The flags a word of the given width can carry; the rest read as clear. */
  function Truncate(f: StatusFlags, width: StatusWidth): (t: StatusFlags)
    ensures width == 9 ==> t == f
  {
    f.(autoMode := width >= 5 && f.autoMode,
       pumpOverload := width >= 7 && f.pumpOverload,
       fertOverload := width >= 7 && f.fertOverload,
       pumpFeedbackError := width >= 9 && f.pumpFeedbackError,
       fertFeedbackError := width >= 9 && f.fertFeedbackError)
  }

  /** A narrower word is the full word of the truncated flags. */
  lemma EncodeTruncated(f: StatusFlags, width: StatusWidth)
    ensures Encode(f, width) == Encode(Truncate(f, width), 9)
  {
  }

  /** Reading a full word back recovers every flag. */
  lemma DecodeEncodeFull(f: StatusFlags)
    ensures Decode(Encode(f, 9)) == f
  {
  }

  /** Reading the word back recovers every flag the width carries. */
  lemma DecodeEncode(f: StatusFlags, width: StatusWidth)
    ensures Decode(Encode(f, width)) == Truncate(f, width)
  {
    EncodeTruncated(f, width);
    DecodeEncodeFull(Truncate(f, width));
  }

  /** The word has no bit at or above its width. */
  lemma EncodeBounded(f: StatusFlags, width: StatusWidth)
    ensures Encode(f, width) >> (width as bv16) == 0
  {
  }

  /** Each bit is independent: different flags give different full-width words. */
  lemma EncodeInjective(f: StatusFlags, g: StatusFlags)
    requires Encode(f, 9) == Encode(g, 9)
    ensures f == g
  {
    DecodeEncodeFull(f);
    DecodeEncodeFull(g);
  }

  /** The low `width` bits. */
  function Mask(width: StatusWidth): bv16 {
    if width == 4 then 0xF else if width == 5 then 0x1F else if width == 7 then 0x7F else 0x1FF
  }

  lemma MaskIsLowBits(width: StatusWidth)
    ensures Mask(width) == (1 << (width as bv16)) - 1
  {
  }

  lemma LowBits(f: StatusFlags)
    ensures Encode(f, 4) == Encode(f, 9) & 0xF
    ensures Encode(f, 5) == Encode(f, 9) & 0x1F
    ensures Encode(f, 7) == Encode(f, 9) & 0x7F
  {
  }

  /** The narrower words are the low bits of the full one, as the later firmware only added bits. */
  lemma EncodeExtends(f: StatusFlags, width: StatusWidth)
    ensures Encode(f, width) == Encode(f, 9) & Mask(width)
  {
    LowBits(f);
  }
}
