/** Bytes of fixed-width integers, most significant byte first, as the C code
    takes them apart with `(uint8_t)(value >> n)` and joins them with `<<` and
    `|`. Signed integers (int16_t, int32_t, int64_t) are their two's
    complement bit patterns; `>>` on a signed value is the arithmetic shift,
    which copies the sign bit into the vacated high bits. */
module AlxBytes {
  import opened AlxCommon

  // ---------------------------------------------------------------------------
  // 16 bits
  // ---------------------------------------------------------------------------

  /** The bytes of a uint16_t, most significant first. */
  function Msb16(v: U16): (bs: seq<U8>)
    ensures |bs| == 2
  {
    [Hi(v), Lo(v)]
  }

  /** A uint16_t is determined by its bytes. */
  lemma Msb16Injective(v: U16, w: U16)
    requires Msb16(v) == Msb16(w)
    ensures v == w
  {
    WordOfBytes(v);
    WordOfBytes(w);
  }

  /** `value >> k` on an int16_t. */
  function Asr16(v: U16, k: U16): (r: U16)
    requires k < 16
    ensures v & 0x8000 == 0 ==> r == v >> k
  {
    if v & 0x8000 != 0 then (v >> k) | !(0xFFFF >> k) else v >> k
  }

  /** The bytes the C code stores for an int16_t: `(uint8_t)(value >> 8)` and
      `(uint8_t)value`. */
  function Int16Msb(v: U16): (bs: seq<U8>)
    ensures |bs| == 2
  {
    [(Asr16(v, 8) & 0xFF) as U8, (v & 0xFF) as U8]
  }

  /** The sign bits the arithmetic shift brings in fall outside the byte kept,
      so an int16_t is stored as the bytes of its bit pattern. */
  lemma Int16MsbIsMsb16(v: U16)
    ensures Int16Msb(v) == Msb16(v)
  {
  }

  // ---------------------------------------------------------------------------
  // 32 bits
  // ---------------------------------------------------------------------------

  /** `(uint8_t)(v >> shift)`. */
  function Byte32(v: U32, shift: U32): U8
    requires shift <= 24
  {
    ((v >> shift) & 0xFF) as U8
  }

  /** The bytes of a uint32_t, most significant first. */
  function Msb32(v: U32): (bs: seq<U8>)
    ensures |bs| == 4
  {
    [Byte32(v, 24), Byte32(v, 16), Byte32(v, 8), Byte32(v, 0)]
  }

  /** Four bytes, most significant first, as a uint32_t. */
  function FromMsb32(bs: seq<U8>): U32
    requires |bs| == 4
  {
    ((bs[0] as U32) << 24) | ((bs[1] as U32) << 16) | ((bs[2] as U32) << 8) | (bs[3] as U32)
  }

  /** Splitting a uint32_t into bytes and joining them are inverse. */
  lemma Msb32RoundTrip(v: U32, a: U8, b: U8, c: U8, d: U8)
    ensures FromMsb32(Msb32(v)) == v
    ensures Msb32(FromMsb32([a, b, c, d])) == [a, b, c, d]
  {
  }

  /** `value >> k` on an int32_t. */
  function Asr32(v: U32, k: U32): (r: U32)
    requires k < 32
    ensures v & 0x8000_0000 == 0 ==> r == v >> k
  {
    if v & 0x8000_0000 != 0 then (v >> k) | !(0xFFFF_FFFF >> k) else v >> k
  }

  /** `(uint8_t)(value >> shift)` of an int32_t. */
  function SignedByte32(v: U32, shift: U32): U8
    requires shift <= 24
  {
    (Asr32(v, shift) & 0xFF) as U8
  }

  /** The bytes the C code stores for an int32_t: `(uint8_t)(value >> 24)`
      down to `(uint8_t)value`. */
  function Int32Msb(v: U32): (bs: seq<U8>)
    ensures |bs| == 4
  {
    [SignedByte32(v, 24), SignedByte32(v, 16), SignedByte32(v, 8), SignedByte32(v, 0)]
  }

  /** The arithmetic shift and the logical one leave the same low byte. */
  lemma SignedByte32IsByte32(v: U32, shift: U32)
    requires shift <= 24
    ensures SignedByte32(v, shift) == Byte32(v, shift)
  {
  }

  /** An int32_t is stored as the bytes of its bit pattern. */
  lemma Int32MsbIsMsb32(v: U32)
    ensures Int32Msb(v) == Msb32(v)
  {
    SignedByte32IsByte32(v, 24);
    SignedByte32IsByte32(v, 16);
    SignedByte32IsByte32(v, 8);
    SignedByte32IsByte32(v, 0);
  }

  // ---------------------------------------------------------------------------
  // 64 bits
  // ---------------------------------------------------------------------------

  /** `(uint8_t)(v >> shift)`. */
  function Byte64(v: U64, shift: U64): U8
    requires shift <= 56
  {
    ((v >> shift) & 0xFF) as U8
  }

  /** The bytes of a uint64_t, most significant first. */
  function Msb64(v: U64): (bs: seq<U8>)
    ensures |bs| == 8
  {
    [Byte64(v, 56), Byte64(v, 48), Byte64(v, 40), Byte64(v, 32),
     Byte64(v, 24), Byte64(v, 16), Byte64(v, 8), Byte64(v, 0)]
  }

  /** Eight bytes, most significant first, as a uint64_t. */
  function FromMsb64(bs: seq<U8>): U64
    requires |bs| == 8
  {
    ((bs[0] as U64) << 56) | ((bs[1] as U64) << 48) | ((bs[2] as U64) << 40) | ((bs[3] as U64) << 32) |
    ((bs[4] as U64) << 24) | ((bs[5] as U64) << 16) | ((bs[6] as U64) << 8) | (bs[7] as U64)
  }

  /** Splitting a uint64_t into bytes and joining them are inverse. */
  lemma Msb64RoundTrip(v: U64, bs: seq<U8>)
    requires |bs| == 8
    ensures FromMsb64(Msb64(v)) == v
    ensures Msb64(FromMsb64(bs)) == bs
  {
    Msb64OfBytes(bs[0], bs[1], bs[2], bs[3], bs[4], bs[5], bs[6], bs[7]);
    assert bs == [bs[0], bs[1], bs[2], bs[3], bs[4], bs[5], bs[6], bs[7]];
  }

  lemma Msb64OfBytes(b0: U8, b1: U8, b2: U8, b3: U8, b4: U8, b5: U8, b6: U8, b7: U8)
    ensures Msb64(FromMsb64([b0, b1, b2, b3, b4, b5, b6, b7])) == [b0, b1, b2, b3, b4, b5, b6, b7]
  {
  }

  /** `value >> k` on an int64_t. */
  function Asr64(v: U64, k: U64): (r: U64)
    requires k < 64
    ensures v & 0x8000_0000_0000_0000 == 0 ==> r == v >> k
  {
    if v & 0x8000_0000_0000_0000 != 0 then (v >> k) | !(0xFFFF_FFFF_FFFF_FFFF >> k) else v >> k
  }

  /** `(uint8_t)(value >> shift)` of an int64_t. */
  function SignedByte64(v: U64, shift: U64): U8
    requires shift <= 56
  {
    (Asr64(v, shift) & 0xFF) as U8
  }

  /** The bytes the C code stores for an int64_t: `(uint8_t)(value >> 56)`
      down to `(uint8_t)value`. */
  function Int64Msb(v: U64): (bs: seq<U8>)
    ensures |bs| == 8
  {
    [SignedByte64(v, 56), SignedByte64(v, 48), SignedByte64(v, 40), SignedByte64(v, 32),
     SignedByte64(v, 24), SignedByte64(v, 16), SignedByte64(v, 8), SignedByte64(v, 0)]
  }

  /** The arithmetic shift and the logical one leave the same low byte. */
  lemma SignedByte64IsByte64(v: U64, shift: U64)
    requires shift <= 56
    ensures SignedByte64(v, shift) == Byte64(v, shift)
  {
  }

  /** An int64_t is stored as the bytes of its bit pattern. */
  lemma Int64MsbIsMsb64(v: U64)
    ensures Int64Msb(v) == Msb64(v)
  {
    SignedByte64IsByte64(v, 56);
    SignedByte64IsByte64(v, 48);
    SignedByte64IsByte64(v, 40);
    SignedByte64IsByte64(v, 32);
    SignedByte64IsByte64(v, 24);
    SignedByte64IsByte64(v, 16);
    SignedByte64IsByte64(v, 8);
    SignedByte64IsByte64(v, 0);
  }
}
