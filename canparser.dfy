/** Packing of integers, bits and enum fields into the eight-byte payload of
    a CAN message (alxCanParser.c). The payload is the message's `data` array;
    setters change it in place, getters read it. Multi-byte values are
    described by their bytes "most significant first" (`Msb16`, `Msb32`,
    `Msb64`, `Int16Msb`, ...); the endian fixes whether the payload holds
    those bytes in that order or reversed. */
module AlxCanParser {
  import opened AlxCommon
  import opened AlxBytes

  /** AlxCanParser_Endian. The source's `default: break;` branches (an endian
      value outside the enum) are not modelled. */
  datatype Endian = Big | Little

  const PayloadLen: nat := 8

  /** The payload with `bs` written over it starting at byte `off`. */
  function Put(d: seq<U8>, off: nat, bs: seq<U8>): (r: seq<U8>)
    requires off + |bs| <= |d|
    ensures |r| == |d|
    ensures r[off..off + |bs|] == bs
    ensures forall i :: 0 <= i < |d| && !(off <= i < off + |bs|) ==> r[i] == d[i]
  {
    d[..off] + bs + d[off + |bs|..]
  }

  /** Writing a whole payload replaces it. */
  lemma PutWhole(d: seq<U8>, bs: seq<U8>)
    requires |bs| == |d|
    ensures Put(d, 0, bs) == bs
  {
  }

  function Reverse(s: seq<U8>): (r: seq<U8>)
    ensures |r| == |s|
  {
    seq(|s|, i requires 0 <= i < |s| => s[|s| - 1 - i])
  }

  /** The payload order of bytes given most significant first. */
  function InOrder(e: Endian, msbFirst: seq<U8>): (r: seq<U8>)
    ensures |r| == |msbFirst|
  {
    match e
    case Big => msbFirst
    case Little => Reverse(msbFirst)
  }

  lemma InOrderInjective(e: Endian, a: seq<U8>, b: seq<U8>)
    requires InOrder(e, a) == InOrder(e, b)
    ensures a == b
  {
    if e == Little {
      assert |a| == |b|;
      forall i | 0 <= i < |a|
        ensures a[i] == b[i]
      {
        assert Reverse(a)[|a| - 1 - i] == Reverse(b)[|a| - 1 - i];
      }
    }
  }

  // ---------------------------------------------------------------------------
  // Single bits
  // ---------------------------------------------------------------------------

  /** AlxCanParser_BitGet. */
  function BitGet(b: U8, bit: U8): bool
    requires bit < 8
  {
    b & (1 << bit) > 0
  }

  /** AlxCanParser_BitSet: bit `bit` becomes `state`, every other bit keeps
      its value. */
  function BitSet(b: U8, bit: U8, state: bool): (r: U8)
    requires bit < 8
    ensures forall k: U8 {:trigger BitGet(r, k)} :: k < 8 ==> BitGet(r, k) == if k == bit then state else BitGet(b, k)
  {
    if state then b | (1 << bit) else b & !(1 << bit)
  }

  /** A byte is determined by its eight bits. */
  lemma BitsDetermineByte(x: U8, y: U8)
    requires forall k: U8 :: k < 8 ==> BitGet(x, k) == BitGet(y, k)
    ensures x == y
  {
    assert BitGet(x, 0) == BitGet(y, 0) && BitGet(x, 1) == BitGet(y, 1);
    assert BitGet(x, 2) == BitGet(y, 2) && BitGet(x, 3) == BitGet(y, 3);
    assert BitGet(x, 4) == BitGet(y, 4) && BitGet(x, 5) == BitGet(y, 5);
    assert BitGet(x, 6) == BitGet(y, 6) && BitGet(x, 7) == BitGet(y, 7);
  }

  /** AlxCanParser_SetBit: only bit `bitOffset` of byte `byteOffset` changes. */
  method SetBit(data: array<U8>, byteOffset: nat, bitOffset: U8, value: bool)
    requires data.Length == PayloadLen && byteOffset < 8 && bitOffset < 8
    modifies data
    ensures data[..] == old(data[..])[byteOffset := BitSet(old(data[byteOffset]), bitOffset, value)]
  {
    data[byteOffset] := BitSet(data[byteOffset], bitOffset, value);
  }

  /** AlxCanParser_GetBit. */
  function GetBit(d: seq<U8>, byteOffset: nat, bitOffset: U8): bool
    requires |d| == PayloadLen && byteOffset < 8 && bitOffset < 8
  {
    BitGet(d[byteOffset], bitOffset)
  }

  /** After SetBit, GetBit returns the written value at that position and
      every other bit of the payload is as before. */
  lemma SetBitThenGetBit(d: seq<U8>, byteOffset: nat, bitOffset: U8, value: bool)
    requires |d| == PayloadLen && byteOffset < 8 && bitOffset < 8
    ensures var d' := d[byteOffset := BitSet(d[byteOffset], bitOffset, value)];
      GetBit(d', byteOffset, bitOffset) == value &&
      (forall k: U8 :: k < 8 && k != bitOffset ==> GetBit(d', byteOffset, k) == GetBit(d, byteOffset, k)) &&
      (forall i :: 0 <= i < 8 && i != byteOffset ==> d'[i] == d[i])
  {
  }

  // ---------------------------------------------------------------------------
  // 8-bit values
  // ---------------------------------------------------------------------------

  /** AlxCanParser_SetUint8. */
  method SetUint8(data: array<U8>, byteOffset: nat, value: U8)
    requires data.Length == PayloadLen && byteOffset <= 7
    modifies data
    ensures data[..] == Put(old(data[..]), byteOffset, [value])
  {
    data[byteOffset] := value;
    assert data[..] == Put(old(data[..]), byteOffset, [value]);
  }

  /** AlxCanParser_GetUint8. */
  function GetUint8(d: seq<U8>, byteOffset: nat): (v: U8)
    requires |d| == PayloadLen && byteOffset <= 7
    ensures [v] == d[byteOffset..byteOffset + 1]
  {
    d[byteOffset]
  }

  lemma Uint8RoundTrip(d: seq<U8>, byteOffset: nat, v: U8)
    requires |d| == PayloadLen && byteOffset <= 7
    ensures GetUint8(Put(d, byteOffset, [v]), byteOffset) == v
  {
    assert Put(d, byteOffset, [v])[byteOffset] == v;
  }

  // ---------------------------------------------------------------------------
  // 16-bit values
  // ---------------------------------------------------------------------------

  /** AlxCanParser_SetUint16. */
  method SetUint16(data: array<U8>, e: Endian, byteOffset: nat, value: U16)
    requires data.Length == PayloadLen && byteOffset <= 6
    modifies data
    ensures data[..] == Put(old(data[..]), byteOffset, InOrder(e, Msb16(value)))
  {
    match e {
      case Big =>
        data[byteOffset + 0] := Hi(value);
        data[byteOffset + 1] := Lo(value);
      case Little =>
        data[byteOffset + 1] := Hi(value);
        data[byteOffset + 0] := Lo(value);
    }
    assert data[..] == Put(old(data[..]), byteOffset, InOrder(e, Msb16(value)));
  }

  /** AlxCanParser_GetUint16: the bytes of the result, in payload order, are
      the two payload bytes. */
  function GetUint16(d: seq<U8>, e: Endian, byteOffset: nat): (v: U16)
    requires |d| == PayloadLen && byteOffset <= 6
    ensures InOrder(e, Msb16(v)) == d[byteOffset..byteOffset + 2]
  {
    match e
    case Big => (d[byteOffset + 1] as U16) | ((d[byteOffset + 0] as U16) << 8)
    case Little => ((d[byteOffset + 1] as U16) << 8) | (d[byteOffset + 0] as U16)
  }

  lemma Uint16RoundTrip(d: seq<U8>, e: Endian, byteOffset: nat, v: U16)
    requires |d| == PayloadLen && byteOffset <= 6
    ensures GetUint16(Put(d, byteOffset, InOrder(e, Msb16(v))), e, byteOffset) == v
  {
    var r := GetUint16(Put(d, byteOffset, InOrder(e, Msb16(v))), e, byteOffset);
    InOrderInjective(e, Msb16(r), Msb16(v));
    Msb16Injective(r, v);
  }

  /** AlxCanParser_SetInt16: the value's bit pattern split with the
      arithmetic shift. */
  method SetInt16(data: array<U8>, e: Endian, byteOffset: nat, value: U16)
    requires data.Length == PayloadLen && byteOffset <= 6
    modifies data
    ensures data[..] == Put(old(data[..]), byteOffset, InOrder(e, Int16Msb(value)))
  {
    match e {
      case Big =>
        data[byteOffset + 0] := (Asr16(value, 8) & 0xFF) as U8;
        data[byteOffset + 1] := (value & 0xFF) as U8;
      case Little =>
        data[byteOffset + 1] := (Asr16(value, 8) & 0xFF) as U8;
        data[byteOffset + 0] := (value & 0xFF) as U8;
    }
    assert data[..] == Put(old(data[..]), byteOffset, InOrder(e, Int16Msb(value)));
  }

  /** AlxCanParser_GetInt16: the uint16_t assembly of GetUint16, read as an
      int16_t; split as SetInt16 splits it, it gives back the payload bytes. */
  function GetInt16(d: seq<U8>, e: Endian, byteOffset: nat): (v: U16)
    requires |d| == PayloadLen && byteOffset <= 6
    ensures InOrder(e, Int16Msb(v)) == d[byteOffset..byteOffset + 2]
  {
    Int16MsbIsMsb16(GetUint16(d, e, byteOffset));
    GetUint16(d, e, byteOffset)
  }

  lemma Int16SetGet(d: seq<U8>, e: Endian, byteOffset: nat, v: U16)
    requires |d| == PayloadLen && byteOffset <= 6
    ensures GetInt16(Put(d, byteOffset, InOrder(e, Int16Msb(v))), e, byteOffset) == v
  {
    Int16MsbIsMsb16(v);
    Uint16RoundTrip(d, e, byteOffset, v);
  }

  // ---------------------------------------------------------------------------
  // 32-bit values
  // ---------------------------------------------------------------------------

  /** AlxCanParser_SetUint32. */
  method SetUint32(data: array<U8>, e: Endian, byteOffset: nat, value: U32)
    requires data.Length == PayloadLen && byteOffset <= 4
    modifies data
    ensures data[..] == Put(old(data[..]), byteOffset, InOrder(e, Msb32(value)))
  {
    ghost var d := data[..];
    var b0, b1, b2, b3 := Byte32(value, 24), Byte32(value, 16), Byte32(value, 8), Byte32(value, 0);
    match e {
      case Big =>
        data[byteOffset + 0] := b0;
        data[byteOffset + 1] := b1;
        data[byteOffset + 2] := b2;
        data[byteOffset + 3] := b3;
        assert data[..] == d[byteOffset := b0][byteOffset + 1 := b1][byteOffset + 2 := b2][byteOffset + 3 := b3];
        PutFour(d, byteOffset, b0, b1, b2, b3);
      case Little =>
        data[byteOffset + 0] := b3;
        data[byteOffset + 1] := b2;
        data[byteOffset + 2] := b1;
        data[byteOffset + 3] := b0;
        assert data[..] == d[byteOffset := b3][byteOffset + 1 := b2][byteOffset + 2 := b1][byteOffset + 3 := b0];
        PutFour(d, byteOffset, b3, b2, b1, b0);
        assert InOrder(e, Msb32(value)) == [b3, b2, b1, b0];
    }
  }

  /** Four single-byte stores at consecutive offsets write the window `Put` describes. */
  lemma PutFour(d: seq<U8>, off: nat, b0: U8, b1: U8, b2: U8, b3: U8)
    requires off + 4 <= |d|
    ensures d[off := b0][off + 1 := b1][off + 2 := b2][off + 3 := b3] == Put(d, off, [b0, b1, b2, b3])
  {
    var r := Put(d, off, [b0, b1, b2, b3]);
    assert r[off..off + 4] == [b0, b1, b2, b3];
    assert r[off] == b0 && r[off + 1] == b1 && r[off + 2] == b2 && r[off + 3] == b3;
  }

  /** AlxCanParser_GetUint32: the bytes of the result, in payload order, are
      the four payload bytes. */
  function GetUint32(d: seq<U8>, e: Endian, byteOffset: nat): (v: U32)
    requires |d| == PayloadLen && byteOffset <= 4
    ensures InOrder(e, Msb32(v)) == d[byteOffset..byteOffset + 4]
  {
    var b0, b1, b2, b3 := d[byteOffset + 0], d[byteOffset + 1], d[byteOffset + 2], d[byteOffset + 3];
    assert d[byteOffset..byteOffset + 4] == [b0, b1, b2, b3];
    match e
    case Big =>
      BigOrChain32(b0, b1, b2, b3);
      (b3 as U32) | ((b2 as U32) << 8) | ((b1 as U32) << 16) | ((b0 as U32) << 24)
    case Little =>
      LittleOrChain32(b0, b1, b2, b3);
      ((b3 as U32) << 24) | ((b2 as U32) << 16) | ((b1 as U32) << 8) | (b0 as U32)
  }

  /** The big-endian expression of GetUint32 has the payload bytes as its
      bytes, most significant first. */
  lemma BigOrChain32(b0: U8, b1: U8, b2: U8, b3: U8)
    ensures Msb32((b3 as U32) | ((b2 as U32) << 8) | ((b1 as U32) << 16) | ((b0 as U32) << 24))
      == [b0, b1, b2, b3]
  {
  }

  /** The little-endian expression of GetUint32 has the payload bytes as its
      bytes, least significant first. */
  lemma LittleOrChain32(b0: U8, b1: U8, b2: U8, b3: U8)
    ensures InOrder(Little, Msb32(((b3 as U32) << 24) | ((b2 as U32) << 16) | ((b1 as U32) << 8) | (b0 as U32)))
      == [b0, b1, b2, b3]
  {
    var v := ((b3 as U32) << 24) | ((b2 as U32) << 16) | ((b1 as U32) << 8) | (b0 as U32);
    assert Msb32(v) == [b3, b2, b1, b0];
  }

  lemma Uint32RoundTrip(d: seq<U8>, e: Endian, byteOffset: nat, v: U32)
    requires |d| == PayloadLen && byteOffset <= 4
    ensures GetUint32(Put(d, byteOffset, InOrder(e, Msb32(v))), e, byteOffset) == v
  {
    var r := GetUint32(Put(d, byteOffset, InOrder(e, Msb32(v))), e, byteOffset);
    InOrderInjective(e, Msb32(r), Msb32(v));
    Msb32RoundTrip(r, 0, 0, 0, 0);
    Msb32RoundTrip(v, 0, 0, 0, 0);
  }

  /** AlxCanParser_SetInt32: the value's bit pattern split with the
      arithmetic shift. */
  method SetInt32(data: array<U8>, e: Endian, byteOffset: nat, value: U32)
    requires data.Length == PayloadLen && byteOffset <= 4
    modifies data
    ensures data[..] == Put(old(data[..]), byteOffset, InOrder(e, Int32Msb(value)))
  {
    match e {
      case Big =>
        data[byteOffset + 0] := SignedByte32(value, 24);
        data[byteOffset + 1] := SignedByte32(value, 16);
        data[byteOffset + 2] := SignedByte32(value, 8);
        data[byteOffset + 3] := SignedByte32(value, 0);
      case Little =>
        data[byteOffset + 0] := SignedByte32(value, 0);
        data[byteOffset + 1] := SignedByte32(value, 8);
        data[byteOffset + 2] := SignedByte32(value, 16);
        data[byteOffset + 3] := SignedByte32(value, 24);
    }
    assert data[..] == Put(old(data[..]), byteOffset, InOrder(e, Int32Msb(value)));
  }

  /** AlxCanParser_GetInt32: the four payload bytes assembled as in
      GetUint32 and read as an int32_t; split as SetInt32 splits it, it gives
      back the payload bytes. */
  function GetInt32(d: seq<U8>, e: Endian, byteOffset: nat): (v: U32)
    requires |d| == PayloadLen && byteOffset <= 4
    ensures InOrder(e, Int32Msb(v)) == d[byteOffset..byteOffset + 4]
  {
    Int32MsbIsMsb32(GetUint32(d, e, byteOffset));
    GetUint32(d, e, byteOffset)
  }

  lemma Int32SetGet(d: seq<U8>, e: Endian, byteOffset: nat, v: U32)
    requires |d| == PayloadLen && byteOffset <= 4
    ensures GetInt32(Put(d, byteOffset, InOrder(e, Int32Msb(v))), e, byteOffset) == v
  {
    Int32MsbIsMsb32(v);
    Uint32RoundTrip(d, e, byteOffset, v);
  }

  // ---------------------------------------------------------------------------
  // 64-bit values
  // ---------------------------------------------------------------------------

  /** The payload AlxCanParser_SetUint64 and AlxCanParser_SetInt64 leave
      behind, as written, for the value's bytes `bs` (most significant first):
      in the little-endian branch the bytes for shifts 24 to 56 all go to
      data[3], so data[3] ends up holding the top byte and data[4..8) keep
      their old values. */
  function Layout64AsWritten(d: seq<U8>, e: Endian, bs: seq<U8>): (r: seq<U8>)
    requires |d| == PayloadLen && |bs| == 8
    ensures |r| == PayloadLen
  {
    match e
    case Big => bs
    case Little => [bs[7], bs[6], bs[5], bs[0]] + d[4..]
  }

  /** The stores of the 64-bit setters as written, in the source's order, of
      the value's bytes `bs` (most significant first). */
  method WriteAsWritten64(data: array<U8>, e: Endian, bs: seq<U8>)
    requires data.Length == PayloadLen && |bs| == 8
    modifies data
    ensures data[..] == Layout64AsWritten(old(data[..]), e, bs)
  {
    match e {
      case Big =>
        data[0] := bs[0];
        data[1] := bs[1];
        data[2] := bs[2];
        data[3] := bs[3];
        data[4] := bs[4];
        data[5] := bs[5];
        data[6] := bs[6];
        data[7] := bs[7];
      case Little =>
        data[0] := bs[7];
        data[1] := bs[6];
        data[2] := bs[5];
        data[3] := bs[4];
        data[3] := bs[3];
        data[3] := bs[2];
        data[3] := bs[1];
        data[3] := bs[0];
    }
    assert data[..] == Layout64AsWritten(old(data[..]), e, bs);
  }

  /** Eight bytes given most significant first, written to the payload in
      endian order: the stores of the corrected 64-bit setters. */
  method WriteInOrder64(data: array<U8>, e: Endian, bs: seq<U8>)
    requires data.Length == PayloadLen && |bs| == 8
    modifies data
    ensures data[..] == InOrder(e, bs)
  {
    match e {
      case Big =>
        data[0] := bs[0];
        data[1] := bs[1];
        data[2] := bs[2];
        data[3] := bs[3];
        data[4] := bs[4];
        data[5] := bs[5];
        data[6] := bs[6];
        data[7] := bs[7];
      case Little =>
        data[0] := bs[7];
        data[1] := bs[6];
        data[2] := bs[5];
        data[3] := bs[4];
        data[4] := bs[3];
        data[5] := bs[2];
        data[6] := bs[1];
        data[7] := bs[0];
    }
    assert data[..] == InOrder(e, bs);
  }

  /** AlxCanParser_SetUint64, as written. The offset can only be 0. */
  method SetUint64(data: array<U8>, e: Endian, byteOffset: nat, value: U64)
    requires data.Length == PayloadLen && byteOffset == 0
    modifies data
    ensures data[..] == Layout64AsWritten(old(data[..]), e, Msb64(value))
  {
    WriteAsWritten64(data, e, Msb64(value));
  }

  /** AlxCanParser_SetUint64 with the little-endian branch corrected: payload
      byte k gets the byte at shift 8k. */
  method SetUint64Corrected(data: array<U8>, e: Endian, byteOffset: nat, value: U64)
    requires data.Length == PayloadLen && byteOffset == 0
    modifies data
    ensures data[..] == Put(old(data[..]), byteOffset, InOrder(e, Msb64(value)))
  {
    ghost var d := data[..];
    WriteInOrder64(data, e, Msb64(value));
    PutWhole(d, InOrder(e, Msb64(value)));
  }

  /** AlxCanParser_GetUint64: the bytes of the result, in payload order, are
      the eight payload bytes. */
  function GetUint64(d: seq<U8>, e: Endian, byteOffset: nat): (v: U64)
    requires |d| == PayloadLen && byteOffset == 0
    ensures InOrder(e, Msb64(v)) == d[byteOffset..byteOffset + 8]
  {
    var b0, b1, b2, b3 := d[byteOffset + 0], d[byteOffset + 1], d[byteOffset + 2], d[byteOffset + 3];
    var b4, b5, b6, b7 := d[byteOffset + 4], d[byteOffset + 5], d[byteOffset + 6], d[byteOffset + 7];
    assert d[byteOffset..byteOffset + 8] == [b0, b1, b2, b3, b4, b5, b6, b7];
    match e
    case Big =>
      BigOrChainBytes(b0, b1, b2, b3, b4, b5, b6, b7);
      (b7 as U64) | ((b6 as U64) << 8) | ((b5 as U64) << 16) | ((b4 as U64) << 24) |
      ((b3 as U64) << 32) | ((b2 as U64) << 40) | ((b1 as U64) << 48) | ((b0 as U64) << 56)
    case Little =>
      LittleOrChainBytes(b0, b1, b2, b3, b4, b5, b6, b7);
      ((b7 as U64) << 56) | ((b6 as U64) << 48) | ((b5 as U64) << 40) | ((b4 as U64) << 32) |
      ((b3 as U64) << 24) | ((b2 as U64) << 16) | ((b1 as U64) << 8) | (b0 as U64)
  }

  /** The big-endian expression of GetUint64 has the payload bytes as its
      bytes, most significant first. */
  lemma BigOrChainBytes(b0: U8, b1: U8, b2: U8, b3: U8, b4: U8, b5: U8, b6: U8, b7: U8)
    ensures Msb64((b7 as U64) | ((b6 as U64) << 8) | ((b5 as U64) << 16) | ((b4 as U64) << 24) |
      ((b3 as U64) << 32) | ((b2 as U64) << 40) | ((b1 as U64) << 48) | ((b0 as U64) << 56))
      == [b0, b1, b2, b3, b4, b5, b6, b7]
  {
  }

  /** The little-endian expression of GetUint64 has the payload bytes as its
      bytes, least significant first. */
  lemma LittleOrChainBytes(b0: U8, b1: U8, b2: U8, b3: U8, b4: U8, b5: U8, b6: U8, b7: U8)
    ensures InOrder(Little, Msb64(((b7 as U64) << 56) | ((b6 as U64) << 48) | ((b5 as U64) << 40) | ((b4 as U64) << 32) |
      ((b3 as U64) << 24) | ((b2 as U64) << 16) | ((b1 as U64) << 8) | (b0 as U64)))
      == [b0, b1, b2, b3, b4, b5, b6, b7]
  {
    var v := ((b7 as U64) << 56) | ((b6 as U64) << 48) | ((b5 as U64) << 40) | ((b4 as U64) << 32) |
      ((b3 as U64) << 24) | ((b2 as U64) << 16) | ((b1 as U64) << 8) | (b0 as U64);
    assert Msb64(v) == [b7, b6, b5, b4, b3, b2, b1, b0];
  }

  /** With the corrected layout both endians round-trip. */
  lemma Uint64RoundTrip(d: seq<U8>, e: Endian, v: U64)
    requires |d| == PayloadLen
    ensures GetUint64(Put(d, 0, InOrder(e, Msb64(v))), e, 0) == v
  {
    var r := GetUint64(Put(d, 0, InOrder(e, Msb64(v))), e, 0);
    InOrderInjective(e, Msb64(r), Msb64(v));
    Msb64RoundTrip(r, Msb64(r));
    Msb64RoundTrip(v, Msb64(v));
  }

  /** The big-endian branch as written already is the corrected layout. */
  lemma SetUint64BigAsIntended(d: seq<U8>, v: U64)
    requires |d| == PayloadLen
    ensures Layout64AsWritten(d, Big, Msb64(v)) == Put(d, 0, InOrder(Big, Msb64(v)))
  {
  }

  /** The little-endian branch as written loses the four high bytes: on a
      zeroed payload, 0x0102030405060708 is stored as 08 07 06 01 00 00 00 00
      and reads back as 0x01060708. */
  lemma SetUint64LittleLosesHighBytes()
    ensures var r := Layout64AsWritten([0, 0, 0, 0, 0, 0, 0, 0], Little, Msb64(0x0102030405060708));
      r == [0x08, 0x07, 0x06, 0x01, 0, 0, 0, 0] &&
      GetUint64(r, Little, 0) == 0x01060708 != 0x0102030405060708
  {
    var r := Layout64AsWritten([0, 0, 0, 0, 0, 0, 0, 0], Little, Msb64(0x0102030405060708));
    assert r == [0x08, 0x07, 0x06, 0x01, 0, 0, 0, 0];
  }

  /** For every value, the little-endian branch as written stores the top
      byte at payload byte 3 and leaves bytes 4..8 as they were. */
  lemma SetUint64LittleKeepsUpperPayload(d: seq<U8>, v: U64)
    requires |d| == PayloadLen
    ensures Layout64AsWritten(d, Little, Msb64(v))[3] == Byte64(v, 56)
    ensures Layout64AsWritten(d, Little, Msb64(v))[4..] == d[4..]
  {
  }

  /** AlxCanParser_SetInt64, as written: the same little-endian slip as
      SetUint64. */
  method SetInt64(data: array<U8>, e: Endian, byteOffset: nat, value: U64)
    requires data.Length == PayloadLen && byteOffset == 0
    modifies data
    ensures data[..] == Layout64AsWritten(old(data[..]), e, Int64Msb(value))
  {
    WriteAsWritten64(data, e, Int64Msb(value));
  }

  /** AlxCanParser_SetInt64 with the little-endian branch corrected. */
  method SetInt64Corrected(data: array<U8>, e: Endian, byteOffset: nat, value: U64)
    requires data.Length == PayloadLen && byteOffset == 0
    modifies data
    ensures data[..] == Put(old(data[..]), byteOffset, InOrder(e, Int64Msb(value)))
  {
    ghost var d := data[..];
    WriteInOrder64(data, e, Int64Msb(value));
    PutWhole(d, InOrder(e, Int64Msb(value)));
  }

  /** AlxCanParser_GetInt64: the eight payload bytes assembled as in
      GetUint64 and read as an int64_t; split as the corrected SetInt64 splits
      it, it gives back the payload bytes. */
  function GetInt64(d: seq<U8>, e: Endian, byteOffset: nat): (v: U64)
    requires |d| == PayloadLen && byteOffset == 0
    ensures InOrder(e, Int64Msb(v)) == d[byteOffset..byteOffset + 8]
  {
    Int64MsbIsMsb64(GetUint64(d, e, byteOffset));
    GetUint64(d, e, byteOffset)
  }

  /** With the corrected layout both endians round-trip. */
  lemma Int64SetGet(d: seq<U8>, e: Endian, v: U64)
    requires |d| == PayloadLen
    ensures GetInt64(Put(d, 0, InOrder(e, Int64Msb(v))), e, 0) == v
  {
    Int64MsbIsMsb64(v);
    Uint64RoundTrip(d, e, v);
  }

  /** The big-endian branch of SetInt64 as written is the corrected layout. */
  lemma SetInt64BigAsIntended(d: seq<U8>, v: U64)
    requires |d| == PayloadLen
    ensures Layout64AsWritten(d, Big, Int64Msb(v)) == Put(d, 0, InOrder(Big, Int64Msb(v)))
  {
  }

  /** The little-endian branch of SetInt64 as written: on a zeroed payload,
      -2 (bit pattern 0xFFFFFFFFFFFFFFFE) is stored as FE FF FF FF 00 00 00 00
      and reads back as 0x00000000FFFFFFFE, which is 4294967294. */
  lemma SetInt64LittleLosesHighBytes()
    ensures var r := Layout64AsWritten([0, 0, 0, 0, 0, 0, 0, 0], Little, Int64Msb(0xFFFF_FFFF_FFFF_FFFE));
      r == [0xFE, 0xFF, 0xFF, 0xFF, 0, 0, 0, 0] &&
      GetInt64(r, Little, 0) == 0xFFFF_FFFE
  {
    Int64MsbIsMsb64(0xFFFF_FFFF_FFFF_FFFE);
    var r := Layout64AsWritten([0, 0, 0, 0, 0, 0, 0, 0], Little, Int64Msb(0xFFFF_FFFF_FFFF_FFFE));
    assert r == [0xFE, 0xFF, 0xFF, 0xFF, 0, 0, 0, 0];
  }

  // ---------------------------------------------------------------------------
  // Enum fields
  // ---------------------------------------------------------------------------

  /** The `n` lowest bits set. */
  function LowMask(n: U8): U8
    requires n < 8
  {
    (1 << n) - 1
  }

  /** The `n`-bit field starting at bit `off` of a byte. */
  function EnumField(b: U8, off: U8, n: U8): (v: U8)
    requires off < 8 && n < 8 && off + n <= 8
    ensures v < 1 << n
  {
    (b >> off) & LowMask(n)
  }

  /** Bit k of a field is bit off+k of the byte, for k below the width, and
      0 above it. */
  lemma EnumFieldBits(b: U8, off: U8, n: U8)
    requires off < 8 && n < 8 && off + n <= 8
    ensures forall k: U8 :: k < 8 ==> BitGet(EnumField(b, off, n), k) == (k < n && BitGet(b, off + k))
  {
  }

  lemma LowMaskBits(v: U8, n: U8)
    requires n < 8
    ensures forall k: U8 :: k < 8 ==> BitGet(v & LowMask(n), k) == (k < n && BitGet(v, k))
  {
    assert v & LowMask(n) == EnumField(v, 0, n);
    EnumFieldBits(v, 0, n);
  }

  /** The byte after the first `n` bits of `value` have been copied, one by
      one, to bits off, off+1, ... of `b`. */
  function EnumPut(b: U8, off: U8, n: U8, value: U8): U8
    requires off < 8 && n < 8 && off + n <= 8
    decreases n
  {
    if n == 0 then b else BitSet(EnumPut(b, off, n - 1, value), off + n - 1, BitGet(value, n - 1))
  }

  /** Bits inside the window [off, off+n) hold the low bits of `value`; bits
      outside it keep their old value. */
  lemma {:induction false} EnumPutBits(b: U8, off: U8, n: U8, value: U8)
    requires off < 8 && n < 8 && off + n <= 8
    ensures forall k: U8 :: k < 8 ==>
      BitGet(EnumPut(b, off, n, value), k) == if off <= k < off + n then BitGet(value, k - off) else BitGet(b, k)
    decreases n
  {
    if n > 0 {
      EnumPutBits(b, off, n - 1, value);
    }
  }

  /** AlxCanParser_SetEnum. The bit setter asserts that each position
      bitOffset+i lies in the byte, so the window ends at bit 8 at most. */
  method SetEnum(data: array<U8>, byteOffset: nat, bitOffset: U8, nOfBits: U8, value: U8)
    requires data.Length == PayloadLen && byteOffset <= 7 && bitOffset < 8 && nOfBits < 8
    requires bitOffset + nOfBits <= 8
    modifies data
    ensures data[..] == old(data[..])[byteOffset := EnumPut(old(data[byteOffset]), bitOffset, nOfBits, value)]
  {
    var i: U8 := 0;
    ghost var b := data[byteOffset];
    while i < nOfBits
      invariant i <= nOfBits
      invariant data[byteOffset] == EnumPut(b, bitOffset, i, value)
      invariant forall j :: 0 <= j < data.Length && j != byteOffset ==> data[j] == old(data[j])
      decreases nOfBits - i
    {
      data[byteOffset] := BitSet(data[byteOffset], bitOffset + i, BitGet(value, i));
      i := i + 1;
    }
    assert data[..] == old(data[..])[byteOffset := EnumPut(b, bitOffset, nOfBits, value)];
  }

  /** AlxCanParser_GetEnum: bit i of the result is bit bitOffset+i of the
      byte, for i below nOfBits; the other bits are 0. */
  method GetEnum(d: seq<U8>, byteOffset: nat, bitOffset: U8, nOfBits: U8) returns (value: U8)
    requires |d| == PayloadLen && byteOffset <= 7 && bitOffset < 8 && nOfBits < 8
    requires bitOffset + nOfBits <= 8
    ensures value == EnumField(d[byteOffset], bitOffset, nOfBits)
  {
    value := 0;
    var i: U8 := 0;
    while i < nOfBits
      invariant i <= nOfBits
      invariant value == EnumField(d[byteOffset], bitOffset, i)
      decreases nOfBits - i
    {
      value := BitSet(value, i, BitGet(d[byteOffset], bitOffset + i));
      i := i + 1;
    }
  }

  /** Reading a field back after writing it gives the value modulo 2^n. */
  lemma EnumRoundTrip(b: U8, off: U8, n: U8, value: U8)
    requires off < 8 && n < 8 && off + n <= 8
    ensures EnumField(EnumPut(b, off, n, value), off, n) == value & LowMask(n)
  {
    EnumPutBits(b, off, n, value);
    EnumFieldBits(EnumPut(b, off, n, value), off, n);
    LowMaskBits(value, n);
    BitsDetermineByte(EnumField(EnumPut(b, off, n, value), off, n), value & LowMask(n));
  }
}
