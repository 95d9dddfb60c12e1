/**
 * The MAX17263 fuel gauge: the byte order of its 16-bit register
 * transfers, the write-and-verify retry loop, the power-on-reset bit, the
 * Config2 handling around the serial-number reads, the serial string, and
 * the error counts of the model-data write and lock check.
 *
 * The I2C bus is a log of the transfers the driver makes. What each
 * transfer reports (its status and the two bytes it leaves in the receive
 * buffer) is given by the caller as a function of the transfer's number.
 */
module AlxMax17263 {
  import opened AlxCommon

  const STATUS_REG: nat := 0x00
  const MODELDATA0_START_REG: nat := 0x80
  const MODELDATA1_START_REG: nat := 0x90
  const CONFIG2_REG: nat := 0xBB
  /** MaxPeakPower, SusPeakPower, MPPCurrent, SPPCurrent, AtQResidual, AtTTE, AtAvSOC, AtAvCap: words sn[0] to sn[7]. */
  const SERIAL_REGS: seq<nat> := [0xD4, 0xD5, 0xD9, 0xDA, 0xDC, 0xDD, 0xDE, 0xDF]
  /** The model-data lock registers and the values that unlock them. */
  const MODEL_LOCK1_REG: nat := 0x62
  const MODEL_LOCK2_REG: nat := 0x63
  const MODEL_UNLOCK1: U16 := 0x0059
  const MODEL_UNLOCK2: U16 := 0x00C4

  /** What one I2C transfer reports: its status and the two bytes in the receive buffer after it. */
  datatype Reply = Reply(status: Status, b0: U8, b1: U8)

  /** A transfer: StartWriteStop of the register address followed by `data`, or a two-byte StartReadMemStop at `reg`. */
  datatype Xfer = Write(reg: nat, data: seq<U8>) | ReadMem(reg: nat)

  /** The bytes write_reg sends after the register address: low byte first. */
  function WriteData(v: U16): (d: seq<U8>)
    ensures |d| == 2 && d[0] as U16 == v & 0xFF && d[1] as U16 == v >> 8
  {
    [Lo(v), Hi(v)]
  }

  /** The word read_reg assembles: the second byte received is the high byte. */
  function Assemble(b0: U8, b1: U8): (v: U16)
    ensures Lo(v) == b0 && Hi(v) == b1
  {
    Word(b1, b0)
  }

  /** A register that returns its two bytes in the order they were written reads back the word written. */
  lemma WriteReadRoundTrip(v: U16)
    ensures Assemble(WriteData(v)[0], WriteData(v)[1]) == v
  {
    WordOfBytes(v);
  }

  /** The word read by transfer `n`. */
  function Readback(bus: nat -> Reply, n: nat): U16
  {
    Assemble(bus(n).b0, bus(n).b1)
  }

  /** The words read by `n` consecutive reads starting at transfer `t`. */
  function Readbacks(bus: nat -> Reply, t: nat, n: nat): (ws: seq<U16>)
    ensures |ws| == n
    ensures forall i :: 0 <= i < n ==> ws[i] == Readback(bus, t + i)
  {
    seq(n, i requires 0 <= i => Readback(bus, t + i))
  }

  // ---------------------------------------------------------------------
  // write_and_verify_reg
  // ---------------------------------------------------------------------

  /** Attempt `k` of a write-and-verify starting at transfer `t` reads back `v` (its read is transfer t + 2k + 1). */
  predicate MatchAt(t: nat, v: U16, bus: nat -> Reply, k: nat)
  {
    Readback(bus, t + 2 * k + 1) == v
  }

  /** How many attempts a write-and-verify makes from attempt `k` on: up to the first match, and no more than three in all. */
  function Attempts(t: nat, v: U16, bus: nat -> Reply, k: nat): (n: nat)
    requires k < 3
    ensures k < n <= 3
    decreases 3 - k
  {
    if MatchAt(t, v, bus, k) || k == 2 then k + 1 else Attempts(t, v, bus, k + 1)
  }

  /**
   * The attempts stop at the first readback that matches: every earlier
   * attempt mismatched, and the last one matched exactly when some attempt
   * among the three matches.
   */
  lemma {:induction false} AttemptsStopAtFirstMatch(t: nat, v: U16, bus: nat -> Reply, k: nat)
    requires k < 3
    ensures forall j :: k <= j < Attempts(t, v, bus, k) - 1 ==> !MatchAt(t, v, bus, j)
    ensures MatchAt(t, v, bus, Attempts(t, v, bus, k) - 1) <==> exists j :: k <= j < 3 && MatchAt(t, v, bus, j)
    decreases 3 - k
  {
    if !MatchAt(t, v, bus, k) && k < 2 {
      AttemptsStopAtFirstMatch(t, v, bus, k + 1);
    }
  }

  /** Attempts that mismatched do not change the count. */
  lemma {:induction false} AttemptsAfterMisses(t: nat, v: U16, bus: nat -> Reply, m: nat)
    requires m < 3
    requires forall j :: 0 <= j < m ==> !MatchAt(t, v, bus, j)
    ensures Attempts(t, v, bus, 0) == Attempts(t, v, bus, m)
  {
    if m > 0 {
      AttemptsAfterMisses(t, v, bus, m - 1);
    }
  }

  /** The transfers of `n` attempts of a write-and-verify of `v` to `reg`: a write, then a read, each time. */
  function VerifyXfers(reg: nat, v: U16, n: nat): (xs: seq<Xfer>)
    ensures |xs| == 2 * n
  {
    if n == 0 then [] else VerifyXfers(reg, v, n - 1) + [Write(reg, WriteData(v)), ReadMem(reg)]
  }

  /** Every write of a write-and-verify writes `v` to `reg`, and every read reads `reg`. */
  lemma {:induction false} VerifyXfersWrite(reg: nat, v: U16, n: nat)
    ensures forall x :: x in VerifyXfers(reg, v, n) ==> x.reg == reg && (x.Write? ==> x.data == WriteData(v))
  {
    if n > 0 {
      VerifyXfersWrite(reg, v, n - 1);
    }
  }

  // ---------------------------------------------------------------------
  // Register-value helpers
  // ---------------------------------------------------------------------

  /** Status with the POR bit (bit 1) cleared, every other bit kept: `& 0xFFFD`. */
  function WithoutPor(s: U16): (r: U16)
    ensures r & 0x0002 == 0 && r & 0xFFFD == s & 0xFFFD
  {
    s & 0xFFFD
  }

  /** Config2 with AtRateEn (bit 13) and DPEn (bit 12) cleared, every other bit kept: `& 0xCFFF`. */
  function WithoutAtRateDp(c: U16): (r: U16)
    ensures r & 0x3000 == 0 && r & 0xCFFF == c & 0xCFFF
  {
    c & 0xCFFF
  }

  /** Config2 with AtRateEn and DPEn set, every other bit kept: `| 0x3000`. */
  function WithAtRateDp(c: U16): (r: U16)
    ensures r & 0x3000 == 0x3000 && r & 0xCFFF == c & 0xCFFF
  {
    c | 0x3000
  }

  /** Clearing then setting the two bits gives back Config2 with both bits set. */
  lemma AtRateDpRestored(c: U16)
    ensures WithAtRateDp(WithoutAtRateDp(c)) == WithAtRateDp(c)
  {
  }

  // ---------------------------------------------------------------------
  // get_serial_number
  // ---------------------------------------------------------------------

  /** The eight serial-number reads, sn[0] first. */
  function SerialReads(): (xs: seq<Xfer>)
    ensures |xs| == 8 && forall i :: 0 <= i < 8 ==> xs[i] == ReadMem(SERIAL_REGS[i])
  {
    [ReadMem(0xD4), ReadMem(0xD5), ReadMem(0xD9), ReadMem(0xDA), ReadMem(0xDC), ReadMem(0xDD), ReadMem(0xDE), ReadMem(0xDF)]
  }

  /** Config2 as written before the serial reads, when the read at transfer `t` returned its value. */
  function Config2Off(bus: nat -> Reply, t: nat): U16
  {
    WithoutAtRateDp(Readback(bus, t))
  }

  /** The number of the first serial read: after the Config2 read and the first write-and-verify. */
  function FirstSerialRead(bus: nat -> Reply, t: nat): nat
  {
    t + 1 + 2 * Attempts(t + 1, Config2Off(bus, t), bus, 0)
  }

  /** What a successful get_serial_number sends before the serial reads: the Config2 read and write-and-verify. */
  function SerialPrologue(bus: nat -> Reply, t: nat): seq<Xfer>
  {
    [ReadMem(CONFIG2_REG)] + VerifyXfers(CONFIG2_REG, Config2Off(bus, t), Attempts(t + 1, Config2Off(bus, t), bus, 0))
  }

  /** What a successful get_serial_number sends after the serial reads: Config2 written back with both bits set. */
  function SerialEpilogue(bus: nat -> Reply, t: nat): seq<Xfer>
  {
    var on := WithAtRateDp(Config2Off(bus, t));
    VerifyXfers(CONFIG2_REG, on, Attempts(FirstSerialRead(bus, t) + 8, on, bus, 0))
  }

  /**
   * Around the serial reads, Config2 is the only register written; before
   * them it is written with AtRateEn and DPEn clear, after them with both
   * set, and its other bits are those read at the start.
   */
  lemma SerialReadsBracketed(bus: nat -> Reply, t: nat)
    ensures forall x :: x in SerialPrologue(bus, t) ==> x.reg == CONFIG2_REG
    ensures forall x :: x in SerialEpilogue(bus, t) ==> x.reg == CONFIG2_REG
    ensures forall x :: x in SerialPrologue(bus, t) && x.Write? ==> x.data == WriteData(Config2Off(bus, t))
    ensures forall x :: x in SerialEpilogue(bus, t) && x.Write? ==> x.data == WriteData(WithAtRateDp(Config2Off(bus, t)))
    ensures var c, off := Readback(bus, t), Config2Off(bus, t);
            off & 0x3000 == 0 && WithAtRateDp(off) & 0x3000 == 0x3000
            && off & 0xCFFF == c & 0xCFFF && WithAtRateDp(off) & 0xCFFF == c & 0xCFFF
  {
    var off := Config2Off(bus, t);
    var on := WithAtRateDp(off);
    VerifyXfersWrite(CONFIG2_REG, off, Attempts(t + 1, off, bus, 0));
    VerifyXfersWrite(CONFIG2_REG, on, Attempts(FirstSerialRead(bus, t) + 8, on, bus, 0));
  }

  /** A lower-case hexadecimal digit for 0 to 15. */
  function HexDigit(d: int): (c: char)
    requires 0 <= d < 16
    ensures '0' <= c <= '9' || 'a' <= c <= 'f'
  {
    if d < 10 then (48 + d) as char else (97 + d - 10) as char
  }

  /** The value of a lower-case hexadecimal digit. */
  function HexValue(c: char): (d: int)
    requires '0' <= c <= '9' || 'a' <= c <= 'f'
    ensures 0 <= d < 16
  {
    if c <= '9' then c as int - 48 else c as int - 97 + 10
  }

  /** "%04x": four lower-case hexadecimal digits, most significant first. */
  function Hex4(w: U16): (s: string)
    ensures |s| == 4 && forall i :: 0 <= i < 4 ==> '0' <= s[i] <= '9' || 'a' <= s[i] <= 'f'
  {
    HexOf(w as int)
  }

  function HexOf(n: int): (s: string)
    requires 0 <= n < 0x10000
    ensures |s| == 4 && forall i :: 0 <= i < 4 ==> '0' <= s[i] <= '9' || 'a' <= s[i] <= 'f'
  {
    [HexDigit(n / 4096), HexDigit(n / 256 % 16), HexDigit(n / 16 % 16), HexDigit(n % 16)]
  }

  /** The value of four hexadecimal digits. */
  function ParseHex4(s: string): int
    requires |s| == 4 && forall i :: 0 <= i < 4 ==> '0' <= s[i] <= '9' || 'a' <= s[i] <= 'f'
  {
    4096 * HexValue(s[0]) + 256 * HexValue(s[1]) + 16 * HexValue(s[2]) + HexValue(s[3])
  }

  lemma Hex4RoundTrip(w: U16)
    ensures ParseHex4(Hex4(w)) == w as int
  {
    HexOfRoundTrip(w as int);
  }

  lemma HexOfRoundTrip(n: int)
    requires 0 <= n < 0x10000
    ensures ParseHex4(HexOf(n)) == n
  {
    HexValueOfDigit(n / 4096);
    HexValueOfDigit(n / 256 % 16);
    HexValueOfDigit(n / 16 % 16);
    HexValueOfDigit(n % 16);
    DigitsOf(n);
  }

  lemma HexValueOfDigit(d: int)
    requires 0 <= d < 16
    ensures HexValue(HexDigit(d)) == d
  {
  }

  /** A number below 0x10000 is the sum of its four base-16 digits. */
  lemma DigitsOf(n: int)
    requires 0 <= n < 0x10000
    ensures 0 <= n / 4096 < 16
    ensures 4096 * (n / 4096) + 256 * (n / 256 % 16) + 16 * (n / 16 % 16) + n % 16 == n
  {
    var q := n / 16;
    assert n == 16 * q + n % 16;
    var q2 := q / 16;
    assert q == 16 * q2 + q % 16;
    assert n / 256 == q2;
    var q3 := q2 / 16;
    assert q2 == 16 * q3 + q2 % 16;
    assert n / 4096 == q3;
  }

  /** The serial string: "%04x" of sn[n-1] down to sn[0]. */
  function SerialString(sn: seq<U16>, n: nat): (s: string)
    requires n <= |sn|
    ensures |s| == 4 * n
  {
    if n == 0 then [] else Hex4(sn[n - 1]) + SerialString(sn, n - 1)
  }

  /** The four digits of word sn[k] are at 4(n-1-k) in the serial string. */
  lemma {:induction false} SerialStringWord(sn: seq<U16>, n: nat, k: nat)
    requires n <= |sn| && k < n
    ensures SerialString(sn, n)[4 * (n - 1 - k)..4 * (n - k)] == Hex4(sn[k])
  {
    var h, rest := Hex4(sn[n - 1]), SerialString(sn, n - 1);
    if k < n - 1 {
      SerialStringWord(sn, n - 1, k);
      assert (h + rest)[4 * (n - 1 - k)..4 * (n - k)] == rest[4 * (n - 2 - k)..4 * (n - 1 - k)];
    } else {
      assert (h + rest)[0..4] == h;
    }
  }

  /** The serial string Init stores is 32 digits, and each word of the serial number can be read back from its place. */
  lemma SerialStringDecodes(sn: seq<U16>)
    requires |sn| == 8
    ensures |SerialString(sn, 8)| == 32
    ensures forall k :: 0 <= k < 8 ==> SerialString(sn, 8)[28 - 4 * k..32 - 4 * k] == Hex4(sn[k])
  {
    forall k | 0 <= k < 8
      ensures SerialString(sn, 8)[28 - 4 * k..32 - 4 * k] == Hex4(sn[k])
    {
      SerialStringWord(sn, 8, k);
    }
  }

  // ---------------------------------------------------------------------
  // Model data
  // ---------------------------------------------------------------------

  /** The writes of `d` to consecutive registers from `start`. */
  function WriteRun(start: nat, d: seq<U16>): (xs: seq<Xfer>)
    ensures |xs| == |d|
  {
    if d == [] then [] else WriteRun(start, d[..|d| - 1]) + [Write(start + |d| - 1, WriteData(d[|d| - 1]))]
  }

  /** The reads of `n` consecutive registers from `start`. */
  function ReadRun(start: nat, n: nat): (xs: seq<Xfer>)
    ensures |xs| == n
  {
    if n == 0 then [] else ReadRun(start, n - 1) + [ReadMem(start + n - 1)]
  }

  /** The number of positions where `a` and `b` agree. */
  function Matches(a: seq<U16>, b: seq<U16>): nat
    requires |a| == |b|
  {
    if a == [] then 0 else Matches(a[..|a| - 1], b[..|b| - 1]) + (if a[|a| - 1] == b[|b| - 1] then 1 else 0)
  }

  /** At most every position agrees, and all do exactly when the sequences are equal. */
  lemma {:induction false} MatchesAll(a: seq<U16>, b: seq<U16>)
    requires |a| == |b|
    ensures Matches(a, b) <= |a|
    ensures Matches(a, b) == |a| <==> a == b
  {
    if a != [] {
      var n := |a| - 1;
      MatchesAll(a[..n], b[..n]);
      if a[..n] == b[..n] && a[n] == b[n] {
        assert a == a[..n] + [a[n]] && b == b[..n] + [b[n]];
      }
    }
  }

  /** Sixteen zero words: what a locked model-data block reads back. */
  const ZEROS: seq<U16> := seq(16, _ => 0)

  /** The transfers of write_model_data: 32 writes, then 32 reads back. */
  function ModelDataXfers(data0: seq<U16>, data1: seq<U16>): seq<Xfer>
  {
    WriteRun(MODELDATA0_START_REG, data0) + WriteRun(MODELDATA1_START_REG, data1)
    + ReadRun(MODELDATA0_START_REG, 16) + ReadRun(MODELDATA1_START_REG, 16)
  }

  /** write_model_data's result is the number of words not read back as written: 0 exactly when all 32 match. */
  lemma ModelDataErrors(data0: seq<U16>, data1: seq<U16>, rb0: seq<U16>, rb1: seq<U16>)
    requires |data0| == |data1| == |rb0| == |rb1| == 16
    ensures 0 <= 32 - Matches(rb0, data0) - Matches(rb1, data1) <= 32
    ensures 32 - Matches(rb0, data0) - Matches(rb1, data1) == 0 <==> rb0 == data0 && rb1 == data1
  {
    MatchesAll(rb0, data0);
    MatchesAll(rb1, data1);
  }

  /** verify_model_data_locked's result is the number of nonzero words read: 0 exactly when the 32 words are zero. */
  lemma LockedDataErrors(rb0: seq<U16>, rb1: seq<U16>)
    requires |rb0| == |rb1| == 16
    ensures 0 <= 32 - Matches(rb0, ZEROS) - Matches(rb1, ZEROS) <= 32
    ensures 32 - Matches(rb0, ZEROS) - Matches(rb1, ZEROS) == 0 <==> rb0 == ZEROS && rb1 == ZEROS
  {
    MatchesAll(rb0, ZEROS);
    MatchesAll(rb1, ZEROS);
  }

  lemma MatchesStep(a: seq<U16>, b: seq<U16>, i: nat)
    requires |a| == |b| && i < |a|
    ensures Matches(a[..i + 1], b[..i + 1]) == Matches(a[..i], b[..i]) + (if a[i] == b[i] then 1 else 0)
  {
    assert a[..i + 1][..i] == a[..i] && b[..i + 1][..i] == b[..i];
  }

  lemma WriteRunStep(start: nat, d: seq<U16>, i: nat)
    requires i < |d|
    ensures WriteRun(start, d[..i + 1]) == WriteRun(start, d[..i]) + [Write(start + i, WriteData(d[i]))]
  {
    assert d[..i + 1][..i] == d[..i];
  }

  /** Only the copies of the eight serial registers differ between `r0` and `r`. */
  ghost predicate OnlySerialChanged(r0: seq<U16>, r: seq<U16>)
  {
    |r0| == |r| == 256 && forall a :: 0 <= a < 256 && a !in SERIAL_REGS ==> r[a] == r0[a]
  }

  /** After the first `k` serial reads from log `l0`: the reads made, in order, and the words they stored. */
  ghost predicate SerialRead(l0: seq<Xfer>, r0: seq<U16>, l: seq<Xfer>, r: seq<U16>, bus: nat -> Reply, k: nat)
    requires k <= 8
  {
    OnlySerialChanged(r0, r)
    && l == l0 + SerialReads()[..k]
    && forall j :: 0 <= j < k ==> r[SERIAL_REGS[j]] == Readback(bus, |l0| + j)
  }

  lemma SerialReadStart(l0: seq<Xfer>, r0: seq<U16>, bus: nat -> Reply)
    requires |r0| == 256
    ensures SerialRead(l0, r0, l0, r0, bus, 0)
  {
    assert l0 + SerialReads()[..0] == l0;
  }

  /** The serial number as get_serial_number copies it out of the register copy: sn[i] from the i-th serial register. */
  function SerialWordsOf(r: seq<U16>): (sn: seq<U16>)
    requires |r| == 256
    ensures |sn| == 8 && forall i :: 0 <= i < 8 ==> sn[i] == r[SERIAL_REGS[i]]
  {
    seq(8, i requires 0 <= i < 8 => r[SERIAL_REGS[i]])
  }

  /** After the eight reads, the copies of the serial registers hold the eight words read, in order. */
  lemma SerialWords(l0: seq<Xfer>, r0: seq<U16>, l: seq<Xfer>, r: seq<U16>, bus: nat -> Reply)
    requires SerialRead(l0, r0, l, r, bus, 8)
    ensures SerialWordsOf(r) == Readbacks(bus, |l0|, 8)
    ensures l == l0 + SerialReads()
  {
    assert SerialReads()[..8] == SerialReads();
  }

  /** One more serial read keeps both descriptions. */
  lemma SerialReadStep(l0: seq<Xfer>, l: seq<Xfer>, l': seq<Xfer>, r0: seq<U16>, r: seq<U16>, r': seq<U16>,
                       bus: nat -> Reply, k: nat)
    requires k < 8 && SerialRead(l0, r0, l, r, bus, k)
    requires l' == l + [ReadMem(SERIAL_REGS[k])]
    requires r' == r[SERIAL_REGS[k] := Readback(bus, |l|)]
    ensures SerialRead(l0, r0, l', r', bus, k + 1)
  {
    assert SerialReads()[..k + 1] == SerialReads()[..k] + [ReadMem(SERIAL_REGS[k])];
    forall j | 0 <= j < k
      ensures r'[SERIAL_REGS[j]] == r[SERIAL_REGS[j]]
    {
      assert SERIAL_REGS[j] != SERIAL_REGS[k];
    }
  }

  // ---------------------------------------------------------------------
  // The driver
  // ---------------------------------------------------------------------

  class Max17263 {
    /** The driver's copy of the gauge's 256 registers (max1726x_regs). */
    var regs: seq<U16>
    /** The I2C transfers made so far, in order. */
    var log: seq<Xfer>

    predicate Valid()
      reads this
    {
      |regs| == 256
    }

    constructor ()
      ensures Valid() && log == []
      ensures forall a :: 0 <= a < 256 ==> regs[a] == 0
    {
      regs := seq(256, _ => 0);
      log := [];
    }

    /** write_reg: one write of the register address, the low byte and the high byte. */
    method WriteReg(reg: nat, v: U16, bus: nat -> Reply) returns (status: Status)
      modifies this`log
      ensures log == old(log) + [Write(reg, WriteData(v))]
      ensures status == bus(|old(log)|).status
    {
      status := bus(|log|).status;
      log := log + [Write(reg, WriteData(v))];
    }

    /** read_reg: one two-byte read; the word is assembled whatever the status. */
    method ReadReg(reg: nat, bus: nat -> Reply) returns (status: Status, v: U16)
      modifies this`log
      ensures log == old(log) + [ReadMem(reg)]
      ensures status == bus(|old(log)|).status && v == Readback(bus, |old(log)|)
    {
      var t := |log|;
      status, v := bus(t).status, Assemble(bus(t).b0, bus(t).b1);
      log := log + [ReadMem(reg)];
    }

    /** read_reg into the register copy. */
    method ReadInto(reg: nat, bus: nat -> Reply) returns (status: Status)
      requires Valid() && reg < 256
      modifies this
      ensures log == old(log) + [ReadMem(reg)]
      ensures regs == old(regs)[reg := Readback(bus, |old(log)|)]
      ensures status == bus(|old(log)|).status
    {
      var v;
      status, v := ReadReg(reg, bus);
      regs := regs[reg := v];
    }

    /**
     * write_and_verify_reg: write, read back, and stop with Ok at the first
     * readback equal to `v`; Err after three mismatches. The statuses of the
     * transfers themselves are not looked at.
     */
    method WriteAndVerifyReg(reg: nat, v: U16, bus: nat -> Reply) returns (status: Status)
      modifies this`log
      ensures log == old(log) + VerifyXfers(reg, v, Attempts(|old(log)|, v, bus, 0))
      ensures status == Ok <==> MatchAt(|old(log)|, v, bus, Attempts(|old(log)|, v, bus, 0) - 1)
      ensures status == Ok || status == Err
    {
      ghost var t := |log|;
      var retry := 3;
      while retry > 0
        invariant 0 <= retry <= 3
        invariant log == old(log) + VerifyXfers(reg, v, 3 - retry)
        invariant forall j :: 0 <= j < 3 - retry ==> !MatchAt(t, v, bus, j)
      {
        var ws := WriteReg(reg, v, bus);
        var rs, readback := ReadReg(reg, bus);
        if readback == v {
          AttemptsAfterMisses(t, v, bus, 3 - retry);
          return Ok;
        }
        retry := retry - 1;
      }
      AttemptsAfterMisses(t, v, bus, 2);
      return Err;
    }

    /** check_por: read Status into the copy; 1 when its POR bit is set, else 0. The read's status is not looked at. */
    method CheckPor(bus: nat -> Reply) returns (por: U8)
      requires Valid()
      modifies this
      ensures log == old(log) + [ReadMem(STATUS_REG)]
      ensures Valid()
      ensures regs[STATUS_REG] == Readback(bus, |old(log)|)
      ensures forall a :: 0 < a < 256 ==> regs[a] == old(regs[a])
      ensures por == 0 || por == 1
      ensures por == 1 <==> regs[STATUS_REG] & 0x0002 != 0
    {
      var s := ReadInto(STATUS_REG, bus);
      por := if regs[STATUS_REG] & 0x0002 == 0 then 0 else 1;
    }

    /** clear_por: read Status, clear its POR bit in the copy, and write-and-verify it. */
    method ClearPor(bus: nat -> Reply) returns (status: Status)
      requires Valid()
      modifies this
      ensures Valid()
      ensures var t := |old(log)|; var cleared := WithoutPor(Readback(bus, t));
              regs[STATUS_REG] == cleared
              && log == old(log) + [ReadMem(STATUS_REG)] + VerifyXfers(STATUS_REG, cleared, Attempts(t + 1, cleared, bus, 0))
              && (status == Ok <==> MatchAt(t + 1, cleared, bus, Attempts(t + 1, cleared, bus, 0) - 1))
      ensures forall a :: 0 < a < 256 ==> regs[a] == old(regs[a])
    {
      var s := ReadInto(STATUS_REG, bus);
      regs := regs[STATUS_REG := WithoutPor(regs[STATUS_REG])];
      status := WriteAndVerifyReg(STATUS_REG, regs[STATUS_REG], bus);
    }

    /** Serial read number `k` (0 to 7) into the copy, continuing the reads begun at log `l0`. */
    method ReadSerialReg(ghost l0: seq<Xfer>, ghost r0: seq<U16>, k: nat, bus: nat -> Reply) returns (status: Status)
      requires k < 8 && SerialRead(l0, r0, log, regs, bus, k)
      modifies this
      ensures SerialRead(l0, r0, log, regs, bus, k + 1)
      ensures status == bus(|l0| + k).status
    {
      ghost var l, r := log, regs;
      status := ReadInto(SERIAL_REGS[k], bus);
      SerialReadStep(l0, l, log, r0, r, regs, bus, k);
    }

    /** The eight serial-number reads into the copy, stopping at the first that fails. */
    method ReadSerialRegs(bus: nat -> Reply) returns (status: Status, sn: seq<U16>)
      requires Valid()
      modifies this
      ensures Valid()
      ensures status == Ok ==> log == old(log) + SerialReads() && sn == Readbacks(bus, |old(log)|, 8)
      ensures status == Ok ==> sn == SerialWordsOf(regs)
      ensures OnlySerialChanged(old(regs), regs)
    {
      sn := [];
      ghost var l0, r0 := log, regs;
      SerialReadStart(l0, r0, bus);
      status := ReadSerialReg(l0, r0, 0, bus);
      if status != Ok { return; }
      status := ReadSerialReg(l0, r0, 1, bus);
      if status != Ok { return; }
      status := ReadSerialReg(l0, r0, 2, bus);
      if status != Ok { return; }
      status := ReadSerialReg(l0, r0, 3, bus);
      if status != Ok { return; }
      status := ReadSerialReg(l0, r0, 4, bus);
      if status != Ok { return; }
      status := ReadSerialReg(l0, r0, 5, bus);
      if status != Ok { return; }
      status := ReadSerialReg(l0, r0, 6, bus);
      if status != Ok { return; }
      status := ReadSerialReg(l0, r0, 7, bus);
      if status != Ok { return; }
      sn := SerialWordsOf(regs);
      SerialWords(l0, r0, log, regs, bus);
    }

    /** The start of get_serial_number: read Config2 into the copy, clear AtRateEn and DPEn, and write-and-verify it. */
    method DisableAtRateDp(bus: nat -> Reply) returns (status: Status)
      requires Valid()
      modifies this
      ensures Valid() && regs == old(regs)[CONFIG2_REG := regs[CONFIG2_REG]]
      ensures status == Ok ==> log == old(log) + SerialPrologue(bus, |old(log)|) && regs[CONFIG2_REG] == Config2Off(bus, |old(log)|)
    {
      ghost var l0 := log;
      status := ReadInto(CONFIG2_REG, bus);
      if status != Ok { return; }
      regs := regs[CONFIG2_REG := WithoutAtRateDp(regs[CONFIG2_REG])];
      var v := regs[CONFIG2_REG];
      status := WriteAndVerifyReg(CONFIG2_REG, v, bus);
      ConcatAssoc(l0, [ReadMem(CONFIG2_REG)], VerifyXfers(CONFIG2_REG, v, Attempts(|l0| + 1, v, bus, 0)));
    }

    /** The end of get_serial_number: set AtRateEn and DPEn in the copy of Config2 and write-and-verify it. */
    method EnableAtRateDp(bus: nat -> Reply) returns (status: Status)
      requires Valid()
      modifies this
      ensures Valid() && regs == old(regs)[CONFIG2_REG := WithAtRateDp(old(regs)[CONFIG2_REG])]
      ensures log == old(log) + VerifyXfers(CONFIG2_REG, regs[CONFIG2_REG], Attempts(|old(log)|, regs[CONFIG2_REG], bus, 0))
      ensures status == Ok <==> MatchAt(|old(log)|, regs[CONFIG2_REG], bus, Attempts(|old(log)|, regs[CONFIG2_REG], bus, 0) - 1)
    {
      regs := regs[CONFIG2_REG := WithAtRateDp(regs[CONFIG2_REG])];
      status := WriteAndVerifyReg(CONFIG2_REG, regs[CONFIG2_REG], bus);
    }

    /**
     * get_serial_number: read Config2, clear AtRateEn and DPEn and
     * write-and-verify it, read the eight serial words, then set the two
     * bits and write-and-verify it again. Any failure returns at once.
     */
    method GetSerialNumber(bus: nat -> Reply) returns (status: Status, sn: seq<U16>)
      requires Valid()
      modifies this
      ensures Valid()
      ensures status == Ok ==>
                var t := |old(log)|;
                log == old(log) + SerialPrologue(bus, t) + SerialReads() + SerialEpilogue(bus, t)
                && sn == Readbacks(bus, FirstSerialRead(bus, t), 8)
                && regs[CONFIG2_REG] == WithAtRateDp(Config2Off(bus, t))
      ensures status == Ok ==> forall i :: 0 <= i < 8 ==> regs[SERIAL_REGS[i]] == sn[i]
      ensures SerialFrame(old(regs), regs)
    {
      sn := [];
      ghost var r0 := regs;
      status := DisableAtRateDp(bus);
      if status != Ok { return; }
      ghost var l1, r1 := log, regs;
      status, sn := ReadSerialRegs(bus);
      SerialFrameStep(r0, r1, regs);
      if status != Ok { return; }
      ghost var l2 := log;
      status := EnableAtRateDp(bus);
      if status != Ok { return; }
      SerialSteps(old(log), l1, l2, log, bus);
    }

    /** unlock_model_data: 0x0059 to register 0x62 and 0x00C4 to 0x63. */
    method UnlockModelData(bus: nat -> Reply)
      modifies this`log
      ensures log == old(log) + [Write(MODEL_LOCK1_REG, WriteData(MODEL_UNLOCK1)), Write(MODEL_LOCK2_REG, WriteData(MODEL_UNLOCK2))]
    {
      var s1 := WriteReg(MODEL_LOCK1_REG, MODEL_UNLOCK1, bus);
      var s2 := WriteReg(MODEL_LOCK2_REG, MODEL_UNLOCK2, bus);
    }

    /** lock_model_data: zero to registers 0x62 and 0x63. */
    method LockModelData(bus: nat -> Reply)
      modifies this`log
      ensures log == old(log) + [Write(MODEL_LOCK1_REG, WriteData(0)), Write(MODEL_LOCK2_REG, WriteData(0))]
    {
      var s1 := WriteReg(MODEL_LOCK1_REG, 0, bus);
      var s2 := WriteReg(MODEL_LOCK2_REG, 0, bus);
    }

    /** The writes of one 16-word model-data block, statuses not looked at. */
    method WriteBlock(start: nat, d: seq<U16>, bus: nat -> Reply)
      requires |d| == 16
      modifies this`log
      ensures log == old(log) + WriteRun(start, d)
    {
      var i := 0;
      while i < 16
        invariant 0 <= i <= 16
        invariant log == old(log) + WriteRun(start, d[..i])
      {
        var s := WriteReg(start + i, d[i], bus);
        WriteRunStep(start, d, i);
        i := i + 1;
      }
      assert d[..16] == d;
    }

    /** The reads of one 16-word model-data block, statuses not looked at. */
    method ReadBlock(start: nat, bus: nat -> Reply) returns (rb: seq<U16>)
      modifies this`log
      ensures log == old(log) + ReadRun(start, 16)
      ensures rb == Readbacks(bus, |old(log)|, 16)
    {
      rb := [];
      var i := 0;
      while i < 16
        invariant 0 <= i <= 16
        invariant log == old(log) + ReadRun(start, i)
        invariant rb == Readbacks(bus, |old(log)|, i)
      {
        var s, v := ReadReg(start + i, bus);
        rb := rb + [v];
        i := i + 1;
      }
    }

    /**
     * write_model_data: write both 16-word blocks, read them back, and
     * count down from 32 once per word read back as written.
     */
    method WriteModelData(data0: seq<U16>, data1: seq<U16>, bus: nat -> Reply) returns (errNum: nat)
      requires |data0| == 16 && |data1| == 16
      modifies this`log
      ensures log == old(log) + ModelDataXfers(data0, data1)
      ensures var t := |old(log)|;
              errNum == 32 - Matches(Readbacks(bus, t + 32, 16), data0) - Matches(Readbacks(bus, t + 48, 16), data1)
    {
      WriteBlock(MODELDATA0_START_REG, data0, bus);
      WriteBlock(MODELDATA1_START_REG, data1, bus);
      var rb0 := ReadBlock(MODELDATA0_START_REG, bus);
      var rb1 := ReadBlock(MODELDATA1_START_REG, bus);
      ModelDataSteps(old(log), data0, data1);
      errNum := CountDown(rb0, data0, rb1, data1);
    }

    /** verify_model_data_locked: read both blocks back and count down from 32 once per zero word. */
    method VerifyModelDataLocked(bus: nat -> Reply) returns (errNum: nat)
      modifies this`log
      ensures log == old(log) + ReadRun(MODELDATA0_START_REG, 16) + ReadRun(MODELDATA1_START_REG, 16)
      ensures var t := |old(log)|;
              errNum == 32 - Matches(Readbacks(bus, t, 16), ZEROS) - Matches(Readbacks(bus, t + 16, 16), ZEROS)
    {
      var rb0 := ReadBlock(MODELDATA0_START_REG, bus);
      var rb1 := ReadBlock(MODELDATA1_START_REG, bus);
      errNum := CountDown(rb0, ZEROS, rb1, ZEROS);
    }
  }

  /** The counting loop of both model-data functions: 32 less one per position where the readback equals the expected word. */
  method CountDown(rb0: seq<U16>, want0: seq<U16>, rb1: seq<U16>, want1: seq<U16>) returns (errNum: nat)
    requires |rb0| == |want0| == |rb1| == |want1| == 16
    ensures errNum == 32 - Matches(rb0, want0) - Matches(rb1, want1)
  {
    errNum := 32;
    var i := 0;
    while i < 16
      invariant 0 <= i <= 16
      invariant errNum == 32 - Matches(rb0[..i], want0[..i]) - Matches(rb1[..i], want1[..i])
    {
      MatchesAll(rb0[..i], want0[..i]);
      MatchesAll(rb1[..i], want1[..i]);
      MatchesStep(rb0, want0, i);
      MatchesStep(rb1, want1, i);
      if rb0[i] == want0[i] {
        errNum := errNum - 1;
      }
      if rb1[i] == want1[i] {
        errNum := errNum - 1;
      }
      i := i + 1;
    }
    assert rb0[..16] == rb0 && want0[..16] == want0 && rb1[..16] == rb1 && want1[..16] == want1;
  }

  /** The four runs of write_model_data, one after the other, are its transfers. */
  lemma ModelDataSteps(l: seq<Xfer>, data0: seq<U16>, data1: seq<U16>)
    ensures l + WriteRun(MODELDATA0_START_REG, data0) + WriteRun(MODELDATA1_START_REG, data1)
              + ReadRun(MODELDATA0_START_REG, 16) + ReadRun(MODELDATA1_START_REG, 16)
            == l + ModelDataXfers(data0, data1)
  {
    var w0, w1 := WriteRun(MODELDATA0_START_REG, data0), WriteRun(MODELDATA1_START_REG, data1);
    var r0, r1 := ReadRun(MODELDATA0_START_REG, 16), ReadRun(MODELDATA1_START_REG, 16);
    ConcatAssoc(l, w0, w1);
    ConcatAssoc(l, w0 + w1, r0);
    ConcatAssoc(l, w0 + w1 + r0, r1);
  }

  /** The three stages of a successful get_serial_number put together. */
  lemma SerialSteps(l0: seq<Xfer>, l1: seq<Xfer>, l2: seq<Xfer>, l3: seq<Xfer>, bus: nat -> Reply)
    requires l1 == l0 + SerialPrologue(bus, |l0|)
    requires l2 == l1 + SerialReads()
    requires var on := WithAtRateDp(Config2Off(bus, |l0|)); l3 == l2 + VerifyXfers(CONFIG2_REG, on, Attempts(|l2|, on, bus, 0))
    ensures l3 == l0 + SerialPrologue(bus, |l0|) + SerialReads() + SerialEpilogue(bus, |l0|)
    ensures |l1| == FirstSerialRead(bus, |l0|)
  {
  }

  /** Outside Config2 and the serial registers, the copy keeps its words. */
  ghost predicate SerialFrame(r0: seq<U16>, r: seq<U16>)
  {
    |r0| == |r| == 256 && forall a :: 0 <= a < 256 && a != CONFIG2_REG && a !in SERIAL_REGS ==> r[a] == r0[a]
  }

  lemma SerialFrameStep(r0: seq<U16>, r1: seq<U16>, r2: seq<U16>)
    requires |r0| == |r1| == 256 && r1 == r0[CONFIG2_REG := r1[CONFIG2_REG]] && OnlySerialChanged(r1, r2)
    ensures SerialFrame(r0, r2)
  {
  }

}
