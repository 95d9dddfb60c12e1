/**
 * The ADS8678 eight-channel 14-bit SAR ADC on SPI: register read and write
 * frames with the write echo check, writing all registers in order, the
 * decoding of the channel data frame a NO_OP command clocks out, and the
 * auto-scan of GetChVoltageAll_V with its per-channel checks.
 *
 * Every command is one SPI write-read: `spiStatus(n)` is the status of
 * transfer number `n` and `rx(n)(k)` the k-th byte it received.
 */
module AlxAds8678 {
  import opened AlxCommon

  // ---------------------------------------------------------------------
  // Registers
  // ---------------------------------------------------------------------

  /** The register addresses, in the driver's register-structure (and write) order. */
  const ADDRS: seq<U8> := [0x01, 0x02, 0x03, 0x05, 0x06, 0x07, 0x08, 0x09, 0x0A, 0x0B, 0x0C]
  const NUM_OF_REGS: nat := 11
  const NUM_OF_CH: nat := 8

  /** Positions in the register structure. */
  const AUTO_SCAN: nat := 0
  const POWER_DOWN: nat := 1
  const FEATURE: nat := 2
  const RANGE_CH0: nat := 3

  /** The range register of channel `ch` follows the feature register, one per channel from 0x05. */
  lemma RangeRegisterAddresses(ch: nat)
    requires ch < NUM_OF_CH
    ensures ADDRS[RANGE_CH0 + ch] as int == 0x05 + ch
  {
  }

  /** RegStruct_SetToDefault: AUTO_SEQ_EN 0xFF, every other register 0x00. */
  function Defaults(): (regs: seq<U8>)
    ensures |regs| == NUM_OF_REGS
    ensures regs[AUTO_SCAN] == 0xFF && forall i :: 1 <= i < NUM_OF_REGS ==> regs[i] == 0
  {
    [0xFF, 0x00, 0x00, 0x00, 0x00, 0x00, 0x00, 0x00, 0x00, 0x00, 0x00]
  }

  /** SDO: bits 2:0 of the feature-select register. */
  function Sdo(feature: U8): (r: U8)
    ensures r < 8
  {
    feature & 0x07
  }

  /** DEV: bits 7:6 of the feature-select register. */
  function Dev(feature: U8): (r: U8)
    ensures r < 4
  {
    (feature & 0xC0) >> 6
  }

  /** The full output format: conversion data, channel address, device address and input range. */
  const SDO_CONV_CHADDR_DEVADDR_INRANGE: U8 := 0x03

  /** Range_CHn: bits 3:0 of a channel range register. */
  function RangeCode(rangeReg: U8): (r: U8)
    ensures r < 16
  {
    rangeReg & 0x0F
  }

  /** IsChEnabled: bit `ch` of AUTO_SEQ_EN. */
  predicate IsChEnabled(autoScan: U8, ch: nat)
    requires ch < NUM_OF_CH
  {
    Bit(autoScan, ch)
  }

  /** With the default AUTO_SEQ_EN every channel is scanned. */
  lemma DefaultScansAll(ch: nat)
    requires ch < NUM_OF_CH
    ensures IsChEnabled(Defaults()[AUTO_SCAN], ch)
  {
  }

  /** The number of enabled channels below `ch`: the NO_OP transfers made before channel `ch` is read. */
  function EnabledBelow(autoScan: U8, ch: nat): (n: nat)
    requires ch <= NUM_OF_CH
    ensures n <= ch
  {
    if ch == 0 then 0 else EnabledBelow(autoScan, ch - 1) + (if IsChEnabled(autoScan, ch - 1) then 1 else 0)
  }

  // ---------------------------------------------------------------------
  // Frames
  // ---------------------------------------------------------------------

  /** Reg_Read: the address shifted left with LSB 0, then two dummy bytes; the value is the third byte received. */
  function ReadFrame(addr: U8): (tx: seq<U8>)
    ensures |tx| == 3 && tx[0] & 1 == 0 && tx[0] >> 1 == addr & 0x7F
  {
    [addr << 1, 0x00, 0x00]
  }

  /** Reg_Write: the address shifted left with LSB 1, the value, then a dummy byte. */
  function WriteFrame(addr: U8, val: U8): (tx: seq<U8>)
    ensures |tx| == 3 && tx[0] & 1 == 1 && tx[0] >> 1 == addr & 0x7F && tx[1] == val
  {
    [(addr << 1) | 0x01, val, 0x00]
  }

  /** A read frame is never a write frame, and each names its register. */
  lemma FramesDistinct(a: U8, b: U8, v: U8)
    ensures ReadFrame(a) != WriteFrame(b, v)
    ensures a < 0x80 && b < 0x80 ==> (WriteFrame(a, v)[0] == WriteFrame(b, v)[0] <==> a == b)
  {
    assert ReadFrame(a)[0] & 1 != WriteFrame(b, v)[0] & 1;
  }

  /** The AUTO_RST command: 0xA0 then three zero bytes. */
  const AUTO_RST_FRAME: seq<U8> := [0xA0, 0x00, 0x00, 0x00]

  /** The NO_OP command: six zero bytes, clocking out one channel's data frame. */
  const NO_OP_FRAME: seq<U8> := [0x00, 0x00, 0x00, 0x00, 0x00, 0x00]

  /** A register write succeeds only if the transfer does and the device echoes the value in the third byte. */
  function EchoStatus(s: Status, rxb: seq<U8>, val: U8): (r: Status)
    requires |rxb| == 3
    ensures r == Ok <==> s == Ok && rxb[2] == val
    ensures s != Ok ==> r == s
  {
    if s != Ok then s else if rxb[2] == val then Ok else Err
  }

  /** The bytes transfer `n` received in a buffer of `len` bytes. */
  function Received(rx: nat -> nat -> U8, n: nat, len: nat): (bs: seq<U8>)
    ensures |bs| == len
  {
    seq(len, (k: int) requires 0 <= k < len => rx(n)(k))
  }

  /** AlxAds8678_ChDataFrame. */
  datatype ChFrame = ChFrame(data: U16, chNum: U8, devAddr: U8, rangeLsb3: U8)

  /** The fields of a frame fit their widths: 14, 4, 2 and 3 bits. */
  predicate FrameFits(f: ChFrame)
  {
    f.data < 0x4000 && f.chNum < 16 && f.devAddr < 4 && f.rangeLsb3 < 8
  }

  /**
   * Cmd_Write_NoOp's decoding of the received bytes: the 16 bits of bytes 2
   * and 3 shifted right by 2, the channel address in the high nibble of
   * byte 4, the device address in its bits 3:2, and the range in its bits
   * 1:0 followed by bit 7 of byte 5.
   */
  function DecodeFrame(rxb: seq<U8>): (f: ChFrame)
    requires |rxb| == 6
    ensures FrameFits(f)
  {
    ChFrame(Word(rxb[2], rxb[3]) >> 2,
            (rxb[4] & 0xF0) >> 4,
            (rxb[4] & 0x0C) >> 2,
            ((rxb[4] & 0x03) << 1) | ((rxb[5] & 0x80) >> 7))
  }

  /** The frame as the device clocks it out after the 16 command bits (the don't-care bits are zero). */
  function EncodeFrame(f: ChFrame): (rxb: seq<U8>)
    requires FrameFits(f)
    ensures |rxb| == 6
  {
    [0x00, 0x00,
     Hi(f.data << 2), Lo(f.data << 2),
     (f.chNum << 4) | (f.devAddr << 2) | (f.rangeLsb3 >> 1),
     (f.rangeLsb3 & 0x01) << 7]
  }

  /** The decoding recovers every field of the frame the device sent. */
  lemma FrameRoundTrip(f: ChFrame)
    requires FrameFits(f)
    ensures DecodeFrame(EncodeFrame(f)) == f
  {
    var rxb := EncodeFrame(f);
    DataRoundTrip(f.data);
    AddressByteRoundTrip(f.chNum, f.devAddr, f.rangeLsb3);
  }

  lemma DataRoundTrip(d: U16)
    requires d < 0x4000
    ensures Word(Hi(d << 2), Lo(d << 2)) >> 2 == d
  {
    WordOfBytes(d << 2);
  }

  lemma AddressByteRoundTrip(ch: U8, dev: U8, range: U8)
    requires ch < 16 && dev < 4 && range < 8
    ensures var b4 := (ch << 4) | (dev << 2) | (range >> 1);
            var b5 := (range & 0x01) << 7;
            (b4 & 0xF0) >> 4 == ch && (b4 & 0x0C) >> 2 == dev
            && ((b4 & 0x03) << 1) | ((b5 & 0x80) >> 7) == range
  {
  }

  // ---------------------------------------------------------------------
  // Voltage conversion
  // ---------------------------------------------------------------------

  /** Volts per bit and the offset of a range. */
  datatype Scale = Scale(perBit: real, offset: real)

  /**
   * RegEnumChVoltageRangeToChVoltageRangeParam for the nine range codes. Any
   * other code reaches the driver's failing assertion, which sets nothing:
   * the zero-initialised parameters stay, so the voltage is 0.
   */
  function RangeScale(code: U8): Scale
  {
    if code == 0x00 then Scale(0.00125, -10.24)
    else if code == 0x01 then Scale(0.000625, -5.12)
    else if code == 0x02 then Scale(0.0003125, -2.56)
    else if code == 0x03 then Scale(0.00015625, -1.28)
    else if code == 0x0B then Scale(0.000078125, -0.64)
    else if code == 0x05 then Scale(0.000625, 0.0)
    else if code == 0x06 then Scale(0.0003125, 0.0)
    else if code == 0x07 then Scale(0.00015625, 0.0)
    else if code == 0x0F then Scale(0.000078125, 0.0)
    else Scale(0.0, 0.0)
  }

  /** The bipolar range codes (+/-), the unipolar ones (0 to a positive limit). */
  predicate Bipolar(code: U8)
  {
    code == 0x00 || code == 0x01 || code == 0x02 || code == 0x03 || code == 0x0B
  }

  predicate Unipolar(code: U8)
  {
    code == 0x05 || code == 0x06 || code == 0x07 || code == 0x0F
  }

  /**
   * The scales fit the 14-bit code: a bipolar range puts 0 V at mid-scale
   * 8192 and spans twice its limit over 16384 codes; a unipolar range starts
   * at 0 V. Each unipolar range has the step of the bipolar range of the
   * same full span.
   */
  lemma ScalesFitCodes(code: U8)
    ensures Bipolar(code) ==>
              RangeScale(code).perBit > 0.0 && RangeScale(code).offset == -8192.0 * RangeScale(code).perBit
    ensures Unipolar(code) ==> RangeScale(code).perBit > 0.0 && RangeScale(code).offset == 0.0
    ensures Unipolar(code) ==> RangeScale(code).perBit == RangeScale(code - 0x04).perBit
    ensures !Bipolar(code) && !Unipolar(code) ==> RangeScale(code) == Scale(0.0, 0.0)
  {
  }

  /** The channel voltage: code times volts per bit plus the offset (float in the driver). */
  function Voltage(data: U16, s: Scale): real
  {
    (data as int) as real * s.perBit + s.offset
  }

  /** The checks GetChVoltageAll_V makes on a channel's frame: its channel, the device address and the range's low three bits. */
  predicate FrameMatches(regs: seq<U8>, ch: nat, f: ChFrame)
    requires |regs| == NUM_OF_REGS && ch < NUM_OF_CH
  {
    f.chNum as int == ch && f.devAddr == Dev(regs[FEATURE]) && f.rangeLsb3 == RangeCode(regs[RANGE_CH0 + ch]) & 0x07
  }

  /** The per-step statuses of Reg_WriteAll starting at transfer `t`: step `i` writes register `i` and checks its echo. */
  function WriteSteps(regs: seq<U8>, t: nat, spiStatus: nat -> Status, rx: nat -> nat -> U8): nat -> Status
    requires |regs| == NUM_OF_REGS
  {
    (i: nat) => if i < NUM_OF_REGS then EchoStatus(spiStatus(t + i), Received(rx, t + i, 3), regs[i]) else Ok
  }

  /** The write frames of the first `k` registers, in address order. */
  function WriteFrames(regs: seq<U8>, k: nat): (fs: seq<seq<U8>>)
    requires |regs| == NUM_OF_REGS && k <= NUM_OF_REGS
    ensures |fs| == k
  {
    if k == 0 then [] else WriteFrames(regs, k - 1) + [WriteFrame(ADDRS[k - 1], regs[k - 1])]
  }

  /** Frame `i` of Reg_WriteAll writes the `i`-th register's value to its address. */
  lemma {:induction false} WriteFramesAt(regs: seq<U8>, k: nat, i: nat)
    requires |regs| == NUM_OF_REGS && i < k <= NUM_OF_REGS
    ensures WriteFrames(regs, k)[i] == WriteFrame(ADDRS[i], regs[i])
  {
    if i < k - 1 {
      WriteFramesAt(regs, k - 1, i);
    }
  }

  /** The transfer of channel `ch`'s NO_OP, after AUTO_RST at `t` and one NO_OP per enabled channel below it. */
  function ChTransfer(autoScan: U8, t: nat, ch: nat): nat
    requires ch <= NUM_OF_CH
  {
    t + 1 + EnabledBelow(autoScan, ch)
  }

  /** An enabled channel passes: its NO_OP transfer succeeds and its frame matches. */
  predicate ChannelPasses(regs: seq<U8>, t: nat, ch: nat, spiStatus: nat -> Status, rx: nat -> nat -> U8)
    requires |regs| == NUM_OF_REGS && ch < NUM_OF_CH
  {
    var n := ChTransfer(regs[AUTO_SCAN], t, ch);
    spiStatus(n) == Ok && FrameMatches(regs, ch, DecodeFrame(Received(rx, n, 6)))
  }

  /** The voltage and flag GetChVoltageAll_V reports for channel `ch`; 0 V and false when disabled. */
  function ChResult(regs: seq<U8>, t: nat, ch: nat, rx: nat -> nat -> U8): (real, bool)
    requires |regs| == NUM_OF_REGS && ch < NUM_OF_CH
  {
    if IsChEnabled(regs[AUTO_SCAN], ch) then
      var f := DecodeFrame(Received(rx, ChTransfer(regs[AUTO_SCAN], t, ch), 6));
      (Voltage(f.data, RangeScale(RangeCode(regs[RANGE_CH0 + ch]))), true)
    else
      (0.0, false)
  }

  /** After `i` steps of Reg_WriteAll: every step succeeded and their frames were sent. */
  ghost predicate WroteAllOk(l0: seq<seq<U8>>, l: seq<seq<U8>>, regs: seq<U8>, st: nat -> Status, i: nat)
    requires |regs| == NUM_OF_REGS && i <= NUM_OF_REGS
  {
    l == l0 + WriteFrames(regs, i) && forall j :: 0 <= j < i ==> st(j) == Ok
  }

  lemma WroteNext(l0: seq<seq<U8>>, l: seq<seq<U8>>, regs: seq<U8>, st: nat -> Status, i: nat,
                  spiStatus: nat -> Status, rx: nat -> nat -> U8)
    requires |regs| == NUM_OF_REGS && i < NUM_OF_REGS
    requires st == WriteSteps(regs, |l0|, spiStatus, rx)
    requires WroteAllOk(l0, l, regs, st, i)
    requires EchoStatus(spiStatus(|l|), Received(rx, |l|, 3), regs[i]) == Ok
    ensures WroteAllOk(l0, l + [WriteFrame(ADDRS[i], regs[i])], regs, st, i + 1)
  {
    assert |l| == |l0| + i;
    assert st(i) == Ok;
  }

  lemma WriteAllStops(l0: seq<seq<U8>>, l: seq<seq<U8>>, regs: seq<U8>, st: nat -> Status, i: nat,
                      spiStatus: nat -> Status, rx: nat -> nat -> U8)
    requires |regs| == NUM_OF_REGS && i < NUM_OF_REGS
    requires st == WriteSteps(regs, |l0|, spiStatus, rx)
    requires WroteAllOk(l0, l, regs, st, i)
    requires EchoStatus(spiStatus(|l|), Received(rx, |l|, 3), regs[i]) != Ok
    ensures Outcome(0, |regs|, st) == EchoStatus(spiStatus(|l|), Received(rx, |l|, 3), regs[i])
    ensures l + [WriteFrame(ADDRS[i], regs[i])] == l0 + WriteFrames(regs, Tried(0, |regs|, st))
  {
    assert |l| == |l0| + i;
    assert st(i) == EchoStatus(spiStatus(|l|), Received(rx, |l|, 3), regs[i]);
    StopsAt(0, i, |regs|, st);
    ConcatAssoc(l0, WriteFrames(regs, i), [WriteFrame(ADDRS[i], regs[i])]);
  }

  lemma WriteAllDone(l0: seq<seq<U8>>, l: seq<seq<U8>>, regs: seq<U8>, st: nat -> Status)
    requires |regs| == NUM_OF_REGS
    requires WroteAllOk(l0, l, regs, st, NUM_OF_REGS)
    ensures Outcome(0, |regs|, st) == Ok && l == l0 + WriteFrames(regs, Tried(0, |regs|, st))
  {
    AllSucceed(0, |regs|, st);
  }

  /** The commands of `n` NO_OPs. */
  function NoOps(n: nat): (fs: seq<seq<U8>>)
    ensures |fs| == n
  {
    seq(n, _ => NO_OP_FRAME)
  }

  /**
   * After channels 0 to `ch - 1` of GetChVoltageAll_V: AUTO_RST and one NO_OP
   * per enabled channel were sent, every enabled channel passed, and each
   * channel's voltage and flag are set.
   */
  ghost predicate Scanned(l0: seq<seq<U8>>, l: seq<seq<U8>>, regs: seq<U8>, ch: nat, volts: seq<real>, enabled: seq<bool>,
                          spiStatus: nat -> Status, rx: nat -> nat -> U8)
  {
    |regs| == NUM_OF_REGS && ch <= NUM_OF_CH && |volts| == NUM_OF_CH && |enabled| == NUM_OF_CH
    && l == l0 + [AUTO_RST_FRAME] + NoOps(EnabledBelow(regs[AUTO_SCAN], ch))
    && (forall c :: 0 <= c < ch && IsChEnabled(regs[AUTO_SCAN], c) ==> ChannelPasses(regs, |l0|, c, spiStatus, rx))
    && (forall c :: 0 <= c < ch ==> (volts[c], enabled[c]) == ChResult(regs, |l0|, c, rx))
  }

  lemma ScanStep(l0: seq<seq<U8>>, l: seq<seq<U8>>, regs: seq<U8>, ch: nat,
                 volts0: seq<real>, enabled0: seq<bool>, volts: seq<real>, enabled: seq<bool>,
                 spiStatus: nat -> Status, rx: nat -> nat -> U8)
    requires Scanned(l0, l, regs, ch, volts0, enabled0, spiStatus, rx) && ch < NUM_OF_CH
    requires IsChEnabled(regs[AUTO_SCAN], ch) ==> ChannelPasses(regs, |l0|, ch, spiStatus, rx)
    requires volts == volts0[ch := ChResult(regs, |l0|, ch, rx).0] && enabled == enabled0[ch := ChResult(regs, |l0|, ch, rx).1]
    ensures Scanned(l0, if IsChEnabled(regs[AUTO_SCAN], ch) then l + [NO_OP_FRAME] else l, regs, ch + 1, volts, enabled, spiStatus, rx)
  {
    var a := regs[AUTO_SCAN];
    if IsChEnabled(a, ch) {
      assert NoOps(EnabledBelow(a, ch)) + [NO_OP_FRAME] == NoOps(EnabledBelow(a, ch + 1));
      ConcatAssoc(l0 + [AUTO_RST_FRAME], NoOps(EnabledBelow(a, ch)), [NO_OP_FRAME]);
    }
  }

  // ---------------------------------------------------------------------
  // The driver
  // ---------------------------------------------------------------------

  class Ads8678 {
    /** The register values, in the order of ADDRS. */
    var regs: seq<U8>
    /** The bytes written by each SPI transfer so far, in order. */
    var sent: seq<seq<U8>>
    var isInitPeriph: bool
    var isInit: bool
    var wasCtorCalled: bool

    ghost predicate Valid()
      reads this
    {
      |regs| == NUM_OF_REGS
    }

    constructor ()
      ensures Valid() && sent == [] && !isInitPeriph && !isInit && wasCtorCalled
      ensures forall i :: 0 <= i < NUM_OF_REGS ==> regs[i] == 0
    {
      regs := seq(NUM_OF_REGS, _ => 0);
      sent := [];
      isInitPeriph := false;
      isInit := false;
      wasCtorCalled := true;
    }

    /** One SPI write-read, numbered by its position in the log. */
    method WriteRead(tx: seq<U8>, spiStatus: nat -> Status, rx: nat -> nat -> U8) returns (status: Status, rxb: seq<U8>)
      modifies this`sent
      ensures sent == old(sent) + [tx]
      ensures status == spiStatus(|old(sent)|) && rxb == Received(rx, |old(sent)|, |tx|)
    {
      status := spiStatus(|sent|);
      rxb := Received(rx, |sent|, |tx|);
      sent := sent + [tx];
    }

    /** Reg_Read: one read frame; on success the register takes the third byte received. */
    method RegRead(i: nat, spiStatus: nat -> Status, rx: nat -> nat -> U8) returns (status: Status)
      requires Valid() && i < NUM_OF_REGS
      modifies this`sent, this`regs
      ensures Valid()
      ensures sent == old(sent) + [ReadFrame(ADDRS[i])]
      ensures status == spiStatus(|old(sent)|)
      ensures regs == if status == Ok then old(regs)[i := rx(|old(sent)|)(2)] else old(regs)
    {
      var rxb;
      status, rxb := WriteRead(ReadFrame(ADDRS[i]), spiStatus, rx);
      if status != Ok {
        return;
      }
      regs := regs[i := rxb[2]];
    }

    /** Reg_Write: one write frame, then the echo check. */
    method RegWrite(i: nat, spiStatus: nat -> Status, rx: nat -> nat -> U8) returns (status: Status)
      requires Valid() && i < NUM_OF_REGS
      modifies this`sent
      ensures sent == old(sent) + [WriteFrame(ADDRS[i], regs[i])]
      ensures status == EchoStatus(spiStatus(|old(sent)|), Received(rx, |old(sent)|, 3), regs[i])
    {
      var rxb;
      status, rxb := WriteRead(WriteFrame(ADDRS[i], regs[i]), spiStatus, rx);
      if status != Ok {
        return;
      }
      if rxb[2] != regs[i] {
        return Err;
      }
      return Ok;
    }

    /** Reg_WriteAll: every register in address order, stopping at the first failure. */
    method RegWriteAll(spiStatus: nat -> Status, rx: nat -> nat -> U8) returns (status: Status)
      requires Valid()
      modifies this`sent
      ensures var st := WriteSteps(regs, |old(sent)|, spiStatus, rx);
              status == Outcome(0, |regs|, st) && sent == old(sent) + WriteFrames(regs, Tried(0, |regs|, st))
    {
      ghost var st := WriteSteps(regs, |sent|, spiStatus, rx);
      var i := 0;
      while i < NUM_OF_REGS
        invariant 0 <= i <= NUM_OF_REGS
        invariant WroteAllOk(old(sent), sent, regs, st, i)
      {
        status := RegWrite(i, spiStatus, rx);
        if status != Ok {
          WriteAllStops(old(sent), old(sent) + WriteFrames(regs, i), regs, st, i, spiStatus, rx);
          return;
        }
        WroteNext(old(sent), old(sent) + WriteFrames(regs, i), regs, st, i, spiStatus, rx);
        i := i + 1;
      }
      WriteAllDone(old(sent), sent, regs, st);
      return Ok;
    }

    /** Cmd_Write_AutoRst. */
    method AutoRst(spiStatus: nat -> Status, rx: nat -> nat -> U8) returns (status: Status)
      modifies this`sent
      ensures sent == old(sent) + [AUTO_RST_FRAME] && status == spiStatus(|old(sent)|)
    {
      var rxb;
      status, rxb := WriteRead(AUTO_RST_FRAME, spiStatus, rx);
    }

    /** Cmd_Write_NoOp: the next channel's frame, decoded. */
    method NoOp(spiStatus: nat -> Status, rx: nat -> nat -> U8) returns (status: Status, f: ChFrame)
      modifies this`sent
      ensures sent == old(sent) + [NO_OP_FRAME] && status == spiStatus(|old(sent)|)
      ensures status == Ok ==> f == DecodeFrame(Received(rx, |old(sent)|, 6))
    {
      var rxb;
      status, rxb := WriteRead(NO_OP_FRAME, spiStatus, rx);
      if status != Ok {
        return status, ChFrame(0, 0, 0, 0);
      }
      f := DecodeFrame(rxb);
    }

    /**
     * One iteration of GetChVoltageAll_V's channel loop: a disabled channel
     * reports 0 V; an enabled one is read with a NO_OP and checked.
     */
    method ScanChannel(ch: nat, ghost l0: seq<seq<U8>>, spiStatus: nat -> Status, rx: nat -> nat -> U8,
                       volts0: seq<real>, enabled0: seq<bool>)
      returns (status: Status, volts: seq<real>, enabled: seq<bool>)
      requires Valid() && ch < NUM_OF_CH
      requires Scanned(l0, sent, regs, ch, volts0, enabled0, spiStatus, rx)
      modifies this`sent
      ensures status == Ok ==> Scanned(l0, sent, regs, ch + 1, volts, enabled, spiStatus, rx)
      ensures status != Ok ==>
                IsChEnabled(regs[AUTO_SCAN], ch) && !ChannelPasses(regs, |l0|, ch, spiStatus, rx)
                && |volts| == NUM_OF_CH && |enabled| == NUM_OF_CH
    {
      volts, enabled := volts0, enabled0;
      if !IsChEnabled(regs[AUTO_SCAN], ch) {
        volts := volts[ch := 0.0];
        enabled := enabled[ch := false];
        ScanStep(l0, sent, regs, ch, volts0, enabled0, volts, enabled, spiStatus, rx);
        return Ok, volts, enabled;
      }
      ghost var l := sent;
      var f;
      status, f := NoOp(spiStatus, rx);
      if status != Ok {
        return;
      }
      if !FrameMatches(regs, ch, f) {
        return Err, volts, enabled;
      }
      volts := volts[ch := Voltage(f.data, RangeScale(RangeCode(regs[RANGE_CH0 + ch])))];
      enabled := enabled[ch := true];
      ScanStep(l0, l, regs, ch, volts0, enabled0, volts, enabled, spiStatus, rx);
    }

    /**
     * GetChVoltageAll_V: AUTO_RST, then for each channel in order a NO_OP if
     * it is enabled, checked against the channel number, the device address
     * and the range; disabled channels report 0 V. The first failure ends the
     * call. `volts0` and `enabled0` are the caller's arrays before the call.
     */
    method GetChVoltageAll(spiStatus: nat -> Status, rx: nat -> nat -> U8, volts0: seq<real>, enabled0: seq<bool>)
      returns (status: Status, volts: seq<real>, enabled: seq<bool>)
      requires Valid() && wasCtorCalled && isInitPeriph && isInit
      requires Sdo(regs[FEATURE]) == SDO_CONV_CHADDR_DEVADDR_INRANGE
      requires |volts0| == NUM_OF_CH && |enabled0| == NUM_OF_CH
      modifies this`sent
      ensures |volts| == NUM_OF_CH && |enabled| == NUM_OF_CH
      ensures var t := |old(sent)|;
              status == Ok <==>
                spiStatus(t) == Ok
                && forall ch :: 0 <= ch < NUM_OF_CH && IsChEnabled(regs[AUTO_SCAN], ch) ==> ChannelPasses(regs, t, ch, spiStatus, rx)
      ensures status == Ok ==>
                forall ch :: 0 <= ch < NUM_OF_CH ==> (volts[ch], enabled[ch]) == ChResult(regs, |old(sent)|, ch, rx)
      ensures status == Ok ==> sent == old(sent) + [AUTO_RST_FRAME] + NoOps(EnabledBelow(regs[AUTO_SCAN], NUM_OF_CH))
    {
      volts, enabled := volts0, enabled0;
      status := AutoRst(spiStatus, rx);
      if status != Ok {
        return;
      }
      var ch := 0;
      while ch < NUM_OF_CH
        invariant 0 <= ch <= NUM_OF_CH && status == Ok
        invariant spiStatus(|old(sent)|) == Ok
        invariant Scanned(old(sent), sent, regs, ch, volts, enabled, spiStatus, rx)
      {
        status, volts, enabled := ScanChannel(ch, old(sent), spiStatus, rx, volts, enabled);
        if status != Ok {
          return;
        }
        ch := ch + 1;
      }
    }
  }
}
