/**
 * The ADS114S08 16-bit delta-sigma ADC on SPI: the RREG, WREG and RDATA
 * command frames, writing a register and reading it back, writing the whole
 * register set in address order, the conversion of a raw sample to mV with
 * its out-of-range flag and PGA gain, and the channel-to-input-mux mapping
 * used by GetChVoltage_mV.
 *
 * Every command is one SPI write-read: `spiStatus(n)` is the status of
 * transfer number `n` and `rx(n)(k)` the k-th byte it received. Whether
 * nDRDY goes low before the conversion timeout is the parameter `ready`.
 */
module AlxAds114s08 {
  import opened AlxCommon

  // ---------------------------------------------------------------------
  // Registers
  // ---------------------------------------------------------------------

  /** Registers 0x00 (ID) to 0x11 (GPIOCON); the model keeps them indexed by address. */
  const NUM_OF_REGS: nat := 18
  const INPMUX: nat := 0x02
  const PGA: nat := 0x03
  const DATARATE: nat := 0x04
  const REF: nat := 0x05
  const SYS: nat := 0x09

  /** Reg_WriteAll writes the 17 registers after the read-only ID register. */
  const NUM_OF_WRITES: nat := 17

  /** RegStruct_SetToDefault. */
  function Defaults(): (regs: seq<U8>)
    ensures |regs| == NUM_OF_REGS
  {
    [0x00, 0x80, 0x01, 0x00, 0x14, 0x10, 0x00, 0xFF, 0x00, 0x10, 0x00, 0x00, 0x00, 0x00, 0x00, 0x40, 0x00, 0x00]
  }

  /** A bit field of `width` bits at `shift` set to `v`, the other bits kept. */
  function SetField(b: U8, shift: nat, width: nat, v: U8): U8
    requires shift + width <= 8 && 1 <= width
  {
    var m: U8 := (1 << width) - 1;
    (b & !(m << shift)) | ((v & m) << shift)
  }

  function GetField(b: U8, shift: nat, width: nat): U8
    requires shift + width <= 8 && 1 <= width
  {
    (b >> shift) & ((1 << width) - 1)
  }

  // ---------------------------------------------------------------------
  // Command frames
  // ---------------------------------------------------------------------

  /** The commands the driver sends; each is one 3-byte SPI frame. */
  datatype Cmd =
    | Rreg(addr: nat, count: nat)   // Cmd_RREG: read `count` registers from `addr`
    | Wreg(addr: nat, val: U8)      // Reg_Write: write one register
    | Rdata                         // RDATA: read the conversion result

  predicate CmdValid(c: Cmd)
  {
    match c
    case Rreg(addr, count) => addr <= 0x1F && RregGuard(count)
    case Wreg(addr, _) => addr <= 0x1F
    case Rdata => true
  }

  /**
   * The frame of a command: RREG is 0x20 with the address, the count minus
   * one and a dummy byte; WREG is 0x40 with the address, 0 (one register)
   * and the value; RDATA is 0x12 and two dummy bytes.
   */
  function Encode(c: Cmd): (tx: seq<U8>)
    requires CmdValid(c)
    ensures |tx| == 3
  {
    match c
    case Rreg(addr, count) => [0x20 | addr as U8, (count - 1) as U8, 0x00]
    case Wreg(addr, val) => [0x40 | addr as U8, 0x00, val]
    case Rdata => [0x12, 0x00, 0x00]
  }

  /** The command a frame holds, told apart by the top three bits of its first byte. */
  function Decode(tx: seq<U8>): Option<Cmd>
  {
    if |tx| != 3 then None
    else if tx == [0x12, 0x00, 0x00] then Some(Rdata)
    else if tx[0] & 0xE0 == 0x20 && tx[2] == 0 then Some(Rreg((tx[0] & 0x1F) as nat, tx[1] as nat + 1))
    else if tx[0] & 0xE0 == 0x40 && tx[1] == 0 then Some(Wreg((tx[0] & 0x1F) as nat, tx[2]))
    else None
  }

  /** The low five bits of an address byte give back the address. */
  lemma AddressBits(addr: nat, opcode: U8)
    requires addr <= 0x1F && opcode & 0x1F == 0
    ensures (opcode | addr as U8) & 0xE0 == opcode & 0xE0
    ensures ((opcode | addr as U8) & 0x1F) as nat == addr
  {
    var c := addr as U8;
    assert c <= 0x1F;
    assert c & 0x1F == c && c & 0xE0 == 0;
  }

  /** Every command's frame decodes back to it, so distinct commands have distinct frames. */
  lemma EncodeRoundTrip(c: Cmd)
    requires CmdValid(c)
    ensures Decode(Encode(c)) == Some(c)
  {
    match c
    case Rreg(addr, count) =>
      AddressBits(addr, 0x20);
      assert ((count - 1) as U8) as nat + 1 == count;
    case Wreg(addr, val) =>
      AddressBits(addr, 0x40);
    case Rdata =>
  }

  /** The number of bytes Cmd_RREG transfers for `len` registers: the opcode, the count, then the values. */
  function RregXferLen(len: nat): nat
  {
    len + 2
  }

  /** Cmd_RREG's guard as written: 0 < len <= 2. */
  predicate RregGuardAsWritten(len: nat)
  {
    0 < len <= 2
  }

  /** The guard admits len = 2, which transfers 4 bytes through the 3-byte write and read buffers. */
  lemma RregGuardAdmitsOverrun()
    ensures RregGuardAsWritten(2) && RregXferLen(2) > 3
  {
  }

  /** The guard the 3-byte buffers support: one register per RREG. */
  predicate RregGuard(len: nat)
  {
    len == 1
  }

  /** Under it every RREG fits the buffers, and it admits every register read the driver makes (all are one byte). */
  lemma RregGuardFits(len: nat)
    ensures RregGuard(len) ==> RregGuardAsWritten(len) && RregXferLen(len) <= 3
    ensures RregGuard(1)
  {
  }

  /** The bytes transfer `n` received in a buffer of `len` bytes. */
  function Received(rx: nat -> nat -> U8, n: nat, len: nat): (bs: seq<U8>)
    ensures |bs| == len
  {
    seq(len, (k: int) requires 0 <= k < len => rx(n)(k))
  }

  /** Reg_WriteAndRead's status: the write's failure, the read's failure, or Err when the value read back differs. */
  function WriteAndReadStatus(spiStatus: nat -> Status, rx: nat -> nat -> U8, t: nat, val: U8): (r: Status)
    ensures r == Ok <==> spiStatus(t) == Ok && spiStatus(t + 1) == Ok && rx(t + 1)(2) == val
  {
    if spiStatus(t) != Ok then spiStatus(t)
    else if spiStatus(t + 1) != Ok then spiStatus(t + 1)
    else if rx(t + 1)(2) == val then Ok
    else Err
  }

  /** The frames Reg_WriteAndRead sends: WREG, then RREG only if the write went through. */
  function WriteAndReadCmds(spiStatus: nat -> Status, t: nat, addr: nat, val: U8): seq<Cmd>
  {
    [Wreg(addr, val)] + (if spiStatus(t) == Ok then [Rreg(addr, 1)] else [])
  }

  /**
   * Step `j` of Reg_WriteAll writes and reads back register `j + 1`. The steps
   * before a failure each take two transfers, so step `j` starts at `t + 2j`.
   */
  function WriteAllSteps(regs: seq<U8>, t: nat, spiStatus: nat -> Status, rx: nat -> nat -> U8): nat -> Status
    requires |regs| == NUM_OF_REGS
  {
    (j: nat) => if j < NUM_OF_WRITES then WriteAndReadStatus(spiStatus, rx, t + 2 * j, regs[j + 1]) else Ok
  }

  /** The frames of the first `k` steps of Reg_WriteAll. */
  function WriteAllLog(regs: seq<U8>, t: nat, spiStatus: nat -> Status, k: nat): seq<Cmd>
    requires |regs| == NUM_OF_REGS && k <= NUM_OF_WRITES
  {
    if k == 0 then []
    else WriteAllLog(regs, t, spiStatus, k - 1) + WriteAndReadCmds(spiStatus, t + 2 * (k - 1), k, regs[k])
  }

  /** Without failures, Reg_WriteAll sends WREG then RREG for each register 0x01 to 0x11 in turn. */
  lemma {:induction false} WriteAllLogOk(regs: seq<U8>, t: nat, spiStatus: nat -> Status, k: nat)
    requires |regs| == NUM_OF_REGS && k <= NUM_OF_WRITES
    requires forall j :: 0 <= j < k ==> spiStatus(t + 2 * j) == Ok
    ensures |WriteAllLog(regs, t, spiStatus, k)| == 2 * k
    ensures forall j :: 0 <= j < k ==>
              WriteAllLog(regs, t, spiStatus, k)[2 * j] == Wreg(j + 1, regs[j + 1])
              && WriteAllLog(regs, t, spiStatus, k)[2 * j + 1] == Rreg(j + 1, 1)
  {
    if k > 0 {
      WriteAllLogOk(regs, t, spiStatus, k - 1);
    }
  }

  // ---------------------------------------------------------------------
  // Channels and conversion
  // ---------------------------------------------------------------------

  /** GetChVoltage_mV's switch: channel `ch` measures AIN(2ch) against AIN(2ch+1). */
  function ChannelMux(ch: nat): (m: (U8, U8))
    requires ch < 6
  {
    match ch
    case 0 => (0x0, 0x1)
    case 1 => (0x2, 0x3)
    case 2 => (0x4, 0x5)
    case 3 => (0x6, 0x7)
    case 4 => (0x8, 0x9)
    case _ => (0xA, 0xB)
  }

  /** Each channel is a distinct differential pair of neighbouring inputs. */
  lemma ChannelMuxPairs(ch: nat, other: nat)
    requires ch < 6 && other < 6
    ensures ChannelMux(ch).0 as int == 2 * ch && ChannelMux(ch).1 as int == 2 * ch + 1
    ensures ch != other ==> ChannelMux(ch).0 != ChannelMux(other).0 && ChannelMux(ch).1 != ChannelMux(other).1
  {
  }

  /** INPMUX with MUXP in bits 7:4 and MUXN in bits 3:0. */
  function MuxByte(m: (U8, U8)): U8
    requires m.0 <= 0xF && m.1 <= 0xF
  {
    (m.0 << 4) | m.1
  }

  /**
   * The registers GetChVoltage_mV writes for channel `ch`: the defaults with
   * the channel's input pair, PGA 0x0F (enabled, gain 128), DATARATE 0xB2
   * (global chop, single-shot, 10 SPS), REF 0x1A (internal 2.5 V reference,
   * always on) and SYS 0xB0 (0.2 uA burn-out current sources).
   */
  function ChannelRegs(ch: nat): (regs: seq<U8>)
    requires ch < 6
    ensures |regs| == NUM_OF_REGS
  {
    Defaults()[INPMUX := MuxByte(ChannelMux(ch))][PGA := 0x0F][DATARATE := 0xB2][REF := 0x1A][SYS := 0xB0]
  }

  /** Those bytes are the defaults with exactly the driver's field writes applied. */
  lemma ChannelRegsFields(ch: nat)
    requires ch < 6
    ensures var d := Defaults(); var r := ChannelRegs(ch);
            r[INPMUX] == SetField(SetField(d[INPMUX], 4, 4, ChannelMux(ch).0), 0, 4, ChannelMux(ch).1)
            && r[PGA] == SetField(SetField(d[PGA], 0, 3, 0x7), 3, 2, 0x1)
            && r[DATARATE] == SetField(SetField(SetField(d[DATARATE], 7, 1, 0x1), 0, 4, 0x2), 5, 1, 0x1)
            && r[REF] == SetField(SetField(d[REF], 2, 2, 0x2), 0, 2, 0x2)
            && r[SYS] == SetField(d[SYS], 5, 3, 0x5)
            && forall i :: 0 <= i < NUM_OF_REGS && i !in {INPMUX, PGA, DATARATE, REF, SYS} ==> r[i] == d[i]
  {
    MuxFields(ChannelMux(ch).0, ChannelMux(ch).1);
    var d := Defaults();
    assert SetField(SetField(d[PGA], 0, 3, 0x7), 3, 2, 0x1) == 0x0F;
    assert SetField(SetField(SetField(d[DATARATE], 7, 1, 0x1), 0, 4, 0x2), 5, 1, 0x1) == 0xB2;
    assert SetField(SetField(d[REF], 2, 2, 0x2), 0, 2, 0x2) == 0x1A;
    assert SetField(d[SYS], 5, 3, 0x5) == 0xB0;
  }

  /** Writing MUXP then MUXN into the default INPMUX gives the packed byte. */
  lemma MuxFields(p: U8, n: U8)
    requires p <= 0xF && n <= 0xF
    ensures MuxByte((p, n)) == SetField(SetField(0x01, 4, 4, p), 0, 4, n)
  {
  }

  /** The input mux of channel `ch` selects its pair, the PGA multiplies by 128 and the reference is the internal one, always on. */
  lemma ChannelRegsSelect(ch: nat)
    requires ch < 6
    ensures GetField(ChannelRegs(ch)[INPMUX], 4, 4) == ChannelMux(ch).0
    ensures GetField(ChannelRegs(ch)[INPMUX], 0, 4) == ChannelMux(ch).1
    ensures PgaMultiplier(ChannelRegs(ch)[PGA]) == 128
    ensures GetField(ChannelRegs(ch)[REF], 2, 2) == 0x2 && GetField(ChannelRegs(ch)[REF], 0, 2) == 0x2
  {
  }

  /** The int16_t whose high byte is `h` and low byte `l` (two's complement). */
  function Int16Of(h: U8, l: U8): (v: int)
    ensures -0x8000 <= v < 0x8000
    ensures v >= 0 <==> h < 0x80
    ensures (v - l as int) % 0x100 == 0
  {
    (if h < 0x80 then h as int else h as int - 0x100) * 0x100 + l as int
  }

  /** PerformAdcConversion: the sample is the two bytes after the RDATA opcode, high byte first, as an int16_t. */
  function Sample(rxb: seq<U8>): (v: int)
    requires |rxb| == 3
    ensures -0x8000 <= v < 0x8000
  {
    Int16Of(rxb[1], rxb[2])
  }

  /** Convert_raw_mV's flag: the sample is within 5 % of either end of the int16_t range. */
  predicate IsOutOfRange(raw: int)
  {
    raw >= 31128 || raw <= -31129
  }

  /** The limits are (int16_t)(32767 * 0.95) and (int16_t)(-32768 * 0.95), truncated toward zero. */
  lemma OutOfRangeLimits()
    ensures 31128.0 <= 32767.0 * 0.95 < 31129.0
    ensures -31130.0 < -32768.0 * 0.95 <= -31129.0
  {
  }

  /** Convert_raw_mV's PGA multiplier: 2^GAIN with the PGA enabled (PGA_EN = 01), else 1. */
  function PgaMultiplier(pga: U8): (m: nat)
    ensures 1 <= m <= 128
  {
    if GetField(pga, 3, 2) == 0x1 then
      match GetField(pga, 0, 3)
      case 0 => 1
      case 1 => 2
      case 2 => 4
      case 3 => 8
      case 4 => 16
      case 5 => 32
      case 6 => 64
      case _ => 128
    else 1
  }

  function Pow2(k: nat): (p: nat)
    ensures p >= 1
  {
    if k == 0 then 1 else 2 * Pow2(k - 1)
  }

  /** With the PGA enabled the multiplier is 2 to the power of the GAIN field; bypassed or reserved, it is 1. */
  lemma PgaMultiplierIsPowerOfGain(pga: U8)
    ensures GetField(pga, 3, 2) == 0x1 ==> PgaMultiplier(pga) == Pow2(GetField(pga, 0, 3) as nat)
    ensures GetField(pga, 3, 2) != 0x1 ==> PgaMultiplier(pga) == 1
  {
    var g := GetField(pga, 0, 3);
    if g == 0 { assert g as nat == 0; }
    else if g == 1 { assert g as nat == 1; }
    else if g == 2 { assert g as nat == 2; }
    else if g == 3 { assert g as nat == 3; }
    else if g == 4 { assert g as nat == 4; }
    else if g == 5 { assert g as nat == 5; }
    else if g == 6 { assert g as nat == 6; }
    else { assert g == 7 && g as nat == 7; }
  }

  /** The voltage in mV: the sample times (2500 mV / 32767) / multiplier (single-precision float in the driver). */
  function ToMilliVolts(raw: int, multiplier: nat): real
    requires multiplier >= 1
  {
    raw as real * ((2500.0 / 32767.0) / multiplier as real)
  }

  /** Full scale: the largest sample reads the 2500 mV reference divided by the gain, and 0 reads 0. */
  lemma FullScale(multiplier: nat)
    requires multiplier >= 1
    ensures ToMilliVolts(32767, multiplier) == 2500.0 / multiplier as real
    ensures ToMilliVolts(0, multiplier) == 0.0
  {
  }

  // ---------------------------------------------------------------------
  // The driver
  // ---------------------------------------------------------------------

  class Ads114s08 {
    /** The register values, indexed by address. */
    var regs: seq<U8>
    /** The bytes written by each SPI transfer so far, in order. */
    var sent: seq<Cmd>
    var csAsserted: bool
    var startHigh: bool
    var isInitPeriph: bool
    var isInit: bool
    var wasCtorCalled: bool

    ghost predicate Valid()
      reads this
    {
      |regs| == NUM_OF_REGS
    }

    constructor ()
      ensures Valid() && sent == [] && !csAsserted && !startHigh && !isInitPeriph && !isInit && wasCtorCalled
      ensures forall i :: 0 <= i < NUM_OF_REGS ==> regs[i] == 0
    {
      regs := seq(NUM_OF_REGS, _ => 0);
      sent := [];
      csAsserted := false;
      startHigh := false;
      isInitPeriph := false;
      isInit := false;
      wasCtorCalled := true;
    }

    /** One SPI write-read, numbered by its position in the log. */
    method WriteRead(c: Cmd, spiStatus: nat -> Status, rx: nat -> nat -> U8) returns (status: Status, rxb: seq<U8>)
      requires CmdValid(c)
      modifies this`sent
      ensures sent == old(sent) + [c]
      ensures status == spiStatus(|old(sent)|) && rxb == Received(rx, |old(sent)|, |Encode(c)|)
    {
      status := spiStatus(|sent|);
      rxb := Received(rx, |sent|, |Encode(c)|);
      sent := sent + [c];
    }

    /** Cmd_RREG for one register: the value is the third byte received. CS is released on every path. */
    method CmdRreg(addr: nat, spiStatus: nat -> Status, rx: nat -> nat -> U8) returns (status: Status, val: U8)
      requires wasCtorCalled && isInitPeriph && addr <= 0x1F
      modifies this`sent, this`csAsserted
      ensures sent == old(sent) + [Rreg(addr, 1)] && !csAsserted
      ensures status == spiStatus(|old(sent)|)
      ensures status == Ok ==> val == rx(|old(sent)|)(2)
    {
      csAsserted := true;
      var rxb;
      status, rxb := WriteRead(Rreg(addr, 1), spiStatus, rx);
      csAsserted := false;
      if status != Ok {
        return status, 0;
      }
      val := rxb[2];
    }

    /** Reg_Write: one WREG frame. CS is released on every path. */
    method RegWrite(addr: nat, spiStatus: nat -> Status, rx: nat -> nat -> U8) returns (status: Status)
      requires Valid() && wasCtorCalled && isInitPeriph && addr < NUM_OF_REGS
      modifies this`sent, this`csAsserted
      ensures sent == old(sent) + [Wreg(addr, regs[addr])] && !csAsserted
      ensures status == spiStatus(|old(sent)|)
    {
      csAsserted := true;
      var rxb;
      status, rxb := WriteRead(Wreg(addr, regs[addr]), spiStatus, rx);
      csAsserted := false;
    }

    /** Reg_WriteAndRead: write the register, read it back into a local buffer, compare. */
    method RegWriteAndRead(addr: nat, spiStatus: nat -> Status, rx: nat -> nat -> U8) returns (status: Status)
      requires Valid() && wasCtorCalled && isInitPeriph && addr < NUM_OF_REGS
      modifies this`sent, this`csAsserted
      ensures var t := |old(sent)|;
              sent == old(sent) + WriteAndReadCmds(spiStatus, t, addr, regs[addr])
              && status == WriteAndReadStatus(spiStatus, rx, t, regs[addr])
      ensures !csAsserted
    {
      status := RegWrite(addr, spiStatus, rx);
      if status != Ok {
        return;
      }
      var val;
      status, val := CmdRreg(addr, spiStatus, rx);
      if status != Ok {
        return;
      }
      if val != regs[addr] {
        return Err;
      }
      return Ok;
    }

    /**
     * Reg_WriteAll: registers 0x01 to 0x11 in address order (ID is read
     * only), each written and read back; the first failure ends it with Err.
     */
    method RegWriteAll(spiStatus: nat -> Status, rx: nat -> nat -> U8) returns (status: Status)
      requires Valid() && wasCtorCalled && isInitPeriph
      modifies this`sent, this`csAsserted
      ensures WriteAllResult(old(sent), sent, regs, spiStatus, rx, status)
      ensures status == Ok ==> |sent| == |old(sent)| + 2 * NUM_OF_WRITES
      ensures !csAsserted
    {
      ghost var l0 := sent;
      ghost var st := WriteAllSteps(regs, |l0|, spiStatus, rx);
      csAsserted := false;
      var j := 0;
      while j < NUM_OF_WRITES
        invariant 0 <= j <= NUM_OF_WRITES && !csAsserted
        invariant WroteAllOk(l0, sent, regs, st, spiStatus, j)
      {
        ghost var prev := sent;
        var s := RegWriteAndRead(j + 1, spiStatus, rx);
        if s != Ok {
          WriteAllStops(l0, prev, regs, st, spiStatus, rx, j);
          return Err;
        }
        WroteNext(l0, prev, regs, st, spiStatus, rx, j);
        j := j + 1;
      }
      WriteAllDone(l0, sent, regs, st, spiStatus, rx);
      return Ok;
    }

    /**
     * PerformAdcConversion: raise START, wait for nDRDY (Err on timeout, with
     * CS and START released), then RDATA. A failed RDATA returns its status
     * with CS still asserted and START still high, as the driver does.
     */
    method PerformAdcConversion(ready: bool, spiStatus: nat -> Status, rx: nat -> nat -> U8) returns (status: Status, raw: int)
      requires wasCtorCalled && isInitPeriph && isInit
      modifies this`sent, this`csAsserted, this`startHigh
      ensures !ready ==> status == Err && sent == old(sent) && !csAsserted && !startHigh
      ensures ready ==> sent == old(sent) + [Rdata] && status == spiStatus(|old(sent)|)
      ensures ready && status == Ok ==> raw == Sample(Received(rx, |old(sent)|, 3)) && !csAsserted && !startHigh
      ensures ready && status != Ok ==> csAsserted && startHigh
    {
      startHigh := true;
      if !ready {
        csAsserted := false;
        startHigh := false;
        return Err, 0;
      }
      csAsserted := true;
      var rxb;
      status, rxb := WriteRead(Rdata, spiStatus, rx);
      if status != Ok {
        return status, 0;
      }
      csAsserted := false;
      startHigh := false;
      raw := Sample(rxb);
    }

    /** Convert_raw_mV: the out-of-range flag and the voltage; the reference must be the internal 2.5 V one, always on. */
    method ConvertRawToMilliVolts(raw: int) returns (status: Status, mV: real, isOutOfRange: bool)
      requires Valid()
      requires GetField(regs[REF], 2, 2) == 0x2 && GetField(regs[REF], 0, 2) == 0x2
      ensures status == Ok
      ensures isOutOfRange == IsOutOfRange(raw)
      ensures mV == ToMilliVolts(raw, PgaMultiplier(regs[PGA]))
    {
      isOutOfRange := raw >= 31128 || raw <= -31129;
      var m := PgaMultiplier(regs[PGA]);
      mV := ToMilliVolts(raw, m);
      status := Ok;
    }

    /**
     * GetChVoltage_mV: configure the registers for channel `ch`, write them
     * all, convert once and scale. The voltage and flag are the caller's,
     * unchanged when a step fails.
     */
    method GetChVoltage(ch: nat, ready: bool, spiStatus: nat -> Status, rx: nat -> nat -> U8, mV0: real, flag0: bool)
      returns (status: Status, mV: real, isOutOfRange: bool)
      requires Valid() && wasCtorCalled && isInitPeriph && isInit && ch < 6
      modifies this`regs, this`sent, this`csAsserted, this`startHigh
      ensures Valid() && regs == ChannelRegs(ch)
      ensures var wrote := WroteAll(regs, |old(sent)|, spiStatus, rx);
              status == Ok <==> wrote && ready && spiStatus(|old(sent)| + 2 * NUM_OF_WRITES) == Ok
      ensures status == if WroteAll(regs, |old(sent)|, spiStatus, rx) && ready
                        then spiStatus(|old(sent)| + 2 * NUM_OF_WRITES) else Err
      ensures sent == old(sent) + WriteAllSent(regs, |old(sent)|, spiStatus, rx)
                      + (if WroteAll(regs, |old(sent)|, spiStatus, rx) && ready then [Rdata] else [])
      ensures status == Ok ==>
                var t := |old(sent)| + 2 * NUM_OF_WRITES;
                isOutOfRange == IsOutOfRange(Sample(Received(rx, t, 3)))
                && mV == ToMilliVolts(Sample(Received(rx, t, 3)), 128)
      ensures status != Ok ==> mV == mV0 && isOutOfRange == flag0
    {
      ghost var l0 := sent;
      mV, isOutOfRange := mV0, flag0;
      ConfigureChannel(ch);
      status := RegWriteAll(spiStatus, rx);
      WriteAllOutcome(l0, sent, regs, spiStatus, rx, status);
      if status != Ok {
        return;
      }
      assert |sent| == |l0| + 2 * NUM_OF_WRITES;
      status, mV, isOutOfRange := SampleMilliVolts(ready, spiStatus, rx, mV0, flag0);
    }

    /**
     * The register configuration of GetChVoltage_mV: the defaults with the
     * channel's multiplexer pair, gain 128, single conversion at 10 SPS and
     * the internal 2.5 V reference.
     */
    method ConfigureChannel(ch: nat)
      requires ch < 6
      modifies this`regs
      ensures Valid() && regs == ChannelRegs(ch)
      ensures PgaMultiplier(regs[PGA]) == 128
      ensures GetField(regs[REF], 2, 2) == 0x2 && GetField(regs[REF], 0, 2) == 0x2
    {
      regs := ChannelRegs(ch);
      ChannelRegsSelect(ch);
    }

    /**
     * The last two steps of GetChVoltage_mV: one conversion, then the
     * sample scaled at the configured gain. The outputs are the caller's
     * when the conversion fails.
     */
    method SampleMilliVolts(ready: bool, spiStatus: nat -> Status, rx: nat -> nat -> U8, mV0: real, flag0: bool)
      returns (status: Status, mV: real, isOutOfRange: bool)
      requires Valid() && wasCtorCalled && isInitPeriph && isInit
      requires GetField(regs[REF], 2, 2) == 0x2 && GetField(regs[REF], 0, 2) == 0x2
      modifies this`sent, this`csAsserted, this`startHigh
      ensures status == if ready then spiStatus(|old(sent)|) else Err
      ensures sent == old(sent) + (if ready then [Rdata] else [])
      ensures status == Ok ==>
                isOutOfRange == IsOutOfRange(Sample(Received(rx, |old(sent)|, 3)))
                && mV == ToMilliVolts(Sample(Received(rx, |old(sent)|, 3)), PgaMultiplier(regs[PGA]))
      ensures status != Ok ==> mV == mV0 && isOutOfRange == flag0
    {
      mV, isOutOfRange := mV0, flag0;
      var raw;
      status, raw := PerformAdcConversion(ready, spiStatus, rx);
      if status != Ok {
        return;
      }
      var s;
      s, mV, isOutOfRange := ConvertRawToMilliVolts(raw);
    }
  }

  /** Reg_WriteAll of `regs`, starting at transfer `t`, succeeds. */
  ghost predicate WroteAll(regs: seq<U8>, t: nat, spiStatus: nat -> Status, rx: nat -> nat -> U8)
    requires |regs| == NUM_OF_REGS
  {
    Outcome(0, NUM_OF_REGS - 1, WriteAllSteps(regs, t, spiStatus, rx)) == Ok
  }

  /** The commands Reg_WriteAll of `regs` sends, starting at transfer `t`: the steps up to the first failure. */
  ghost function WriteAllSent(regs: seq<U8>, t: nat, spiStatus: nat -> Status, rx: nat -> nat -> U8): seq<Cmd>
    requires |regs| == NUM_OF_REGS
  {
    WriteAllLog(regs, t, spiStatus, Tried(0, NUM_OF_REGS - 1, WriteAllSteps(regs, t, spiStatus, rx)))
  }

  /** A Reg_WriteAll result in terms of the whole run: Ok or Err as the run succeeded, and its commands sent. */
  lemma WriteAllOutcome(l0: seq<Cmd>, l: seq<Cmd>, regs: seq<U8>, spiStatus: nat -> Status, rx: nat -> nat -> U8, status: Status)
    requires WriteAllResult(l0, l, regs, spiStatus, rx, status)
    ensures status == Ok <==> WroteAll(regs, |l0|, spiStatus, rx)
    ensures status == Ok || status == Err
    ensures l == l0 + WriteAllSent(regs, |l0|, spiStatus, rx)
  {
  }

  /**
   * What Reg_WriteAll did, starting from log `l0`: it returns Ok exactly when
   * every step succeeded and Err otherwise, and it sent the commands of the
   * steps up to and including the first failure.
   */
  ghost predicate WriteAllResult(l0: seq<Cmd>, l: seq<Cmd>, regs: seq<U8>, spiStatus: nat -> Status, rx: nat -> nat -> U8, status: Status)
  {
    |regs| == NUM_OF_REGS
    && var st := WriteAllSteps(regs, |l0|, spiStatus, rx);
       (status == Ok <==> Outcome(0, |regs| - 1, st) == Ok) && (status == Ok || status == Err)
       && l == l0 + WriteAllLog(regs, |l0|, spiStatus, Tried(0, |regs| - 1, st))
  }

  /** After `j` steps of Reg_WriteAll: every step succeeded and their frames were sent. */
  ghost predicate WroteAllOk(l0: seq<Cmd>, l: seq<Cmd>, regs: seq<U8>, st: nat -> Status, spiStatus: nat -> Status, j: nat)
  {
    |regs| == NUM_OF_REGS && j <= NUM_OF_WRITES
    && l == l0 + WriteAllLog(regs, |l0|, spiStatus, j) && |l| == |l0| + 2 * j
    && forall i :: 0 <= i < j ==> st(i) == Ok
  }

  lemma StepIs(regs: seq<U8>, t: nat, spiStatus: nat -> Status, rx: nat -> nat -> U8, j: nat)
    requires |regs| == NUM_OF_REGS && j < NUM_OF_WRITES
    ensures WriteAllSteps(regs, t, spiStatus, rx)(j) == WriteAndReadStatus(spiStatus, rx, t + 2 * j, regs[j + 1])
  {
  }

  /** A step of Reg_WriteAll that succeeds extends the log by its two frames. */
  lemma WroteNext(l0: seq<Cmd>, l: seq<Cmd>, regs: seq<U8>, st: nat -> Status,
                  spiStatus: nat -> Status, rx: nat -> nat -> U8, j: nat)
    requires j < NUM_OF_WRITES
    requires WroteAllOk(l0, l, regs, st, spiStatus, j)
    requires st == WriteAllSteps(regs, |l0|, spiStatus, rx)
    requires WriteAndReadStatus(spiStatus, rx, |l|, regs[j + 1]) == Ok
    ensures WroteAllOk(l0, l + WriteAndReadCmds(spiStatus, |l|, j + 1, regs[j + 1]), regs, st, spiStatus, j + 1)
  {
    StepIs(regs, |l0|, spiStatus, rx, j);
    LogGrows(l0, l, regs, spiStatus, j);
  }

  /** A step of Reg_WriteAll that fails is the first failure: the outcome is not Ok and the log ends with its frames. */
  lemma WriteAllStops(l0: seq<Cmd>, l: seq<Cmd>, regs: seq<U8>, st: nat -> Status,
                      spiStatus: nat -> Status, rx: nat -> nat -> U8, j: nat)
    requires j < NUM_OF_WRITES
    requires WroteAllOk(l0, l, regs, st, spiStatus, j)
    requires st == WriteAllSteps(regs, |l0|, spiStatus, rx)
    requires WriteAndReadStatus(spiStatus, rx, |l|, regs[j + 1]) != Ok
    ensures WriteAllResult(l0, l + WriteAndReadCmds(spiStatus, |l|, j + 1, regs[j + 1]), regs, spiStatus, rx, Err)
  {
    StepIs(regs, |l0|, spiStatus, rx, j);
    StopsAt(0, j, |regs| - 1, st);
    LogGrows(l0, l, regs, spiStatus, j);
  }

  /** The log after step `j` is the log before it followed by the step's commands. */
  lemma LogGrows(l0: seq<Cmd>, l: seq<Cmd>, regs: seq<U8>, spiStatus: nat -> Status, j: nat)
    requires |regs| == NUM_OF_REGS && j < NUM_OF_WRITES
    requires l == l0 + WriteAllLog(regs, |l0|, spiStatus, j) && |l| == |l0| + 2 * j
    ensures l + WriteAndReadCmds(spiStatus, |l|, j + 1, regs[j + 1]) == l0 + WriteAllLog(regs, |l0|, spiStatus, j + 1)
  {
    var cmds := WriteAndReadCmds(spiStatus, |l|, j + 1, regs[j + 1]);
    ConcatAssoc(l0, WriteAllLog(regs, |l0|, spiStatus, j), cmds);
  }

  /** All 17 steps of Reg_WriteAll succeeded: the outcome is Ok and two frames per register were sent. */
  lemma WriteAllDone(l0: seq<Cmd>, l: seq<Cmd>, regs: seq<U8>, st: nat -> Status, spiStatus: nat -> Status, rx: nat -> nat -> U8)
    requires WroteAllOk(l0, l, regs, st, spiStatus, NUM_OF_WRITES)
    requires st == WriteAllSteps(regs, |l0|, spiStatus, rx)
    ensures WriteAllResult(l0, l, regs, spiStatus, rx, Ok)
    ensures |l| == |l0| + 2 * NUM_OF_WRITES
  {
    AllSucceed(0, |regs| - 1, st);
  }
}
