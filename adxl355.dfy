/**
 * The ADXL355 three-axis accelerometer on SPI: the command byte that
 * carries a register address, register reads and writes as SPI transfers,
 * the decoding of the 20-bit two's-complement axis samples and the 16-bit
 * temperature word, the full-scale range handling, and Enable/Disable.
 *
 * What each SPI transfer reports is given by the caller: `spiStatus(n)` is
 * the status of transfer number `n` and `rx(n)(k)` the k-th byte it
 * received. The driver's register structure is a map from register to its
 * bytes, in the order they are transferred.
 */
module AlxAdxl355 {
  import opened AlxCommon
  import opened AlxBytes

  // ---------------------------------------------------------------------
  // Registers and the SPI command byte
  // ---------------------------------------------------------------------

  /** The registers of the driver's register structure; Temp is TEMP2..TEMP1 and Data is XDATA3..ZDATA1. */
  datatype Reg = DevIdAd | DevIdMst | PartId | RevId | Status | Temp | Data | Filter | IntMap | Sync | Range | PowerCtl | Reset

  /** RegStruct_SetAddr. */
  function Addr(r: Reg): (a: U8)
    ensures a < 0x30
  {
    match r
    case DevIdAd => 0x00
    case DevIdMst => 0x01
    case PartId => 0x02
    case RevId => 0x03
    case Status => 0x04
    case Temp => 0x06
    case Data => 0x08
    case Filter => 0x28
    case IntMap => 0x2A
    case Sync => 0x2B
    case Range => 0x2C
    case PowerCtl => 0x2D
    case Reset => 0x2F
  }

  /** RegStruct_SetLen: the size of each register's value. */
  function Len(r: Reg): (n: nat)
    ensures 1 <= n <= 9
  {
    match r
    case Temp => 2
    case Data => 9
    case _ => 1
  }

  /** No two registers share an address. */
  lemma AddrInjective(r1: Reg, r2: Reg)
    ensures Addr(r1) == Addr(r2) ==> r1 == r2
  {
  }

  /** The command byte of a register write: the address shifted left, LSB 0. */
  function WriteCmd(addr: U8): (b: U8)
    ensures b & 1 == 0 && b >> 1 == addr & 0x7F
  {
    addr << 1
  }

  /** The command byte of a register read: the address shifted left, LSB 1. */
  function ReadCmd(addr: U8): (b: U8)
    ensures b & 1 == 1 && b >> 1 == addr & 0x7F
  {
    (addr << 1) | 0x01
  }

  /** Every register address survives the shift, so the device sees the register and the direction. */
  lemma CmdCarriesAddr(r: Reg)
    ensures WriteCmd(Addr(r)) >> 1 == Addr(r) && ReadCmd(Addr(r)) >> 1 == Addr(r)
    ensures ReadCmd(Addr(r)) == WriteCmd(Addr(r)) | 1
  {
  }

  /** Every register holds exactly its size in bytes. */
  ghost predicate RegsValid(reg: map<Reg, seq<U8>>)
  {
    forall r: Reg :: r in reg && |reg[r]| == Len(r)
  }

  /** Replacing one register by a value of its size keeps every register its size. */
  lemma UpdateKeepsSizes(reg: map<Reg, seq<U8>>, r: Reg, v: seq<U8>)
    requires RegsValid(reg) && |v| == Len(r)
    ensures RegsValid(reg[r := v])
  {
  }

  /** RegStruct_SetValToZero. */
  function ZeroRegs(): (reg: map<Reg, seq<U8>>)
    ensures RegsValid(reg)
    ensures forall r: Reg :: forall k :: 0 <= k < Len(r) ==> reg[r][k] == 0
  {
    map r: Reg :: seq(Len(r), _ => 0)
  }

  // ---------------------------------------------------------------------
  // SPI transfers
  // ---------------------------------------------------------------------

  /** An SPI transfer: bytes written, or a number of bytes read. */
  datatype SpiXfer = SpiWrite(bytes: seq<U8>) | SpiRead(len: nat)

  /** The transfers of `planned` that are made, starting at transfer `t`. */
  function Performed(t: nat, planned: seq<SpiXfer>, spiStatus: nat -> Status): seq<SpiXfer>
  {
    planned[..Tried(t, |planned|, spiStatus)]
  }

  /** A run of two transfers: the first alone when it fails, both otherwise. */
  lemma TwoStepRun(t: nat, planned: seq<SpiXfer>, spiStatus: nat -> Status)
    requires |planned| == 2
    ensures spiStatus(t) != Ok ==> Performed(t, planned, spiStatus) == [planned[0]] && Outcome(t, 2, spiStatus) == spiStatus(t)
    ensures spiStatus(t) == Ok ==> Performed(t, planned, spiStatus) == planned && Outcome(t, 2, spiStatus) == spiStatus(t + 1)
  {
    if spiStatus(t) == Ok {
      assert Tried(t, 2, spiStatus) == 2;
      assert planned[..2] == planned;
    }
  }

  /** Reg_Write: the write command byte, then the register's bytes. */
  function WriteXfers(r: Reg, val: seq<U8>): seq<SpiXfer>
  {
    [SpiWrite([WriteCmd(Addr(r))]), SpiWrite(val)]
  }

  /** Reg_Read: the read command byte, then a read of the register's size. */
  function ReadXfers(r: Reg): seq<SpiXfer>
  {
    [SpiWrite([ReadCmd(Addr(r))]), SpiRead(Len(r))]
  }

  /** The bytes transfer `n` leaves in a buffer of `len` bytes. */
  function Received(rx: nat -> nat -> U8, n: nat, len: nat): (bs: seq<U8>)
    ensures |bs| == len
  {
    seq(len, (k: int) requires 0 <= k < len => rx(n)(k))
  }

  // ---------------------------------------------------------------------
  // Sample decoding
  // ---------------------------------------------------------------------

  /** xyz_20bit as assembled: raw bytes DATA1 (low), DATA2, DATA3 and a zero top byte, read as a little-endian int32_t. */
  function AxisWord(d3: U8, d2: U8, d1: U8): (w: U32)
    ensures w & 0x8000_0000 == 0
  {
    ((d3 as U32) << 16) | ((d2 as U32) << 8) | (d1 as U32)
  }

  /** The padding step: a set bit 19 is copied into bits 20 to 31 with `| 0xFFF00000`. */
  function SignExtend20(w: U32): U32
  {
    if w & 0x0008_0000 == 0x0008_0000 then w | 0xFFF0_0000 else w
  }

  /** One axis of ReadXyz_g: right-justify the 20 bits with an int32_t shift, then pad negative values. */
  function Axis20(d3: U8, d2: U8, d1: U8): U32
  {
    SignExtend20(Asr32(AxisWord(d3, d2, d1), 4))
  }

  /** The value of an int32_t bit pattern. */
  function Int32Of(v: U32): int
  {
    if v & 0x8000_0000 == 0 then v as int else v as int - 0x1_0000_0000
  }

  /** An axis value in g: the int32_t sample times the range factor (a float product in the driver). */
  function ToG(v: U32, factor: real): real
  {
    Int32Of(v) as real * factor
  }

  /** A value per axis, as the driver's x/y/z structures. */
  datatype Xyz<T> = Xyz(x: T, y: T, z: T)

  /** The three axes of the DATA registers: XDATA3..1, YDATA3..1, ZDATA3..1. */
  function Sample(d: seq<U8>): Xyz<U32>
    requires |d| == 9
  {
    Xyz(Axis20(d[0], d[1], d[2]), Axis20(d[3], d[4], d[5]), Axis20(d[6], d[7], d[8]))
  }

  /** The three axes in g. */
  function InG(s: Xyz<U32>, factor: real): Xyz<real>
  {
    Xyz(ToG(s.x, factor), ToG(s.y, factor), ToG(s.z, factor))
  }

  /** Each axis of a sample is the 20-bit two's-complement value of its own three bytes, and no other. */
  lemma SampleValues(d: seq<U8>)
    requires |d| == 9
    ensures Int32Of(Sample(d).x) == Signed20(Raw20(d[0], d[1], d[2]))
    ensures Int32Of(Sample(d).y) == Signed20(Raw20(d[3], d[4], d[5]))
    ensures Int32Of(Sample(d).z) == Signed20(Raw20(d[6], d[7], d[8]))
  {
    Axis20Value(d[0], d[1], d[2]);
    Axis20Value(d[3], d[4], d[5]);
    Axis20Value(d[6], d[7], d[8]);
  }

  /** The 20-bit sample the three data registers carry: DATA3, DATA2 and the top nibble of DATA1. */
  function Raw20(d3: U8, d2: U8, d1: U8): (n: int)
    ensures 0 <= n < 0x10_0000
  {
    (d3 as int) * 4096 + (d2 as int) * 16 + (d1 as int) / 16
  }

  /** A 20-bit two's-complement value. */
  function Signed20(n: int): (s: int)
    requires 0 <= n < 0x10_0000
    ensures -0x8_0000 <= s < 0x8_0000
    ensures s == n || s == n - 0x10_0000
  {
    if n >= 0x8_0000 then n - 0x10_0000 else n
  }

  /** The axis value ReadXyz_g computes is the 20-bit two's-complement sample, so it lies in [-2^19, 2^19). */
  lemma Axis20Value(d3: U8, d2: U8, d1: U8)
    ensures Int32Of(Axis20(d3, d2, d1)) == Signed20(Raw20(d3, d2, d1))
    ensures -0x8_0000 <= Int32Of(Axis20(d3, d2, d1)) < 0x8_0000
  {
    RawValue(d3, d2, d1);
    var v := AxisWord(d3, d2, d1) >> 4;
    SignExtendValue(v);
    ArithmeticShift(AxisWord(d3, d2, d1));
  }

  /** The int32_t shift of a non-negative word is the logical one. */
  lemma ArithmeticShift(w: U32)
    requires w & 0x8000_0000 == 0
    ensures Asr32(w, 4) == w >> 4
  {
  }

  lemma RawValue(d3: U8, d2: U8, d1: U8)
    ensures AxisWord(d3, d2, d1) >> 4 < 0x10_0000
    ensures (AxisWord(d3, d2, d1) >> 4) as int == Raw20(d3, d2, d1)
  {
    ShiftValue(d3, d2, d1);
  }

  lemma ShiftValue(d3: U8, d2: U8, d1: U8)
    ensures ((((d3 as U32) << 16) | ((d2 as U32) << 8) | (d1 as U32)) >> 4) as int
            == (d3 as int) * 4096 + (d2 as int) * 16 + (d1 as int) / 16
  {
  }

  /** Padding a 20-bit pattern gives its two's-complement value. */
  lemma SignExtendValue(w: U32)
    requires w < 0x10_0000
    ensures Int32Of(SignExtend20(w)) == Signed20(w as int)
  {
    if w & 0x0008_0000 == 0x0008_0000 {
      NegativeExtension(w);
    } else {
      PositiveRange(w);
    }
  }

  lemma PositiveRange(w: U32)
    requires w < 0x10_0000 && w & 0x0008_0000 != 0x0008_0000
    ensures w as int < 0x8_0000 && Int32Of(w) == w as int
  {
    assert w < 0x8_0000;
  }

  lemma NegativeExtension(w: U32)
    requires w < 0x10_0000 && w & 0x0008_0000 == 0x0008_0000
    ensures w as int >= 0x8_0000
    ensures Int32Of(w | 0xFFF0_0000) == w as int - 0x10_0000
  {
    assert w | 0xFFF0_0000 == w - 0x10_0000;
    assert (w | 0xFFF0_0000) & 0x8000_0000 != 0;
    assert (w - 0x10_0000) as int == w as int + 0x1_0000_0000 - 0x10_0000;
  }

  /** The Range field: bits 1:0 of the Range register. */
  function RangeCode(b: U8): (c: U8)
    ensures c < 4
  {
    b & 0x03
  }

  /** The g per LSB of each full-scale range; the reserved code 0 has none. */
  function RangeFactor(code: U8): (f: Option<real>)
    ensures f.None? <==> code & 0x03 == 0
  {
    match code & 0x03
    case 1 => Some(0.0000039)
    case 2 => Some(0.0000078)
    case 3 => Some(0.0000156)
    case _ => None
  }

  /** Each range step doubles the factor, as each doubles the full scale. */
  lemma RangeFactorsDouble()
    ensures RangeFactor(2).value == 2.0 * RangeFactor(1).value
    ensures RangeFactor(3).value == 2.0 * RangeFactor(2).value
  {
  }

  /** The temperature word: raw[0] is TEMP1 (read second), raw[1] is TEMP2 (read first), as a little-endian uint16_t. */
  function TempWord(first: U8, second: U8): (w: U16)
    ensures Msb16(w) == [first, second]
  {
    Word(first, second)
  }

  /** The temperature: -9.05 LSB per degree, 0 LSB at 233.2872929 degrees (computed in float by the driver). */
  function TempDegC(n: int): real
  {
    (n as real) * (-0.1104972376) + 233.2872929
  }

  /** 1885 LSB is 25 degrees, and the temperature falls as the word rises. */
  lemma TempScale(n: int, m: int)
    ensures -0.000001 < TempDegC(1885) - 25.0 < 0.000001
    ensures n < m ==> TempDegC(m) < TempDegC(n)
  {
  }

  /** POWER_CTL with its Standby bit (bit 0) set for standby or cleared for measurement; the other bits kept. */
  function WithStandby(p: U8, standby: bool): (r: U8)
    ensures (r & 1 == 1) == standby && r & 0xFE == p & 0xFE
  {
    if standby then p | 0x01 else p & 0xFE
  }

  // ---------------------------------------------------------------------
  // The driver
  // ---------------------------------------------------------------------

  class Adxl355 {
    var reg: map<Reg, seq<U8>>
    /** The SPI transfers made so far, in order. */
    var sent: seq<SpiXfer>
    var csAsserted: bool
    /** The bytes in the driver's FIFO of samples. */
    var fifo: seq<U8>
    var xyz20: Xyz<U32>
    var rangeFactor: real
    var xyzG: Xyz<real>
    var tempRaw: U16
    var tempDegC: real
    var isInit: bool
    var wasCtorCalled: bool

    ghost predicate Valid()
      reads this
    {
      RegsValid(reg) && !csAsserted
    }

    constructor ()
      ensures Valid() && reg == ZeroRegs() && sent == [] && fifo == []
      ensures xyz20 == Xyz(0, 0, 0) && rangeFactor == 0.0 && xyzG == Xyz(0.0, 0.0, 0.0)
      ensures tempDegC == 0.0 && !isInit && wasCtorCalled
    {
      reg := ZeroRegs();
      sent := [];
      csAsserted := false;
      fifo := [];
      xyz20 := Xyz(0, 0, 0);
      rangeFactor := 0.0;
      xyzG := Xyz(0.0, 0.0, 0.0);
      tempRaw := 0;
      tempDegC := 0.0;
      isInit := false;
      wasCtorCalled := true;
    }

    /** One SPI transfer, numbered by its position in the log. */
    method Transfer(x: SpiXfer, spiStatus: nat -> Status) returns (status: Status)
      modifies this`sent
      ensures sent == old(sent) + [x] && status == spiStatus(|old(sent)|)
    {
      status := spiStatus(|sent|);
      sent := sent + [x];
    }

    /** Copies bytes received for `r` into its shadow register. */
    method Store(r: Reg, v: seq<U8>)
      requires RegsValid(reg) && |v| == Len(r)
      modifies this`reg
      ensures RegsValid(reg) && reg == old(reg)[r := v]
    {
      UpdateKeepsSizes(reg, r, v);
      reg := reg[r := v];
    }

    /** Reg_Write: with CS asserted, the write command byte and then the bytes; CS is released on every path. */
    method RegWrite(r: Reg, spiStatus: nat -> Status) returns (status: Status)
      requires Valid()
      modifies this`sent, this`csAsserted
      ensures Valid()
      ensures sent == old(sent) + Performed(|old(sent)|, WriteXfers(r, reg[r]), spiStatus)
      ensures status == Outcome(|old(sent)|, 2, spiStatus)
    {
      TwoStepRun(|sent|, WriteXfers(r, reg[r]), spiStatus);
      csAsserted := true;
      status := Transfer(SpiWrite([WriteCmd(Addr(r))]), spiStatus);
      if status != Ok {
        csAsserted := false;
        return;
      }
      status := Transfer(SpiWrite(reg[r]), spiStatus);
      if status != Ok {
        csAsserted := false;
        return;
      }
      csAsserted := false;
      return Ok;
    }

    /**
     * Reg_Read: with CS asserted, the read command byte and then a read of
     * the register's size into the register; CS is released on every path.
     * The bytes are those the read leaves in the buffer, whatever its status.
     */
    method RegRead(r: Reg, spiStatus: nat -> Status, rx: nat -> nat -> U8) returns (status: Status)
      requires Valid()
      modifies this`sent, this`csAsserted, this`reg
      ensures Valid()
      ensures var t := |old(sent)|;
              sent == old(sent) + Performed(t, ReadXfers(r), spiStatus)
              && reg == (if spiStatus(t) == Ok then old(reg)[r := Received(rx, t + 1, Len(r))] else old(reg))
      ensures status == Outcome(|old(sent)|, 2, spiStatus)
    {
      var t := |sent|;
      csAsserted := true;
      TwoStepRun(t, ReadXfers(r), spiStatus);
      status := Transfer(SpiWrite([ReadCmd(Addr(r))]), spiStatus);
      if status != Ok {
        csAsserted := false;
        return;
      }
      status := Transfer(SpiRead(Len(r)), spiStatus);
      Store(r, Received(rx, t + 1, Len(r)));
      csAsserted := false;
    }

    /**
     * The decoding half of ReadXyz_g, on the data registers just read: the
     * 20-bit values always, and with a valid range code the factor and the
     * values in g; a reserved range code leaves those as they were.
     */
    method DecodeXyz()
      requires Valid()
      modifies this`xyz20, this`rangeFactor, this`xyzG
      ensures xyz20 == Sample(reg[Data])
      ensures RangeFactor(RangeCode(reg[Range][0])).Some? ==>
              var f := RangeFactor(RangeCode(reg[Range][0])).value;
              rangeFactor == f && xyzG == InG(xyz20, f)
      ensures RangeFactor(RangeCode(reg[Range][0])).None? ==>
              rangeFactor == old(rangeFactor) && xyzG == old(xyzG)
    {
      xyz20 := Sample(reg[Data]);
      var f := RangeFactor(RangeCode(reg[Range][0]));
      if f.None? {
        return;
      }
      rangeFactor := f.value;
      xyzG := InG(xyz20, rangeFactor);
    }

    /**
     * ReadXyz_g: read the data registers, then decode them. A failed read
     * returns its status with every value as it was.
     */
    method ReadXyz(spiStatus: nat -> Status, rx: nat -> nat -> U8) returns (status: Status)
      requires Valid()
      modifies this`sent, this`csAsserted, this`reg, this`xyz20, this`rangeFactor, this`xyzG
      ensures Valid()
      ensures var t := |old(sent)|;
              sent == old(sent) + Performed(t, ReadXfers(Data), spiStatus)
              && reg == (if spiStatus(t) == Ok then old(reg)[Data := Received(rx, t + 1, 9)] else old(reg))
      ensures status == Outcome(|old(sent)|, 2, spiStatus)
      ensures status != Ok ==> xyz20 == old(xyz20) && rangeFactor == old(rangeFactor) && xyzG == old(xyzG)
      ensures status == Ok ==> xyz20 == Sample(reg[Data])
      ensures status == Ok && RangeFactor(RangeCode(reg[Range][0])).Some? ==>
              var f := RangeFactor(RangeCode(reg[Range][0])).value;
              rangeFactor == f && xyzG == InG(xyz20, f)
      ensures status == Ok && RangeFactor(RangeCode(reg[Range][0])).None? ==>
              rangeFactor == old(rangeFactor) && xyzG == old(xyzG)
    {
      status := RegRead(Data, spiStatus, rx);
      if status != Ok {
        return;
      }
      DecodeXyz();
    }

    /** ReadTemp_degC: read TEMP2 and TEMP1, merge them into the word, and convert it. */
    method ReadTemp(spiStatus: nat -> Status, rx: nat -> nat -> U8) returns (status: Status)
      requires Valid()
      modifies this`sent, this`csAsserted, this`reg, this`tempRaw, this`tempDegC
      ensures Valid()
      ensures var t := |old(sent)|;
              sent == old(sent) + Performed(t, ReadXfers(Temp), spiStatus)
              && reg == (if spiStatus(t) == Ok then old(reg)[Temp := Received(rx, t + 1, 2)] else old(reg))
      ensures status == Outcome(|old(sent)|, 2, spiStatus)
      ensures status == Ok ==> tempRaw == TempWord(reg[Temp][0], reg[Temp][1]) && tempDegC == TempDegC(tempRaw as int)
      ensures status != Ok ==> tempRaw == old(tempRaw) && tempDegC == old(tempDegC)
    {
      status := RegRead(Temp, spiStatus, rx);
      if status != Ok {
        return;
      }
      tempRaw := TempWord(reg[Temp][0], reg[Temp][1]);
      tempDegC := TempDegC(tempRaw as int);
    }

    /** Enable: flush the FIFO, clear Standby (measurement mode) and write POWER_CTL. */
    method Enable(spiStatus: nat -> Status) returns (status: Status)
      requires Valid() && isInit && wasCtorCalled
      modifies this`fifo, this`reg, this`sent, this`csAsserted
      ensures Valid() && fifo == []
      ensures reg == old(reg)[PowerCtl := [WithStandby(old(reg)[PowerCtl][0], false)]]
      ensures sent == old(sent) + Performed(|old(sent)|, WriteXfers(PowerCtl, reg[PowerCtl]), spiStatus)
      ensures status == Outcome(|old(sent)|, 2, spiStatus)
    {
      fifo := [];
      reg := reg[PowerCtl := [WithStandby(reg[PowerCtl][0], false)]];
      status := RegWrite(PowerCtl, spiStatus);
    }

    /** Disable: flush the FIFO, set Standby and write POWER_CTL. */
    method Disable(spiStatus: nat -> Status) returns (status: Status)
      requires Valid() && isInit && wasCtorCalled
      modifies this`fifo, this`reg, this`sent, this`csAsserted
      ensures Valid() && fifo == []
      ensures reg == old(reg)[PowerCtl := [WithStandby(old(reg)[PowerCtl][0], true)]]
      ensures sent == old(sent) + Performed(|old(sent)|, WriteXfers(PowerCtl, reg[PowerCtl]), spiStatus)
      ensures status == Outcome(|old(sent)|, 2, spiStatus)
    {
      fifo := [];
      reg := reg[PowerCtl := [WithStandby(reg[PowerCtl][0], true)]];
      status := RegWrite(PowerCtl, spiStatus);
    }
  }
}
