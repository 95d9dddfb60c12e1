/**
 * The PCA9430 wireless-power receiver and battery charger driver
 * (alxPca9430.c): a shadow of the chip's one-byte registers, each read or
 * written over I2C with one transaction, the ADC and die-temperature readings
 * and the initial register write-out.
 *
 * I2C transaction number `n`, counted over the driver's life by the length of
 * the log, has status `i2cStatus(n)` and, for a read, returns the byte `rd(n)`.
 */
module AlxPca9430 {
  import opened AlxCommon
  import opened AlxPca943x

  /** The registers Reg_WriteVal writes, in its order. */
  const WRITE_ADDRS: seq<nat> := [0x02, 0x04, 0x06, 0x08, 0x09, 0x0A, 0x0B, 0x0C, 0x0D, 0x0E, 0x0F, 0x10,
                                  0x20, 0x21, 0x22, 0x23, 0x24, 0x25, 0x26, 0x27, 0x28, 0x29, 0x2A, 0x2B]

  /** TDIE_ADC, the die-temperature code. */
  const TDIE_ADC: nat := 0x3A

  /** Reg_ReadAndClearInterrupt reads each interrupt flag register twice: SYSTEM_INT, VRECT_INT, BATCHG_INT. */
  const INT_READS: seq<I2cOp> := [Read(0x01), Read(0x01), Read(0x03), Read(0x03), Read(0x05), Read(0x05)]

  /** The write-out touches each register once, in address order, and neither the ID, an interrupt flag nor an ADC result. */
  lemma WriteAddrsWritable()
    ensures |WRITE_ADDRS| == 24
    ensures forall i, j :: 0 <= i < j < |WRITE_ADDRS| ==> WRITE_ADDRS[i] < WRITE_ADDRS[j]
    ensures forall i :: 0 <= i < |WRITE_ADDRS| ==>
              WRITE_ADDRS[i] !in {0x00, 0x01, 0x03, 0x05} && WRITE_ADDRS[i] < 0x30
  {
  }

  /** What Reg_WriteVal did from log `l0` with shadow `reg`: the registers of WRITE_ADDRS written in order, up to the first failure. */
  ghost predicate WroteVal(l0: seq<I2cOp>, l: seq<I2cOp>, reg: seq<U8>, i2cStatus: nat -> Status, rd: nat -> U8, status: Status)
    requires |reg| == NUM_OF_ADDRS
  {
    RunResult(l0, l, reg, reg, WritesOf(reg, WRITE_ADDRS), i2cStatus, rd, status)
  }

  /** RegStruct_SetValToDefault: the reset value of each register. */
  function DefaultAt(a: int): U8
  {
    match a
    case 0x00 => 0x08
    case 0x09 => 0x10
    case 0x0B => 0x02
    case 0x0D => 0x06
    case 0x0E => 0x7F
    case 0x0F => 0x83
    case 0x20 => 0xAA
    case 0x21 => 0x08
    case 0x22 => 0x04
    case 0x23 => 0x08
    case 0x24 => 0x44
    case 0x25 => 0x1E
    case 0x26 => 0x95
    case 0x27 => 0x24
    case _ => 0x00
  }

  function Defaults(): (r: seq<U8>)
    ensures |r| == NUM_OF_ADDRS
  {
    seq(NUM_OF_ADDRS, a => DefaultAt(a))
  }

  /** The defaults give the device ID 0x08, clear every interrupt flag and every ADC result. */
  lemma DefaultsClearFlagsAndResults()
    ensures Defaults()[0x00] == 0x08
    ensures forall a :: (a == 0x01 || a == 0x03 || a == 0x05 || 0x30 <= a < NUM_OF_ADDRS) ==> Defaults()[a] == 0
  {
  }

  class Pca9430 {
    /** The register shadow, indexed by address. */
    var reg: seq<U8>
    /** Every I2C register access so far, in order. */
    var log: seq<I2cOp>
    var isInit: bool
    var wasCtorCalled: bool

    ghost predicate Valid()
      reads this
    {
      |reg| == NUM_OF_ADDRS
    }

    /** The constructor: every register zero (RegStruct_SetValToZero), not initialised. */
    constructor ()
      ensures Valid() && log == [] && !isInit && wasCtorCalled
      ensures forall a :: 0 <= a < NUM_OF_ADDRS ==> reg[a] == 0
    {
      reg := seq(NUM_OF_ADDRS, _ => 0);
      log := [];
      isInit := false;
      wasCtorCalled := true;
    }

    /** One I2C transaction. A successful read stores the byte returned; a failed one leaves the shadow alone. */
    method Transfer(op: I2cOp, i2cStatus: nat -> Status, rd: nat -> U8) returns (status: Status)
      requires Valid() && op.addr < NUM_OF_ADDRS
      modifies this`reg, this`log
      ensures Valid() && log == old(log) + [op] && status == i2cStatus(|old(log)|)
      ensures reg == if status == Ok then Apply(old(reg), op, rd(|old(log)|)) else old(reg)
    {
      status := i2cStatus(|log|);
      if status == Ok {
        reg := Apply(reg, op, rd(|log|));
      }
      log := log + [op];
    }

    /** Reg_Read: read one register into the shadow. */
    method RegRead(addr: nat, i2cStatus: nat -> Status, rd: nat -> U8) returns (status: Status)
      requires Valid() && addr < NUM_OF_ADDRS
      modifies this`reg, this`log
      ensures Valid() && log == old(log) + [Read(addr)] && status == i2cStatus(|old(log)|)
      ensures reg == if status == Ok then old(reg)[addr := rd(|old(log)|)] else old(reg)
    {
      status := Transfer(Read(addr), i2cStatus, rd);
    }

    /** Reg_Write: send one register's shadow value. */
    method RegWrite(addr: nat, i2cStatus: nat -> Status, rd: nat -> U8) returns (status: Status)
      requires Valid() && addr < NUM_OF_ADDRS
      modifies this`reg, this`log
      ensures Valid() && reg == old(reg)
      ensures log == old(log) + [Write(addr, reg[addr])] && status == i2cStatus(|old(log)|)
    {
      status := Transfer(Write(addr, reg[addr]), i2cStatus, rd);
    }

    /** A straight-line sequence of register accesses, returning at the first one that fails. */
    method RunOps(ops: seq<I2cOp>, i2cStatus: nat -> Status, rd: nat -> U8) returns (status: Status)
      requires Valid() && OpsValid(ops)
      modifies this`reg, this`log
      ensures Valid() && RunResult(old(log), log, old(reg), reg, ops, i2cStatus, rd, status)
    {
      ghost var l0, r0 := log, reg;
      var i := 0;
      while i < |ops|
        invariant Valid() && RanOk(l0, log, r0, reg, ops, i2cStatus, rd, i)
      {
        ghost var prevLog, prevReg := log, reg;
        status := Transfer(ops[i], i2cStatus, rd);
        if status != Ok {
          RunStops(l0, prevLog, r0, prevReg, ops, i2cStatus, rd, i);
          return;
        }
        RanNext(l0, prevLog, r0, prevReg, ops, i2cStatus, rd, i);
        i := i + 1;
      }
      RunDone(l0, log, r0, reg, ops, i2cStatus, rd);
      return Ok;
    }

    /** Reg_WriteVal: the twenty-four configuration and charger registers, in order; the shadow is unchanged. */
    method WriteVal(i2cStatus: nat -> Status, rd: nat -> U8) returns (status: Status)
      requires Valid()
      modifies this`reg, this`log
      ensures Valid() && reg == old(reg) && WroteVal(old(log), log, reg, i2cStatus, rd, status)
    {
      ghost var l0 := log;
      var ops := WritesOf(reg, WRITE_ADDRS);
      WritesKeepShadow(reg, ops, |l0|, rd, Succeeded(|l0|, |ops|, i2cStatus));
      status := RunOps(ops, i2cStatus, rd);
    }

    /**
     * Init: on an I2C peripheral failure nothing else happens. Otherwise the
     * shadow is set to the defaults and then to the application's values
     * (the weak RegStruct_SetVal, here `setVal`), those are written out, and
     * the driver is initialised exactly when every write succeeded.
     */
    method Init(i2cInit: Status, setVal: seq<U8> -> seq<U8>, i2cStatus: nat -> Status, rd: nat -> U8) returns (status: Status)
      requires Valid() && wasCtorCalled && !isInit
      requires |setVal(Defaults())| == NUM_OF_ADDRS
      modifies this`reg, this`log, this`isInit
      ensures Valid()
      ensures i2cInit != Ok ==> status == i2cInit && reg == old(reg) && log == old(log) && !isInit
      ensures i2cInit == Ok ==> reg == setVal(Defaults())
                                && WroteVal(old(log), log, reg, i2cStatus, rd, status)
                                && (isInit <==> status == Ok)
    {
      if i2cInit != Ok {
        return i2cInit;
      }
      reg := setVal(Defaults());
      status := WriteVal(i2cStatus, rd);
      if status != Ok {
        return;
      }
      isInit := true;
      return Ok;
    }

    /** DeInit: the driver is no longer initialised; Ok, as in the PCA9431 driver (this one ends without a return statement). */
    method DeInit() returns (status: Status)
      requires isInit && wasCtorCalled
      modifies this`isInit
      ensures !isInit && status == Ok
    {
      isInit := false;
      return Ok;
    }

    /** The 10-bit result of one ADC channel: its high register, then its low one, each read into the shadow. */
    method ReadAdc(ch: AdcCh, i2cStatus: nat -> Status, rd: nat -> U8) returns (status: Status, code: nat)
      requires Valid() && isInit && wasCtorCalled
      modifies this`reg, this`log
      ensures Valid() && RunResult(old(log), log, old(reg), reg, AdcReads(ch), i2cStatus, rd, status)
      ensures status == Ok ==> code == AdcCode(rd(|old(log)|), rd(|old(log)| + 1)) && code < 1024
    {
      ghost var l0, r0 := log, reg;
      status := RunOps(AdcReads(ch), i2cStatus, rd);
      if status != Ok {
        return status, 0;
      }
      AdcReadsStore(l0, log, r0, reg, ch, i2cStatus, rd);
      code := AdcCode(reg[AdcHighAddr(ch)], reg[AdcHighAddr(ch) + 1]);
      AdcCodeFields(reg[AdcHighAddr(ch)], reg[AdcHighAddr(ch) + 1]);
    }

    /** ChargerVout_GetVoltage_V: 5.27 mV per code; on failure the output keeps its value `v0`. */
    method ChargerVoutGetVoltage(i2cStatus: nat -> Status, rd: nat -> U8, v0: real) returns (status: Status, voltage: real)
      requires Valid() && isInit && wasCtorCalled
      modifies this`reg, this`log
      ensures Valid() && RunResult(old(log), log, old(reg), reg, AdcReads(Vout), i2cStatus, rd, status)
      ensures status == Ok ==> voltage == AdcCode(rd(|old(log)|), rd(|old(log)| + 1)) as real * 5.27 / 1000.0
                               && 0.0 <= voltage <= 1023.0 * 5.27 / 1000.0
      ensures status != Ok ==> voltage == v0
    {
      var code;
      status, code := ReadAdc(Vout, i2cStatus, rd);
      voltage := if status == Ok then code as real * 5.27 / 1000.0 else v0;
    }

    /** ChargerVout_GetCurrent_A: 421.9 uA per code. */
    method ChargerVoutGetCurrent(i2cStatus: nat -> Status, rd: nat -> U8, i0: real) returns (status: Status, current: real)
      requires Valid() && isInit && wasCtorCalled
      modifies this`reg, this`log
      ensures Valid() && RunResult(old(log), log, old(reg), reg, AdcReads(Iout), i2cStatus, rd, status)
      ensures status == Ok ==> current == AdcCode(rd(|old(log)|), rd(|old(log)| + 1)) as real * 421.9 / 1000000.0
                               && 0.0 <= current <= 1023.0 * 421.9 / 1000000.0
      ensures status != Ok ==> current == i0
    {
      var code;
      status, code := ReadAdc(Iout, i2cStatus, rd);
      current := if status == Ok then code as real * 421.9 / 1000000.0 else i0;
    }

    /** Rect_GetVoltage_V: 15.82 mV per code. */
    method RectGetVoltage(i2cStatus: nat -> Status, rd: nat -> U8, v0: real) returns (status: Status, voltage: real)
      requires Valid() && isInit && wasCtorCalled
      modifies this`reg, this`log
      ensures Valid() && RunResult(old(log), log, old(reg), reg, AdcReads(Vrect), i2cStatus, rd, status)
      ensures status == Ok ==> voltage == AdcCode(rd(|old(log)|), rd(|old(log)| + 1)) as real * 15.82 / 1000.0
                               && 0.0 <= voltage <= 1023.0 * 15.82 / 1000.0
      ensures status != Ok ==> voltage == v0
    {
      var code;
      status, code := ReadAdc(Vrect, i2cStatus, rd);
      voltage := if status == Ok then code as real * 15.82 / 1000.0 else v0;
    }

    /** Rect_GetCurrent_A: 421.9 uA per code. */
    method RectGetCurrent(i2cStatus: nat -> Status, rd: nat -> U8, i0: real) returns (status: Status, current: real)
      requires Valid() && isInit && wasCtorCalled
      modifies this`reg, this`log
      ensures Valid() && RunResult(old(log), log, old(reg), reg, AdcReads(Irect), i2cStatus, rd, status)
      ensures status == Ok ==> current == AdcCode(rd(|old(log)|), rd(|old(log)| + 1)) as real * 421.9 / 1000000.0
                               && 0.0 <= current <= 1023.0 * 421.9 / 1000000.0
      ensures status != Ok ==> current == i0
    {
      var code;
      status, code := ReadAdc(Irect, i2cStatus, rd);
      current := if status == Ok then code as real * 421.9 / 1000000.0 else i0;
    }

    /** VTune_GetVoltage_V: 3.32 mV per code. */
    method VTuneGetVoltage(i2cStatus: nat -> Status, rd: nat -> U8, v0: real) returns (status: Status, voltage: real)
      requires Valid() && isInit && wasCtorCalled
      modifies this`reg, this`log
      ensures Valid() && RunResult(old(log), log, old(reg), reg, AdcReads(Vtune), i2cStatus, rd, status)
      ensures status == Ok ==> voltage == AdcCode(rd(|old(log)|), rd(|old(log)| + 1)) as real * 3.32 / 1000.0
                               && 0.0 <= voltage <= 1023.0 * 3.32 / 1000.0
      ensures status != Ok ==> voltage == v0
    {
      var code;
      status, code := ReadAdc(Vtune, i2cStatus, rd);
      voltage := if status == Ok then code as real * 3.32 / 1000.0 else v0;
    }

    /** VTune_SetVoltage_V is not implemented: it reports Err and a zero voltage. */
    method VTuneSetVoltage() returns (status: Status, voltage: real)
      ensures status == Err && voltage == 0.0
    {
      return Err, 0.0;
    }

    /**
     * TempSens_GetTemp_degC, in tenths of a degree: read TDIE_ADC and look the
     * code up. A failed read returns its status with the output unchanged; a
     * code outside the table gives the 9999.9 sentinel and Err. A code in the
     * table gives Ok, the status the driver evidently intends.
     */
    method TempSensGetTemp(i2cStatus: nat -> Status, rd: nat -> U8, t0: int) returns (status: Status, tenths: int)
      requires Valid() && isInit && wasCtorCalled
      modifies this`reg, this`log
      ensures Valid() && log == old(log) + [Read(TDIE_ADC)]
      ensures var t := |old(log)|;
              if i2cStatus(t) != Ok then status == i2cStatus(t) && tenths == t0 && reg == old(reg)
              else reg == old(reg)[TDIE_ADC := rd(t)] && status == TempStatus(rd(t) as nat)
                   && tenths == (if TempTenths(rd(t) as nat).Some? then TempTenths(rd(t) as nat).value else TEMP_INVALID_TENTHS)
    {
      status := RegRead(TDIE_ADC, i2cStatus, rd);
      if status != Ok {
        return status, t0;
      }
      var code := reg[TDIE_ADC] as nat;
      match TempTenths(code)
      case Some(v) =>
        return Ok, v;
      case None =>
        return Err, TEMP_INVALID_TENTHS;
    }

    /** Reg_ReadAndClearInterrupt: each flag register is read twice, the first read clearing it; this driver does not require initialisation first. */
    method ReadAndClearInterrupt(i2cStatus: nat -> Status, rd: nat -> U8) returns (status: Status)
      requires Valid()
      modifies this`reg, this`log
      ensures Valid() && RunResult(old(log), log, old(reg), reg, INT_READS, i2cStatus, rd, status)
    {
      status := RunOps(INT_READS, i2cStatus, rd);
    }
  }

  /** After a successful interrupt read-out the shadow holds the second read of each flag register, and nothing else changed. */
  lemma InterruptReadsKeepSecond(l0: seq<I2cOp>, l: seq<I2cOp>, reg0: seq<U8>, reg: seq<U8>,
                                 i2cStatus: nat -> Status, rd: nat -> U8)
    requires RunResult(l0, l, reg0, reg, INT_READS, i2cStatus, rd, Ok)
    ensures l == l0 + INT_READS
    ensures reg == reg0[0x01 := rd(|l0| + 1)][0x03 := rd(|l0| + 3)][0x05 := rd(|l0| + 5)]
  {
    RunOkIffAll(l0, l, reg0, reg, INT_READS, i2cStatus, rd, Ok);
    var t := |l0|;
    assert AfterOps(reg0, INT_READS, t, rd, 1) == reg0[0x01 := rd(t)];
    var r1 := reg0[0x01 := rd(t)][0x01 := rd(t + 1)];
    assert AfterOps(reg0, INT_READS, t, rd, 2) == r1;
    assert AfterOps(reg0, INT_READS, t, rd, 3) == r1[0x03 := rd(t + 2)];
    var r3 := r1[0x03 := rd(t + 2)][0x03 := rd(t + 3)];
    assert AfterOps(reg0, INT_READS, t, rd, 4) == r3;
    assert AfterOps(reg0, INT_READS, t, rd, 5) == r3[0x05 := rd(t + 4)];
    assert reg == r3[0x05 := rd(t + 4)][0x05 := rd(t + 5)];
  }

  /** Initialisation succeeds exactly when every one of the twenty-four writes does. */
  lemma WriteValOkIffAll(l0: seq<I2cOp>, l: seq<I2cOp>, reg: seq<U8>, i2cStatus: nat -> Status, rd: nat -> U8, status: Status)
    requires |reg| == NUM_OF_ADDRS && WroteVal(l0, l, reg, i2cStatus, rd, status)
    ensures status == Ok <==> forall j :: |l0| <= j < |l0| + 24 ==> i2cStatus(j) == Ok
    ensures status == Ok ==> l == l0 + WritesOf(reg, WRITE_ADDRS)
  {
    WriteAddrsWritable();
    RunOkIffAll(l0, l, reg, reg, WritesOf(reg, WRITE_ADDRS), i2cStatus, rd, status);
  }
}
