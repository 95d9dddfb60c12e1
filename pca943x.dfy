/**
 * What the PCA9430 and PCA9431 wireless-power receiver drivers share: the
 * register bank of one-byte registers at I2C memory addresses 0x00 to 0x3C,
 * the straight-line sequences of register reads and writes that stop at the
 * first failure, the 10-bit ADC result assembled from a high and a low
 * register, and the die-temperature table.
 *
 * Every register access is one I2C transaction: `i2cStatus(n)` is the status
 * of transaction number `n` and `rd(n)` the byte a read transaction returned.
 */
module AlxPca943x {
  import opened AlxCommon

  /** The register shadow covers addresses 0x00 to 0x3C. */
  const NUM_OF_ADDRS: nat := 0x3D

  /** One register access: Reg_Read or Reg_Write of a one-byte register. */
  datatype I2cOp = Read(addr: nat) | Write(addr: nat, val: U8)

  predicate OpsValid(ops: seq<I2cOp>)
  {
    forall i :: 0 <= i < |ops| ==> ops[i].addr < NUM_OF_ADDRS
  }

  /** The shadow after one successful access: a read stores the byte returned, a write changes nothing. */
  function Apply(reg: seq<U8>, op: I2cOp, v: U8): (r: seq<U8>)
    requires |reg| == NUM_OF_ADDRS && op.addr < NUM_OF_ADDRS
    ensures |r| == NUM_OF_ADDRS
  {
    match op
    case Read(a) => reg[a := v]
    case Write(_, _) => reg
  }

  /** The shadow after the first `k` accesses of `ops`, all successful, starting at transaction `t`. */
  function AfterOps(reg: seq<U8>, ops: seq<I2cOp>, t: nat, rd: nat -> U8, k: nat): (r: seq<U8>)
    requires |reg| == NUM_OF_ADDRS && OpsValid(ops) && k <= |ops|
    ensures |r| == NUM_OF_ADDRS
  {
    if k == 0 then reg else Apply(AfterOps(reg, ops, t, rd, k - 1), ops[k - 1], rd(t + k - 1))
  }

  /** Writes never change the shadow, so a sequence of writes leaves it as it was. */
  lemma {:induction false} WritesKeepShadow(reg: seq<U8>, ops: seq<I2cOp>, t: nat, rd: nat -> U8, k: nat)
    requires |reg| == NUM_OF_ADDRS && OpsValid(ops) && k <= |ops|
    requires forall i :: 0 <= i < |ops| ==> ops[i].Write?
    ensures AfterOps(reg, ops, t, rd, k) == reg
  {
    if k > 0 {
      WritesKeepShadow(reg, ops, t, rd, k - 1);
    }
  }

  /** Reg_Write of each register in `addrs`, in order, each sending the register's shadow value. */
  function WritesOf(reg: seq<U8>, addrs: seq<nat>): (ops: seq<I2cOp>)
    requires |reg| == NUM_OF_ADDRS && forall i :: 0 <= i < |addrs| ==> addrs[i] < NUM_OF_ADDRS
    ensures |ops| == |addrs| && OpsValid(ops)
    ensures forall i :: 0 <= i < |addrs| ==> ops[i] == Write(addrs[i], reg[addrs[i]])
  {
    if addrs == [] then [] else [Write(addrs[0], reg[addrs[0]])] + WritesOf(reg, addrs[1..])
  }

  /** The number of accesses that succeeded: all of them, or all before the one that failed. */
  function Succeeded(t: nat, n: nat, i2cStatus: nat -> Status): (k: nat)
    ensures k <= n
  {
    if Outcome(t, n, i2cStatus) == Ok then n else Tried(t, n, i2cStatus) - 1
  }

  /** After the first `i` accesses of a sequence, all of which succeeded. */
  ghost predicate RanOk(l0: seq<I2cOp>, l: seq<I2cOp>, reg0: seq<U8>, reg: seq<U8>, ops: seq<I2cOp>,
                        i2cStatus: nat -> Status, rd: nat -> U8, i: nat)
  {
    |reg0| == NUM_OF_ADDRS && OpsValid(ops) && i <= |ops|
    && l == l0 + ops[..i] && reg == AfterOps(reg0, ops, |l0|, rd, i)
    && forall j :: |l0| <= j < |l0| + i ==> i2cStatus(j) == Ok
  }

  /**
   * What running `ops` in order from log `l0` and shadow `reg0` did: the
   * status is that of the first failing access (Ok if none), the log holds
   * the accesses up to and including it, and the shadow holds what the
   * successful reads returned.
   */
  ghost predicate RunResult(l0: seq<I2cOp>, l: seq<I2cOp>, reg0: seq<U8>, reg: seq<U8>, ops: seq<I2cOp>,
                            i2cStatus: nat -> Status, rd: nat -> U8, status: Status)
  {
    |reg0| == NUM_OF_ADDRS && OpsValid(ops)
    && status == Outcome(|l0|, |ops|, i2cStatus)
    && l == l0 + ops[..Tried(|l0|, |ops|, i2cStatus)]
    && reg == AfterOps(reg0, ops, |l0|, rd, Succeeded(|l0|, |ops|, i2cStatus))
  }

  lemma RanNext(l0: seq<I2cOp>, l: seq<I2cOp>, reg0: seq<U8>, reg: seq<U8>, ops: seq<I2cOp>,
                i2cStatus: nat -> Status, rd: nat -> U8, i: nat)
    requires RanOk(l0, l, reg0, reg, ops, i2cStatus, rd, i) && i < |ops|
    requires i2cStatus(|l|) == Ok
    ensures RanOk(l0, l + [ops[i]], reg0, Apply(reg, ops[i], rd(|l|)), ops, i2cStatus, rd, i + 1)
  {
    assert ops[..i + 1] == ops[..i] + [ops[i]];
  }

  lemma RunStops(l0: seq<I2cOp>, l: seq<I2cOp>, reg0: seq<U8>, reg: seq<U8>, ops: seq<I2cOp>,
                 i2cStatus: nat -> Status, rd: nat -> U8, i: nat)
    requires RanOk(l0, l, reg0, reg, ops, i2cStatus, rd, i) && i < |ops|
    requires i2cStatus(|l|) != Ok
    ensures RunResult(l0, l + [ops[i]], reg0, reg, ops, i2cStatus, rd, i2cStatus(|l|))
  {
    StopsAt(|l0|, i, |ops|, i2cStatus);
    assert ops[..i + 1] == ops[..i] + [ops[i]];
  }

  lemma RunDone(l0: seq<I2cOp>, l: seq<I2cOp>, reg0: seq<U8>, reg: seq<U8>, ops: seq<I2cOp>,
                i2cStatus: nat -> Status, rd: nat -> U8)
    requires RanOk(l0, l, reg0, reg, ops, i2cStatus, rd, |ops|)
    ensures RunResult(l0, l, reg0, reg, ops, i2cStatus, rd, Ok)
  {
    AllSucceed(|l0|, |ops|, i2cStatus);
    assert ops[..|ops|] == ops;
  }

  /** A run succeeds exactly when every access does, and then it performed all of them. */
  lemma RunOkIffAll(l0: seq<I2cOp>, l: seq<I2cOp>, reg0: seq<U8>, reg: seq<U8>, ops: seq<I2cOp>,
                    i2cStatus: nat -> Status, rd: nat -> U8, status: Status)
    requires RunResult(l0, l, reg0, reg, ops, i2cStatus, rd, status)
    ensures status == Ok <==> forall j :: |l0| <= j < |l0| + |ops| ==> i2cStatus(j) == Ok
    ensures status == Ok ==> l == l0 + ops && reg == AfterOps(reg0, ops, |l0|, rd, |ops|)
    ensures status != Ok ==> |l| < |l0| + |ops| + 1 && i2cStatus(|l| - 1) == status
  {
    OutcomeOfSteps(|l0|, |ops|, i2cStatus);
    assert ops[..|ops|] == ops;
  }

  // ---------------------------------------------------------------------
  // ADC results
  // ---------------------------------------------------------------------

  /** The five 10-bit ADC results and the address of each one's high register; the low register follows it. */
  datatype AdcCh = Vrect | Vtune | Vout | Iout | Irect

  function AdcHighAddr(ch: AdcCh): (a: nat)
    ensures 0x30 <= a <= 0x38 && a % 2 == 0
  {
    match ch
    case Vrect => 0x30
    case Vtune => 0x32
    case Vout => 0x34
    case Iout => 0x36
    case Irect => 0x38
  }

  /** The two reads of an ADC result: high register, then low register. */
  function AdcReads(ch: AdcCh): (ops: seq<I2cOp>)
    ensures OpsValid(ops)
  {
    [Read(AdcHighAddr(ch)), Read(AdcHighAddr(ch) + 1)]
  }

  /** The 10-bit code: the high register's eight bits, then bits 7:6 of the low register. */
  function AdcCode(h: U8, l: U8): nat
  {
    h as nat * 4 + (l >> 6) as nat
  }

  /** The code fits 10 bits, and splitting it gives back the high byte and the two top bits of the low byte. */
  lemma AdcCodeFields(h: U8, l: U8)
    ensures AdcCode(h, l) < 1024
    ensures AdcCode(h, l) / 4 == h as nat && AdcCode(h, l) % 4 == (l >> 6) as nat
  {
    assert (l >> 6) as nat < 4;
  }

  /** The driver's uint16_t arithmetic, (h << 2) + (l >> 6), never wraps and gives the same code. */
  lemma AdcCodeInUint16(h: U8, l: U8)
    ensures (((h as U16) << 2) + ((l >> 6) as U16)) as nat == AdcCode(h, l)
  {
    var hi: U16 := h as U16;
    assert hi < 0x100;
    assert (hi << 2) as nat == h as nat * 4;
    assert ((l >> 6) as U16) as nat == (l >> 6) as nat;
  }

  /** After both reads of an ADC result succeeded, the shadow holds the two bytes returned, high then low. */
  lemma AdcReadsStore(l0: seq<I2cOp>, l: seq<I2cOp>, reg0: seq<U8>, reg: seq<U8>, ch: AdcCh,
                      i2cStatus: nat -> Status, rd: nat -> U8)
    requires RunResult(l0, l, reg0, reg, AdcReads(ch), i2cStatus, rd, Ok)
    ensures l == l0 + AdcReads(ch)
    ensures reg == reg0[AdcHighAddr(ch) := rd(|l0|)][AdcHighAddr(ch) + 1 := rd(|l0| + 1)]
  {
    RunOkIffAll(l0, l, reg0, reg, AdcReads(ch), i2cStatus, rd, Ok);
    assert AfterOps(reg0, AdcReads(ch), |l0|, rd, 1) == reg0[AdcHighAddr(ch) := rd(|l0|)];
  }

  // ---------------------------------------------------------------------
  // Die temperature
  // ---------------------------------------------------------------------

  /**
   * TempSens_GetTemp_degC's switch on the TDIE code, in tenths of a degree
   * Celsius; None for codes above 47, where the driver returns Err.
   */
  function TempTenths(code: nat): (r: Option<int>)
    ensures r.Some? <==> code < 48
  {
    match code
    case 0 => Some(-430)
    case 1 => Some(-390)
    case 2 => Some(-350)
    case 3 => Some(-300)
    case 4 => Some(-260)
    case 5 => Some(-210)
    case 6 => Some(-170)
    case 7 => Some(-125)
    case 8 => Some(-80)
    case 9 => Some(-40)
    case 10 => Some(0)
    case 11 => Some(50)
    case 12 => Some(90)
    case 13 => Some(135)
    case 14 => Some(180)
    case 15 => Some(225)
    case 16 => Some(270)
    case 17 => Some(310)
    case 18 => Some(350)
    case 19 => Some(400)
    case 20 => Some(440)
    case 21 => Some(480)
    case 22 => Some(530)
    case 23 => Some(570)
    case 24 => Some(620)
    case 25 => Some(655)
    case 26 => Some(710)
    case 27 => Some(750)
    case 28 => Some(795)
    case 29 => Some(840)
    case 30 => Some(880)
    case 31 => Some(920)
    case 32 => Some(960)
    case 33 => Some(1005)
    case 34 => Some(1050)
    case 35 => Some(1090)
    case 36 => Some(1140)
    case 37 => Some(1180)
    case 38 => Some(1220)
    case 39 => Some(1260)
    case 40 => Some(1300)
    case 41 => Some(1345)
    case 42 => Some(1380)
    case 43 => Some(1410)
    case 44 => Some(1450)
    case 45 => Some(1480)
    case 46 => Some(1520)
    case 47 => Some(1560)
    case _ => None
  }

  /** The sentinel the driver stores for a code outside the table: 9999.9 degrees. */
  const TEMP_INVALID_TENTHS: int := 99999

  /**
   * The status TempSens_GetTemp_degC returns for a TDIE code, as written:
   * a code in the table only breaks out of the switch, and the function then
   * ends without a return statement, so no status is defined (None); a code
   * outside the table returns Err.
   */
  function TempStatusAsWritten(code: nat): (r: Option<Status>)
    ensures r.None? <==> TempTenths(code).Some?
  {
    if code < 48 then None else Some(Err)
  }

  /** Code 10, 0.0 degrees, is a valid reading whose status is undefined as written. */
  lemma TempStatusUndefinedForValidCode()
    ensures TempTenths(10) == Some(0) && TempStatusAsWritten(10).None?
  {
  }

  /** The status the driver evidently intends: Ok exactly for the codes the table converts. */
  function TempStatus(code: nat): (s: Status)
    ensures s == Ok <==> TempTenths(code).Some?
    ensures s == Err <==> TempStatusAsWritten(code) == Some(Err)
  {
    if code < 48 then Ok else Err
  }

  /** The table rises strictly from one code to the next. */
  lemma TempTableSteps(i: nat)
    requires i < 47
    ensures TempTenths(i).value < TempTenths(i + 1).value
  {
  }

  /** So a higher code always means a higher temperature, from -43.0 to 156.0 degrees. */
  lemma {:induction false} TempIncreasing(a: nat, b: nat)
    requires a < b < 48
    ensures TempTenths(a).value < TempTenths(b).value
    ensures TempTenths(0) == Some(-430) && TempTenths(47) == Some(1560)
    decreases b - a
  {
    TempTableSteps(a);
    if a + 1 < b {
      TempIncreasing(a + 1, b);
    }
  }
}
