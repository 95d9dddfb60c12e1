/**
 * The CDCE913 programmable clock synthesiser: the shadow copies of its
 * divider, spread-spectrum and PLL1 bit fields, the range-checked
 * setters that split a value across two registers, the initial
 * configuration and the Y1 output-frequency selection. Each bit field
 * is a natural number no wider than the field; the register bytes are
 * assembled from the fields as the bit-field layout of the registers does.
 */
module AlxCdce913 {
  import opened AlxCommon

  /** The bit fields of one PLL1 configuration (PLL1_0 or PLL1_1, four registers each). */
  datatype Pll = Pll(n_4_11: nat, n_0_3: nat, r_5_8: nat, r_0_4: nat,
                     q_3_5: nat, q_0_2: nat, p: nat, vcoRange: nat)

  /** Every PLL field within its width. */
  predicate PllFits(c: Pll)
  {
    && c.n_4_11 < 256 && c.n_0_3 < 16 && c.r_5_8 < 16 && c.r_0_4 < 32
    && c.q_3_5 < 8 && c.q_0_2 < 8 && c.p < 8 && c.vcoRange < 4
  }

  /** The modelled bit fields of the register map. */
  datatype Regs = Regs(
    inclk: nat, pdiv1_8_9: nat, pdiv1_0_7: nat, xcsel: nat,
    ssc1_0: nat, ssc1_1: nat, ssc1_2_0_1: nat, ssc1_2_2: nat, ssc1_3: nat,
    ssc1_4: nat, ssc1_5_0: nat, ssc1_5_1_2: nat, ssc1_6: nat, ssc1_7: nat,
    pll0: Pll, pll1: Pll)

  /** Every field within its width. */
  predicate RegsFit(r: Regs)
  {
    && r.inclk < 4 && r.pdiv1_8_9 < 4 && r.pdiv1_0_7 < 256 && r.xcsel < 32
    && r.ssc1_0 < 8 && r.ssc1_1 < 8 && r.ssc1_2_0_1 < 4 && r.ssc1_2_2 < 2
    && r.ssc1_3 < 8 && r.ssc1_4 < 8 && r.ssc1_5_0 < 2 && r.ssc1_5_1_2 < 4
    && r.ssc1_6 < 8 && r.ssc1_7 < 8 && PllFits(r.pll0) && PllFits(r.pll1)
  }

  /** Cdce913_RegStructInit: the register structure is cleared. */
  const ZERO_PLL := Pll(0, 0, 0, 0, 0, 0, 0, 0)
  const ZERO_REGS := Regs(0, 0, 0, 0, 0, 0, 0, 0, 0, 0, 0, 0, 0, 0, ZERO_PLL, ZERO_PLL)

  // Values carried by more than one bit field.

  function Pdiv1(r: Regs): nat { r.pdiv1_8_9 * 256 + r.pdiv1_0_7 }
  function Ssc1_2(r: Regs): nat { r.ssc1_2_2 * 4 + r.ssc1_2_0_1 }
  function Ssc1_5(r: Regs): nat { r.ssc1_5_1_2 * 2 + r.ssc1_5_0 }
  function PllN(c: Pll): nat { c.n_4_11 * 16 + c.n_0_3 }
  function PllR(c: Pll): nat { c.r_5_8 * 32 + c.r_0_4 }
  function PllQ(c: Pll): nat { c.q_3_5 * 8 + c.q_0_2 }

  // The register bytes of a PLL configuration; the first field declared is the least significant.

  function PllCfg0(c: Pll): nat { c.n_4_11 }
  function PllCfg1(c: Pll): nat { c.r_5_8 + 16 * c.n_0_3 }
  function PllCfg2(c: Pll): nat { c.q_3_5 + 8 * c.r_0_4 }
  function PllCfg3(c: Pll): nat { c.vcoRange + 4 * c.p + 32 * c.q_0_2 }

  /** The four register bytes hold N in CFG0 and the top of CFG1, R across CFG1 and CFG2, Q across CFG2 and CFG3. */
  lemma PllFromRegisterBytes(c: Pll)
    requires PllFits(c)
    ensures PllCfg0(c) < 256 && PllCfg1(c) < 256 && PllCfg2(c) < 256 && PllCfg3(c) < 256
    ensures PllN(c) == PllCfg0(c) * 16 + PllCfg1(c) / 16
    ensures PllR(c) == (PllCfg1(c) % 16) * 32 + PllCfg2(c) / 8
    ensures PllQ(c) == (PllCfg2(c) % 8) * 8 + PllCfg3(c) / 32
    ensures c.p == (PllCfg3(c) / 4) % 8
  {
    SplitField(c.r_5_8, c.n_0_3, 16);
    SplitField(c.q_3_5, c.r_0_4, 8);
    SplitField(c.vcoRange + 4 * c.p, c.q_0_2, 32);
    SplitField(c.vcoRange, c.p + 8 * c.q_0_2, 4);
    SplitField(c.p, c.q_0_2, 8);
  }

  /** A field of `k` values below a field `hi` is recovered by division and remainder. */
  lemma SplitField(lo: nat, hi: nat, k: nat)
    requires k == 4 || k == 8 || k == 16 || k == 32
    requires lo < k
    ensures (lo + k * hi) / k == hi && (lo + k * hi) % k == lo
  {
  }

  // The range checks of the setters.

  predicate Pdiv1InRange(v: nat) { v <= 1023 }
  predicate NInRange(v: nat) { v != 0 && v <= 4095 }
  predicate RInRange(v: nat) { v <= 511 }
  predicate QInRange(v: nat) { 16 <= v <= 63 }
  predicate PInRange(v: nat) { v <= 7 }

  /** The eight modulation amounts of the spread-spectrum fields (SSC_MOD_AMOUNT). */
  type SscAmount = n: nat | n < 8

  /** Cdce913_SetPdiv1 on an accepted value: bits 8..9 to DEV_CTRL1, bits 0..7 to PDIV1_LSB. */
  function WithPdiv1(r: Regs, v: nat): (r': Regs)
    requires Pdiv1InRange(v)
    ensures Pdiv1(r') == v && r'.pdiv1_8_9 < 4 && r'.pdiv1_0_7 < 256
    ensures r'.(pdiv1_8_9 := r.pdiv1_8_9, pdiv1_0_7 := r.pdiv1_0_7) == r
  {
    r.(pdiv1_8_9 := v / 256, pdiv1_0_7 := v % 256)
  }

  /** Cdce913_SetSsc1_2: bits 0..1 to CON_SSC2, bit 2 to CON_SSC1. */
  function WithSsc1_2(r: Regs, v: SscAmount): (r': Regs)
    ensures Ssc1_2(r') == v && r'.ssc1_2_0_1 < 4 && r'.ssc1_2_2 < 2
    ensures r'.(ssc1_2_0_1 := r.ssc1_2_0_1, ssc1_2_2 := r.ssc1_2_2) == r
  {
    r.(ssc1_2_0_1 := v % 4, ssc1_2_2 := v / 4)
  }

  /** Cdce913_SetSsc1_5: bit 0 to CON_SSC1, bits 1..2 to CON_SSC0. */
  function WithSsc1_5(r: Regs, v: SscAmount): (r': Regs)
    ensures Ssc1_5(r') == v && r'.ssc1_5_0 < 2 && r'.ssc1_5_1_2 < 4
    ensures r'.(ssc1_5_0 := r.ssc1_5_0, ssc1_5_1_2 := r.ssc1_5_1_2) == r
  {
    r.(ssc1_5_0 := v % 2, ssc1_5_1_2 := v / 2)
  }

  /** Cdce913_SetPll1_xN on an accepted value: bits 4..11 to CFG0, bits 0..3 to CFG1. */
  function WithN(c: Pll, v: nat): (c': Pll)
    requires NInRange(v)
    ensures PllN(c') == v && c'.n_4_11 < 256 && c'.n_0_3 < 16
    ensures c'.(n_4_11 := c.n_4_11, n_0_3 := c.n_0_3) == c
  {
    c.(n_4_11 := v / 16, n_0_3 := v % 16)
  }

  /** Cdce913_SetPll1_xR on an accepted value: bits 5..8 to CFG1, bits 0..4 to CFG2. */
  function WithR(c: Pll, v: nat): (c': Pll)
    requires RInRange(v)
    ensures PllR(c') == v && c'.r_5_8 < 16 && c'.r_0_4 < 32
    ensures c'.(r_5_8 := c.r_5_8, r_0_4 := c.r_0_4) == c
  {
    c.(r_5_8 := v / 32, r_0_4 := v % 32)
  }

  /** Cdce913_SetPll1_xQ on an accepted value: bits 3..5 to CFG2, bits 0..2 to CFG3. */
  function WithQ(c: Pll, v: nat): (c': Pll)
    requires QInRange(v)
    ensures PllQ(c') == v && c'.q_3_5 < 8 && c'.q_0_2 < 8
    ensures c'.(q_3_5 := c.q_3_5, q_0_2 := c.q_0_2) == c
  {
    c.(q_3_5 := v / 8, q_0_2 := v % 8)
  }

  /** Cdce913_SetPll1_xP on an accepted value: the 3-bit P field of CFG3. */
  function WithP(c: Pll, v: nat): (c': Pll)
    requires PInRange(v)
    ensures c'.p == v && c'.p < 8
    ensures c'.(p := c.p) == c
  {
    c.(p := v)
  }

  /** The PLL configuration SetInitialConfig programs into both PLL1_0 and PLL1_1. */
  const INIT_N: nat := 3125
  const INIT_R: nat := 20
  const INIT_Q: nat := 26
  const INIT_P: nat := 2

  /** Every value SetInitialConfig hands to a setter passes that setter's range check. */
  lemma InitialValuesInRange()
    ensures Pdiv1InRange(0) && NInRange(INIT_N) && RInRange(INIT_R) && QInRange(INIT_Q) && PInRange(INIT_P)
  {
  }

  /** A PLL programmed with the initial values, VCO range 0 (below 125 MHz). */
  function InitialPll(c: Pll): (c': Pll)
    ensures PllN(c') == INIT_N && PllR(c') == INIT_R && PllQ(c') == INIT_Q && c'.p == INIT_P
    ensures c'.vcoRange == 0 && PllFits(c')
  {
    WithP(WithQ(WithR(WithN(c, INIT_N), INIT_R), INIT_Q), INIT_P).(vcoRange := 0)
  }

  /**
   * Cdce913_SetInitialConfig on the modelled fields: the input clock and
   * crystal load capacitance, PDIV1 = 0, every spread-spectrum amount off
   * and both PLL configurations at N = 3125, R = 20, Q = 26, P = 2.
   */
  function InitialConfig(r: Regs, xtalSource: nat, xtalCapacitance_pF: nat): (r': Regs)
    requires xtalSource < 4 && xtalCapacitance_pF <= 20
    ensures r'.inclk == xtalSource && r'.xcsel == xtalCapacitance_pF && Pdiv1(r') == 0
    ensures r'.ssc1_0 == 0 && r'.ssc1_1 == 0 && Ssc1_2(r') == 0 && r'.ssc1_3 == 0
    ensures r'.ssc1_4 == 0 && Ssc1_5(r') == 0 && r'.ssc1_6 == 0 && r'.ssc1_7 == 0
    ensures PllN(r'.pll0) == INIT_N && PllR(r'.pll0) == INIT_R && PllQ(r'.pll0) == INIT_Q && r'.pll0.p == INIT_P
    ensures r'.pll1 == InitialPll(r.pll1) && r'.pll0 == InitialPll(r.pll0)
    ensures RegsFit(r')
  {
    var a := WithPdiv1(r.(inclk := xtalSource, xcsel := xtalCapacitance_pF), 0);
    var b := WithSsc1_5(WithSsc1_2(a.(ssc1_0 := 0, ssc1_1 := 0), 0).(ssc1_3 := 0, ssc1_4 := 0), 0);
    b.(ssc1_6 := 0, ssc1_7 := 0, pll0 := InitialPll(b.pll0), pll1 := InitialPll(b.pll1))
  }

  /** AlxCdce913_OutputY1: 1024.0 kHz is enumerator 0, 819.2 kHz is enumerator 1. */
  const OUTPUT_Y1_1024KHZ0: nat := 0
  const OUTPUT_Y1_819KHZ2: nat := 1

  /** The crystal the driver requires, in Hz. */
  const XTAL_HZ: nat := 12288000

  /** The PDIV1 divider SetY1OutputFreq selects, None for an unknown frequency. */
  function Y1Divider(freq: nat): (d: Option<nat>)
    ensures d.Some? <==> freq == OUTPUT_Y1_1024KHZ0 || freq == OUTPUT_Y1_819KHZ2
    ensures d.Some? ==> Pdiv1InRange(d.value) && d.value > 0 && XTAL_HZ % d.value == 0
    ensures freq == OUTPUT_Y1_1024KHZ0 ==> d == Some(12) && XTAL_HZ / 12 == 1024000
    ensures freq == OUTPUT_Y1_819KHZ2 ==> d == Some(15) && XTAL_HZ / 15 == 819200
  {
    if freq == OUTPUT_Y1_1024KHZ0 then Some(12)
    else if freq == OUTPUT_Y1_819KHZ2 then Some(15)
    else None
  }

  const I2C_NUM_OF_TRIES: nat := 1
  const I2C_TIMEOUT_MS: nat := 1000

  class Cdce913 {
    var reg: Regs
    var i2cNumOfTries: nat
    var i2cTimeout_ms: nat
    /** The level of the PLL enable pin. */
    var pllEnable: bool
    var wasCtorCalled: bool
    var isInit: bool

    /** The constructor clears the register structure and sets one I2C try with a 1000 ms timeout. */
    constructor ()
      ensures reg == ZERO_REGS && i2cNumOfTries == I2C_NUM_OF_TRIES && i2cTimeout_ms == I2C_TIMEOUT_MS
      ensures wasCtorCalled && !isInit && !pllEnable
    {
      reg := ZERO_REGS;
      i2cNumOfTries, i2cTimeout_ms := I2C_NUM_OF_TRIES, I2C_TIMEOUT_MS;
      pllEnable := false;
      wasCtorCalled, isInit := true, false;
    }

    /** Cdce913_SetPdiv1: Err and no change above 1023, otherwise PDIV1 becomes `val`. */
    method SetPdiv1(val: nat) returns (status: Status)
      requires val < 0x10000
      modifies this`reg
      ensures status == (if Pdiv1InRange(val) then Ok else Err)
      ensures reg == (if Pdiv1InRange(val) then WithPdiv1(old(reg), val) else old(reg))
    {
      if val > 1023 { return Err; }
      reg := WithPdiv1(reg, val);
      status := Ok;
    }

    method SetSsc1_0(val: SscAmount) returns (status: Status)
      modifies this`reg
      ensures status == Ok && reg == old(reg).(ssc1_0 := val)
    {
      reg := reg.(ssc1_0 := val);
      status := Ok;
    }

    method SetSsc1_1(val: SscAmount) returns (status: Status)
      modifies this`reg
      ensures status == Ok && reg == old(reg).(ssc1_1 := val)
    {
      reg := reg.(ssc1_1 := val);
      status := Ok;
    }

    method SetSsc1_2(val: SscAmount) returns (status: Status)
      modifies this`reg
      ensures status == Ok && reg == WithSsc1_2(old(reg), val)
    {
      reg := WithSsc1_2(reg, val);
      status := Ok;
    }

    method SetSsc1_3(val: SscAmount) returns (status: Status)
      modifies this`reg
      ensures status == Ok && reg == old(reg).(ssc1_3 := val)
    {
      reg := reg.(ssc1_3 := val);
      status := Ok;
    }

    method SetSsc1_4(val: SscAmount) returns (status: Status)
      modifies this`reg
      ensures status == Ok && reg == old(reg).(ssc1_4 := val)
    {
      reg := reg.(ssc1_4 := val);
      status := Ok;
    }

    method SetSsc1_5(val: SscAmount) returns (status: Status)
      modifies this`reg
      ensures status == Ok && reg == WithSsc1_5(old(reg), val)
    {
      reg := WithSsc1_5(reg, val);
      status := Ok;
    }

    method SetSsc1_6(val: SscAmount) returns (status: Status)
      modifies this`reg
      ensures status == Ok && reg == old(reg).(ssc1_6 := val)
    {
      reg := reg.(ssc1_6 := val);
      status := Ok;
    }

    method SetSsc1_7(val: SscAmount) returns (status: Status)
      modifies this`reg
      ensures status == Ok && reg == old(reg).(ssc1_7 := val)
    {
      reg := reg.(ssc1_7 := val);
      status := Ok;
    }

    /** Cdce913_SetPll1_0N: Err and no change for 0 or above 4095; only PLL1_0 changes. */
    method SetPll1_0N(val: nat) returns (status: Status)
      requires val < 0x10000
      modifies this`reg
      ensures status == (if NInRange(val) then Ok else Err)
      ensures reg == (if NInRange(val) then old(reg).(pll0 := WithN(old(reg).pll0, val)) else old(reg))
    {
      if val == 0 || val > 4095 { return Err; }
      reg := reg.(pll0 := WithN(reg.pll0, val));
      status := Ok;
    }

    /** Cdce913_SetPll1_0R: Err and no change above 511; only PLL1_0 changes. */
    method SetPll1_0R(val: nat) returns (status: Status)
      requires val < 0x10000
      modifies this`reg
      ensures status == (if RInRange(val) then Ok else Err)
      ensures reg == (if RInRange(val) then old(reg).(pll0 := WithR(old(reg).pll0, val)) else old(reg))
    {
      if val > 511 { return Err; }
      reg := reg.(pll0 := WithR(reg.pll0, val));
      status := Ok;
    }

    /** Cdce913_SetPll1_0Q: Err and no change outside 16..63; only PLL1_0 changes. */
    method SetPll1_0Q(val: nat) returns (status: Status)
      requires val < 0x100
      modifies this`reg
      ensures status == (if QInRange(val) then Ok else Err)
      ensures reg == (if QInRange(val) then old(reg).(pll0 := WithQ(old(reg).pll0, val)) else old(reg))
    {
      if val < 16 || val > 63 { return Err; }
      reg := reg.(pll0 := WithQ(reg.pll0, val));
      status := Ok;
    }

    /** Cdce913_SetPll1_0P: Err and no change above 7; only PLL1_0 changes. */
    method SetPll1_0P(val: nat) returns (status: Status)
      requires val < 0x100
      modifies this`reg
      ensures status == (if PInRange(val) then Ok else Err)
      ensures reg == (if PInRange(val) then old(reg).(pll0 := WithP(old(reg).pll0, val)) else old(reg))
    {
      if val > 7 { return Err; }
      reg := reg.(pll0 := WithP(reg.pll0, val));
      status := Ok;
    }

    /** Cdce913_SetPll1_1N: as SetPll1_0N, on PLL1_1 only. */
    method SetPll1_1N(val: nat) returns (status: Status)
      requires val < 0x10000
      modifies this`reg
      ensures status == (if NInRange(val) then Ok else Err)
      ensures reg == (if NInRange(val) then old(reg).(pll1 := WithN(old(reg).pll1, val)) else old(reg))
    {
      if val == 0 || val > 4095 { return Err; }
      reg := reg.(pll1 := WithN(reg.pll1, val));
      status := Ok;
    }

    /** Cdce913_SetPll1_1R: as SetPll1_0R, on PLL1_1 only. */
    method SetPll1_1R(val: nat) returns (status: Status)
      requires val < 0x10000
      modifies this`reg
      ensures status == (if RInRange(val) then Ok else Err)
      ensures reg == (if RInRange(val) then old(reg).(pll1 := WithR(old(reg).pll1, val)) else old(reg))
    {
      if val > 511 { return Err; }
      reg := reg.(pll1 := WithR(reg.pll1, val));
      status := Ok;
    }

    /** Cdce913_SetPll1_1Q: as SetPll1_0Q, on PLL1_1 only. */
    method SetPll1_1Q(val: nat) returns (status: Status)
      requires val < 0x100
      modifies this`reg
      ensures status == (if QInRange(val) then Ok else Err)
      ensures reg == (if QInRange(val) then old(reg).(pll1 := WithQ(old(reg).pll1, val)) else old(reg))
    {
      if val < 16 || val > 63 { return Err; }
      reg := reg.(pll1 := WithQ(reg.pll1, val));
      status := Ok;
    }

    /** Cdce913_SetPll1_1P: as SetPll1_0P, on PLL1_1 only. */
    method SetPll1_1P(val: nat) returns (status: Status)
      requires val < 0x100
      modifies this`reg
      ensures status == (if PInRange(val) then Ok else Err)
      ensures reg == (if PInRange(val) then old(reg).(pll1 := WithP(old(reg).pll1, val)) else old(reg))
    {
      if val > 7 { return Err; }
      reg := reg.(pll1 := WithP(reg.pll1, val));
      status := Ok;
    }

    /**
     * Cdce913_SetInitialConfig, through the setters, on the modelled fields;
     * the setters' statuses are not looked at, and none of them fails.
     */
    method SetInitialConfig(xtalSource: nat, xtalCapacitance_pF: nat)
      requires xtalSource < 4 && xtalCapacitance_pF <= 20
      modifies this`reg
      ensures reg == InitialConfig(old(reg), xtalSource, xtalCapacitance_pF)
    {
      reg := reg.(inclk := xtalSource, xcsel := xtalCapacitance_pF);
      var s := SetPdiv1(0);
      s := SetSsc1_0(0);
      s := SetSsc1_1(0);
      s := SetSsc1_2(0);
      s := SetSsc1_3(0);
      s := SetSsc1_4(0);
      s := SetSsc1_5(0);
      s := SetSsc1_6(0);
      s := SetSsc1_7(0);
      s := SetPll1_0N(INIT_N);
      s := SetPll1_0R(INIT_R);
      s := SetPll1_0Q(INIT_Q);
      s := SetPll1_0P(INIT_P);
      reg := reg.(pll0 := reg.pll0.(vcoRange := 0));
      s := SetPll1_1N(INIT_N);
      s := SetPll1_1R(INIT_R);
      s := SetPll1_1Q(INIT_Q);
      s := SetPll1_1P(INIT_P);
      reg := reg.(pll1 := reg.pll1.(vcoRange := 0));
    }

    /**
     * AlxCdce913_Init: drives the PLL enable pin low, programs the initial
     * configuration and writes every register; `writeAllOk` is the outcome
     * of the register writes. Only the 12.288 MHz VCXO input is accepted.
     */
    method Init(xtalSource: nat, xtalCapacitance_pF: nat, writeAllOk: bool) returns (status: Status)
      requires wasCtorCalled && !isInit
      requires xtalSource == 1 && xtalCapacitance_pF <= 20
      modifies this`reg, this`pllEnable, this`isInit
      ensures !pllEnable
      ensures reg == InitialConfig(old(reg), xtalSource, xtalCapacitance_pF)
      ensures status == (if writeAllOk then Ok else Err)
      ensures isInit == writeAllOk
    {
      pllEnable := false;
      SetInitialConfig(xtalSource, xtalCapacitance_pF);
      if !writeAllOk { return Err; }
      isInit := true;
      status := Ok;
    }

    /** AlxCdce913_DeInit: the PLL enable pin goes low and the driver is no longer initialised. */
    method DeInit() returns (status: Status)
      requires wasCtorCalled && isInit
      modifies this`pllEnable, this`isInit
      ensures status == Ok && !pllEnable && !isInit
    {
      pllEnable := false;
      isInit := false;
      status := Ok;
    }

    /**
     * AlxCdce913_SetY1OutputFreq: an unknown frequency is Err before any
     * change; otherwise PDIV1 takes the divider and DEV_CTRL1 and
     * PDIV1_LSB are written (`write1Ok`, `write2Ok`).
     */
    method SetY1OutputFreq(freq: nat, write1Ok: bool, write2Ok: bool) returns (status: Status)
      modifies this`reg
      ensures Y1Divider(freq).None? ==> status == Err && reg == old(reg)
      ensures Y1Divider(freq).Some? ==> reg == WithPdiv1(old(reg), Y1Divider(freq).value)
      ensures Y1Divider(freq).Some? ==> (status == Ok <==> write1Ok && write2Ok)
    {
      var d := Y1Divider(freq);
      if d.None? { return Err; }
      var s := SetPdiv1(d.value);
      status := if write1Ok && write2Ok then Ok else Err;
    }

    /** AlxCdce913_EnableY1: the PLL enable pin goes high. */
    method EnableY1() returns (status: Status)
      modifies this`pllEnable
      ensures status == Ok && pllEnable
    {
      pllEnable := true;
      status := Ok;
    }

    /** AlxCdce913_DisableY1: the PLL enable pin goes low. */
    method DisableY1() returns (status: Status)
      modifies this`pllEnable
      ensures status == Ok && !pllEnable
    {
      pllEnable := false;
      status := Ok;
    }
  }
}
