/**
 * The gain setters of the ADAU1961 audio codec driver (alxAdau1961.c): each
 * turns a gain in dB into the code of a register field, updates the register
 * shadow and writes the register over I2C.
 *
 * The differential input gain is a float in steps of 0.75 dB; it is modelled
 * exactly as an integer number of quarter dB (`q`, so 0.75 dB is 3). The aux
 * and line-output gains are whole dB. A gain of -120 dB means mute.
 */
module AlxAdau1961 {
  import opened AlxCommon

  // ---------------------------------------------------------------------
  // Constants (the constructor's parameters)
  // ---------------------------------------------------------------------

  const MUTE_GAIN_DB: int := -120
  /** -120 dB in quarter dB. */
  const MUTE_GAIN_Q: int := -480

  /** Differential input: -12 dB to 55.5 dB in 0.75 dB steps, boosted by 20 dB above 35.25 dB. */
  const IN_DIFF_GAIN_MIN_Q: int := -48
  const IN_DIFF_GAIN_MAX_Q: int := 222
  const IN_DIFF_GAIN_PER_BIT_Q: int := 3
  const IN_DIFF_GAIN_OFFSET_Q: int := -48
  const IN_DIFF_PGA_BOOST_THRESHOLD_Q: int := 141
  const IN_DIFF_PGA_BOOST_REDUCE_VAL_Q: int := 81

  /** Aux input: -12 dB to 6 dB in 3 dB steps; code 0 is mute, so the codes start at 1. */
  const IN_AUX_GAIN_MIN_DB: int := -12
  const IN_AUX_GAIN_MAX_DB: int := 6
  const IN_AUX_GAIN_PER_BIT_DB: int := 3
  const IN_AUX_GAIN_OFFSET_DB: int := -12
  const IN_AUX_MUTE_OFFSET_DB: int := 1

  /** Line output: -57 dB to 6 dB in 1 dB steps. */
  const OUT_LINE_GAIN_MIN_DB: int := -57
  const OUT_LINE_GAIN_MAX_DB: int := 6
  const OUT_LINE_GAIN_PER_BIT_DB: int := 1
  const OUT_LINE_GAIN_OFFSET_DB: int := -57

  /** DiffPGAInputGain: the LDBOOST/RDBOOST field. */
  const BOOST_0DB: nat := 1
  const BOOST_20DB: nat := 2

  // ---------------------------------------------------------------------
  // dB to register code
  // ---------------------------------------------------------------------

  /** The gains InDiff*_SetGain_dB accepts: a multiple of 0.75 dB, mute or within -12 dB to 55.5 dB. */
  predicate DiffGainValid(q: int)
  {
    q % IN_DIFF_GAIN_PER_BIT_Q == 0 && (q == MUTE_GAIN_Q || IN_DIFF_GAIN_MIN_Q <= q <= IN_DIFF_GAIN_MAX_Q)
  }

  /** The PGA boost: 0 dB up to the threshold, 20 dB above it. */
  function DiffBoost(q: int): (b: nat)
    ensures b == BOOST_0DB <==> q <= IN_DIFF_PGA_BOOST_THRESHOLD_Q
    ensures b == BOOST_0DB || b == BOOST_20DB
  {
    if q <= IN_DIFF_PGA_BOOST_THRESHOLD_Q then BOOST_0DB else BOOST_20DB
  }

  /**
   * CalcRegVal_InDiffGain on the gain left once the boost is taken out:
   * the gain itself up to the threshold, the gain less 20.25 dB above it.
   */
  function DiffCode(q: int): (c: nat)
    requires DiffGainValid(q) && q != MUTE_GAIN_Q
    ensures c < 64
  {
    var g := if q <= IN_DIFF_PGA_BOOST_THRESHOLD_Q then q else q - IN_DIFF_PGA_BOOST_REDUCE_VAL_Q;
    (g - IN_DIFF_GAIN_OFFSET_Q) / IN_DIFF_GAIN_PER_BIT_Q
  }

  /** The gain the codec applies for a boost setting and a volume code, in quarter dB. */
  function DiffGainOf(boost: nat, code: nat): int
  {
    code * IN_DIFF_GAIN_PER_BIT_Q + IN_DIFF_GAIN_OFFSET_Q + (if boost == BOOST_20DB then IN_DIFF_PGA_BOOST_REDUCE_VAL_Q else 0)
  }

  /**
   * Boost and code give back the gain asked for. The reduced gain above the
   * threshold is again a multiple of 0.75 dB, so the driver's second
   * alignment assert always holds; the boosted codes are 37 to 63.
   */
  lemma DiffCodeRoundTrip(q: int)
    requires DiffGainValid(q) && q != MUTE_GAIN_Q
    ensures DiffGainOf(DiffBoost(q), DiffCode(q)) == q
    ensures q > IN_DIFF_PGA_BOOST_THRESHOLD_Q ==> (q - IN_DIFF_PGA_BOOST_REDUCE_VAL_Q) % IN_DIFF_GAIN_PER_BIT_Q == 0 && 37 <= DiffCode(q)
  {
    var g := if q <= IN_DIFF_PGA_BOOST_THRESHOLD_Q then q else q - IN_DIFF_PGA_BOOST_REDUCE_VAL_Q;
    assert g % 3 == 0;
    assert (g + 48) / 3 * 3 == g + 48;
  }

  /** CalcRegVal_InAuxGain. */
  function AuxCode(g: int): (c: nat)
    requires g % IN_AUX_GAIN_PER_BIT_DB == 0 && IN_AUX_GAIN_MIN_DB <= g <= IN_AUX_GAIN_MAX_DB
    ensures 1 <= c <= 7
  {
    (g - IN_AUX_GAIN_OFFSET_DB) / IN_AUX_GAIN_PER_BIT_DB + IN_AUX_MUTE_OFFSET_DB
  }

  /** The mixer gain enum GainMixer1Mixer2: the dB each code stands for; code 0 is mute. */
  function MixerGainDb(code: nat): Option<int>
  {
    match code
    case 1 => Some(-12)
    case 2 => Some(-9)
    case 3 => Some(-6)
    case 4 => Some(-3)
    case 5 => Some(0)
    case 6 => Some(3)
    case 7 => Some(6)
    case _ => None
  }

  /** The aux code is the enum member for that gain: -12 dB gives 1 and 6 dB gives 7. */
  lemma {:induction false} AuxCodeMatchesEnum(g: int)
    requires g % IN_AUX_GAIN_PER_BIT_DB == 0 && IN_AUX_GAIN_MIN_DB <= g <= IN_AUX_GAIN_MAX_DB
    ensures MixerGainDb(AuxCode(g)) == Some(g)
  {
    assert g == -12 || g == -9 || g == -6 || g == -3 || g == 0 || g == 3 || g == 6;
  }

  /** CalcRegVal_OutLineGain. */
  function LineCode(g: int): (c: nat)
    requires OUT_LINE_GAIN_MIN_DB <= g <= OUT_LINE_GAIN_MAX_DB
    ensures c < 64
  {
    (g - OUT_LINE_GAIN_OFFSET_DB) / OUT_LINE_GAIN_PER_BIT_DB
  }

  /** The line-output gain of a volume code, 1 dB per step from -57 dB. */
  function LineGainOf(code: nat): int
  {
    code as int + OUT_LINE_GAIN_OFFSET_DB
  }

  /** The code is gain + 57: -57 dB is 0, 6 dB is 63, and the code gives the gain back. */
  lemma LineCodeRoundTrip(g: int)
    requires OUT_LINE_GAIN_MIN_DB <= g <= OUT_LINE_GAIN_MAX_DB
    ensures LineCode(g) == g + 57 && LineGainOf(LineCode(g)) == g
    ensures LineCode(OUT_LINE_GAIN_MIN_DB) == 0 && LineCode(OUT_LINE_GAIN_MAX_DB) == 63
  {
  }

  // ---------------------------------------------------------------------
  // Register fields
  // ---------------------------------------------------------------------

  /** R5/R7: the aux mixer gain MX1AUXG/MX2AUXG is bits 2:0, the PGA boost LDBOOST/RDBOOST bits 4:3. */
  function AuxField(b: U8): nat
  {
    (b & 0x07) as nat
  }

  function BoostField(b: U8): nat
  {
    ((b >> 3) & 0x03) as nat
  }

  /** Bits 7:5 of R5/R7, which the setters never touch. */
  function MixerHighBits(b: U8): U8
  {
    b & 0xE0
  }

  function WithAuxField(b: U8, code: nat): (r: U8)
    requires code < 8
    ensures AuxField(r) == code && BoostField(r) == BoostField(b) && MixerHighBits(r) == MixerHighBits(b)
  {
    var c := code as U8;
    (b & 0xF8) | c
  }

  function WithBoostField(b: U8, boost: nat): (r: U8)
    requires boost < 4
    ensures BoostField(r) == boost && AuxField(r) == AuxField(b) && MixerHighBits(r) == MixerHighBits(b)
  {
    var c := boost as U8;
    (b & 0xE7) | (c << 3)
  }

  /** R8/R9 and R31/R32: the enable or mode bit is bit 0, the mute control bit 1 (1 is un-muted), the volume bits 7:2. */
  function LowBit(b: U8): U8
  {
    b & 0x01
  }

  predicate Unmuted(b: U8)
  {
    b & 0x02 != 0
  }

  function VolField(b: U8): nat
  {
    ((b >> 2) & 0x3F) as nat
  }

  function WithUnmuted(b: U8, u: bool): (r: U8)
    ensures Unmuted(r) == u && VolField(r) == VolField(b) && LowBit(r) == LowBit(b)
  {
    if u then b | 0x02 else b & 0xFD
  }

  function WithVolField(b: U8, code: nat): (r: U8)
    requires code < 64
    ensures VolField(r) == code && Unmuted(r) == Unmuted(b) && LowBit(r) == LowBit(b)
  {
    var c := code as U8;
    VolShift(b, c);
    (b & 0x03) | (c << 2)
  }

  /** Shifting a 6-bit code into bits 7:2 keeps bits 1:0 and reads back by the inverse shift. */
  lemma VolShift(b: U8, c: U8)
    requires c < 64
    ensures (((b & 0x03) | (c << 2)) >> 2) & 0x3F == c
    ensures ((b & 0x03) | (c << 2)) & 0x02 == b & 0x02
    ensures ((b & 0x03) | (c << 2)) & 0x01 == b & 0x01
  {
  }

  // ---------------------------------------------------------------------
  // The new value of each register a setter writes
  // ---------------------------------------------------------------------

  /** InAux*_SetGain_dB on R5/R7: mute writes code 0, a gain its enum code; the boost field is kept. */
  function AuxMixerByte(b: U8, g: int): (r: U8)
    requires g == MUTE_GAIN_DB || (g % IN_AUX_GAIN_PER_BIT_DB == 0 && IN_AUX_GAIN_MIN_DB <= g <= IN_AUX_GAIN_MAX_DB)
    ensures g == MUTE_GAIN_DB ==> AuxField(r) == 0
    ensures g != MUTE_GAIN_DB ==> MixerGainDb(AuxField(r)) == Some(g)
    ensures BoostField(r) == BoostField(b) && MixerHighBits(r) == MixerHighBits(b)
  {
    if g == MUTE_GAIN_DB then WithAuxField(b, 0)
    else
      AuxCodeMatchesEnum(g);
      WithAuxField(b, AuxCode(g))
  }

  /** OutLine*_SetGain_dB on R31/R32: mute clears only the mute control; a gain sets the volume and un-mutes. */
  function LineVolByte(b: U8, g: int): (r: U8)
    requires g == MUTE_GAIN_DB || OUT_LINE_GAIN_MIN_DB <= g <= OUT_LINE_GAIN_MAX_DB
    ensures g == MUTE_GAIN_DB ==> !Unmuted(r) && VolField(r) == VolField(b)
    ensures g != MUTE_GAIN_DB ==> Unmuted(r) && LineGainOf(VolField(r)) == g
    ensures LowBit(r) == LowBit(b)
  {
    if g == MUTE_GAIN_DB then WithUnmuted(b, false)
    else
      LineCodeRoundTrip(g);
      WithUnmuted(WithVolField(b, LineCode(g)), true)
  }

  /** InDiff*_SetGain_dB on R8/R9: mute clears only the mute control; a gain un-mutes and sets the volume. */
  function DiffVolByte(b: U8, q: int): (r: U8)
    requires DiffGainValid(q)
    ensures q == MUTE_GAIN_Q ==> !Unmuted(r) && VolField(r) == VolField(b)
    ensures q != MUTE_GAIN_Q ==> Unmuted(r) && VolField(r) == DiffCode(q)
    ensures LowBit(r) == LowBit(b)
  {
    if q == MUTE_GAIN_Q then WithUnmuted(b, false)
    else WithVolField(WithUnmuted(b, true), DiffCode(q))
  }

  /** The boost and volume written for a differential gain give that gain back. */
  lemma DiffSettingRoundTrip(mixer: U8, vol: U8, q: int)
    requires DiffGainValid(q) && q != MUTE_GAIN_Q
    ensures DiffGainOf(BoostField(WithBoostField(mixer, DiffBoost(q))), VolField(DiffVolByte(vol, q))) == q
  {
    DiffCodeRoundTrip(q);
  }

  // ---------------------------------------------------------------------
  // The driver
  // ---------------------------------------------------------------------

  datatype Side = Left | Right

  /** The registers of each side: R5/R7 record mixer 1, R8/R9 differential input volume, R31/R32 line output volume. */
  function MixerAddr(side: Side): nat
  {
    if side == Left then 0x400B else 0x400D
  }

  function DiffVolAddr(side: Side): nat
  {
    if side == Left then 0x400E else 0x400F
  }

  function LineVolAddr(side: Side): nat
  {
    if side == Left then 0x4025 else 0x4026
  }

  /** Each side's three registers are distinct and differ from the other side's. */
  lemma SidesDisjoint(s: Side, t: Side)
    ensures MixerAddr(s) != DiffVolAddr(t) && MixerAddr(s) != LineVolAddr(t) && DiffVolAddr(s) != LineVolAddr(t)
    ensures s != t ==> MixerAddr(s) != MixerAddr(t) && DiffVolAddr(s) != DiffVolAddr(t) && LineVolAddr(s) != LineVolAddr(t)
  {
  }

  ghost predicate HasGainRegs(reg: map<nat, U8>)
  {
    forall s: Side :: MixerAddr(s) in reg && DiffVolAddr(s) in reg && LineVolAddr(s) in reg
  }

  /**
   * What InDiff*_SetGain_dB did. Mute writes the volume register alone. A
   * gain writes the boost into the mixer register first, returning if that
   * write fails, then un-mutes and writes the volume register.
   */
  ghost predicate DiffSetResult(side: Side, q: int, reg0: map<nat, U8>, reg: map<nat, U8>,
                                l0: seq<(nat, U8)>, l: seq<(nat, U8)>, i2cStatus: nat -> Status, status: Status)
    requires HasGainRegs(reg0) && DiffGainValid(q)
  {
    var t, mx, dv := |l0|, MixerAddr(side), DiffVolAddr(side);
    if q == MUTE_GAIN_Q then
      reg == reg0[dv := DiffVolByte(reg0[dv], q)] && l == l0 + [(dv, reg[dv])] && status == i2cStatus(t)
    else
      var r1 := reg0[mx := WithBoostField(reg0[mx], DiffBoost(q))];
      if i2cStatus(t) != Ok then
        reg == r1 && l == l0 + [(mx, r1[mx])] && status == i2cStatus(t)
      else
        reg == r1[dv := DiffVolByte(r1[dv], q)] && l == l0 + [(mx, r1[mx]), (dv, reg[dv])] && status == i2cStatus(t + 1)
  }

  /** After a successful differential gain change the two registers read back as the gain asked for, and nothing else changed. */
  lemma DiffSetReadsBack(side: Side, q: int, reg0: map<nat, U8>, reg: map<nat, U8>,
                         l0: seq<(nat, U8)>, l: seq<(nat, U8)>, i2cStatus: nat -> Status)
    requires HasGainRegs(reg0) && DiffGainValid(q)
    requires DiffSetResult(side, q, reg0, reg, l0, l, i2cStatus, Ok)
    ensures q == MUTE_GAIN_Q ==> !Unmuted(reg[DiffVolAddr(side)]) && VolField(reg[DiffVolAddr(side)]) == VolField(reg0[DiffVolAddr(side)])
    ensures q != MUTE_GAIN_Q ==> Unmuted(reg[DiffVolAddr(side)])
                                 && DiffGainOf(BoostField(reg[MixerAddr(side)]), VolField(reg[DiffVolAddr(side)])) == q
    ensures forall a :: a in reg0 && a != MixerAddr(side) && a != DiffVolAddr(side) ==> a in reg && reg[a] == reg0[a]
  {
    SidesDisjoint(side, side);
    if q != MUTE_GAIN_Q {
      DiffSettingRoundTrip(reg0[MixerAddr(side)], reg0[DiffVolAddr(side)], q);
    }
  }

  class Adau1961 {
    /** The shadow of the gain registers, by I2C register address. */
    var reg: map<nat, U8>
    /** Every register write so far: address and the byte sent. */
    var log: seq<(nat, U8)>
    var isInit: bool
    var wasCtorCalled: bool

    ghost predicate Valid()
      reads this
    {
      HasGainRegs(reg)
    }

    /** The constructor: every register zero (RegStruct_SetValToZero), not initialised. */
    constructor ()
      ensures Valid() && log == [] && !isInit && wasCtorCalled
      ensures forall a :: a in reg ==> reg[a] == 0
    {
      reg := map[0x400B := 0, 0x400D := 0, 0x400E := 0, 0x400F := 0, 0x4025 := 0, 0x4026 := 0];
      log := [];
      isInit := false;
      wasCtorCalled := true;
    }

    /** Reg_Write: one I2C write of a register's shadow value. */
    method RegWrite(addr: nat, i2cStatus: nat -> Status) returns (status: Status)
      requires addr in reg
      modifies this`log
      ensures log == old(log) + [(addr, reg[addr])] && status == i2cStatus(|old(log)|)
    {
      status := i2cStatus(|log|);
      log := log + [(addr, reg[addr])];
    }

    /** InDiffL_SetGain_dB and InDiffR_SetGain_dB, which differ only in their registers. */
    method InDiffSetGain(side: Side, q: int, i2cStatus: nat -> Status) returns (status: Status)
      requires Valid() && isInit && wasCtorCalled && DiffGainValid(q)
      modifies this`reg, this`log
      ensures Valid() && DiffSetResult(side, q, old(reg), reg, old(log), log, i2cStatus, status)
    {
      SidesDisjoint(side, side);
      var mx, dv := MixerAddr(side), DiffVolAddr(side);
      if q == MUTE_GAIN_Q {
        reg := reg[dv := DiffVolByte(reg[dv], q)];
        status := RegWrite(dv, i2cStatus);
        return;
      }
      reg := reg[mx := WithBoostField(reg[mx], DiffBoost(q))];
      status := RegWrite(mx, i2cStatus);
      if status != Ok {
        return;
      }
      reg := reg[dv := DiffVolByte(reg[dv], q)];
      status := RegWrite(dv, i2cStatus);
    }

    method InDiffLSetGain(q: int, i2cStatus: nat -> Status) returns (status: Status)
      requires Valid() && isInit && wasCtorCalled && DiffGainValid(q)
      modifies this`reg, this`log
      ensures Valid() && DiffSetResult(Left, q, old(reg), reg, old(log), log, i2cStatus, status)
    {
      status := InDiffSetGain(Left, q, i2cStatus);
    }

    method InDiffRSetGain(q: int, i2cStatus: nat -> Status) returns (status: Status)
      requires Valid() && isInit && wasCtorCalled && DiffGainValid(q)
      modifies this`reg, this`log
      ensures Valid() && DiffSetResult(Right, q, old(reg), reg, old(log), log, i2cStatus, status)
    {
      status := InDiffSetGain(Right, q, i2cStatus);
    }

    /** InAuxL_SetGain_dB and InAuxR_SetGain_dB: update the aux gain field of the mixer register, then write it. */
    method InAuxSetGain(side: Side, g: int, i2cStatus: nat -> Status) returns (status: Status)
      requires Valid() && isInit && wasCtorCalled
      requires g == MUTE_GAIN_DB || (g % IN_AUX_GAIN_PER_BIT_DB == 0 && IN_AUX_GAIN_MIN_DB <= g <= IN_AUX_GAIN_MAX_DB)
      modifies this`reg, this`log
      ensures Valid() && reg == old(reg)[MixerAddr(side) := AuxMixerByte(old(reg)[MixerAddr(side)], g)]
      ensures log == old(log) + [(MixerAddr(side), reg[MixerAddr(side)])] && status == i2cStatus(|old(log)|)
    {
      var mx := MixerAddr(side);
      reg := reg[mx := AuxMixerByte(reg[mx], g)];
      status := RegWrite(mx, i2cStatus);
    }

    method InAuxLSetGain(g: int, i2cStatus: nat -> Status) returns (status: Status)
      requires Valid() && isInit && wasCtorCalled
      requires g == MUTE_GAIN_DB || (g % IN_AUX_GAIN_PER_BIT_DB == 0 && IN_AUX_GAIN_MIN_DB <= g <= IN_AUX_GAIN_MAX_DB)
      modifies this`reg, this`log
      ensures Valid() && reg == old(reg)[MixerAddr(Left) := AuxMixerByte(old(reg)[MixerAddr(Left)], g)]
      ensures log == old(log) + [(MixerAddr(Left), reg[MixerAddr(Left)])] && status == i2cStatus(|old(log)|)
    {
      status := InAuxSetGain(Left, g, i2cStatus);
    }

    method InAuxRSetGain(g: int, i2cStatus: nat -> Status) returns (status: Status)
      requires Valid() && isInit && wasCtorCalled
      requires g == MUTE_GAIN_DB || (g % IN_AUX_GAIN_PER_BIT_DB == 0 && IN_AUX_GAIN_MIN_DB <= g <= IN_AUX_GAIN_MAX_DB)
      modifies this`reg, this`log
      ensures Valid() && reg == old(reg)[MixerAddr(Right) := AuxMixerByte(old(reg)[MixerAddr(Right)], g)]
      ensures log == old(log) + [(MixerAddr(Right), reg[MixerAddr(Right)])] && status == i2cStatus(|old(log)|)
    {
      status := InAuxSetGain(Right, g, i2cStatus);
    }

    /** OutLineL_SetGain_dB and OutLineR_SetGain_dB: update the line-output volume register, then write it. */
    method OutLineSetGain(side: Side, g: int, i2cStatus: nat -> Status) returns (status: Status)
      requires Valid() && isInit && wasCtorCalled
      requires g == MUTE_GAIN_DB || OUT_LINE_GAIN_MIN_DB <= g <= OUT_LINE_GAIN_MAX_DB
      modifies this`reg, this`log
      ensures Valid() && reg == old(reg)[LineVolAddr(side) := LineVolByte(old(reg)[LineVolAddr(side)], g)]
      ensures log == old(log) + [(LineVolAddr(side), reg[LineVolAddr(side)])] && status == i2cStatus(|old(log)|)
    {
      var lv := LineVolAddr(side);
      reg := reg[lv := LineVolByte(reg[lv], g)];
      status := RegWrite(lv, i2cStatus);
    }

    method OutLineLSetGain(g: int, i2cStatus: nat -> Status) returns (status: Status)
      requires Valid() && isInit && wasCtorCalled
      requires g == MUTE_GAIN_DB || OUT_LINE_GAIN_MIN_DB <= g <= OUT_LINE_GAIN_MAX_DB
      modifies this`reg, this`log
      ensures Valid() && reg == old(reg)[LineVolAddr(Left) := LineVolByte(old(reg)[LineVolAddr(Left)], g)]
      ensures log == old(log) + [(LineVolAddr(Left), reg[LineVolAddr(Left)])] && status == i2cStatus(|old(log)|)
    {
      status := OutLineSetGain(Left, g, i2cStatus);
    }

    method OutLineRSetGain(g: int, i2cStatus: nat -> Status) returns (status: Status)
      requires Valid() && isInit && wasCtorCalled
      requires g == MUTE_GAIN_DB || OUT_LINE_GAIN_MIN_DB <= g <= OUT_LINE_GAIN_MAX_DB
      modifies this`reg, this`log
      ensures Valid() && reg == old(reg)[LineVolAddr(Right) := LineVolByte(old(reg)[LineVolAddr(Right)], g)]
      ensures log == old(log) + [(LineVolAddr(Right), reg[LineVolAddr(Right)])] && status == i2cStatus(|old(log)|)
    {
      status := OutLineSetGain(Right, g, i2cStatus);
    }
  }
}
