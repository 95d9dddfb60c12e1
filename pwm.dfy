/** STM32 PWM driver (alxPwm_McuStm32.c), size-optimised build: the channel
    table given to the constructor, the timer's maximal period, the compare
    value computed from a per-mille duty cycle, the channel search of
    SetDuty_permil and the mapping of library channels to HAL timer channels.
    The HAL calls of Init and DeInit are oracles; the compare registers are a
    map from HAL channel code to value. */
module AlxPwm {
  import opened AlxCommon

  const TWO32: nat := 0x1_0000_0000
  type Uint32 = n: nat | n < 0x1_0000_0000

  /** uint32 arithmetic: the value modulo 2^32. */
  function Wrap32(x: int): (r: Uint32)
    ensures 0 <= x < TWO32 ==> r == x
  {
    x % TWO32
  }

  /** The STM32 families the driver is compiled for. */
  datatype Family = F1 | F4 | F7 | G4 | L0 | L4

  /** Families with 32-bit TIM2 and TIM5. */
  predicate HasWideTimers(f: Family)
  {
    f == F4 || f == F7 || f == G4 || f == L4
  }

  /** AlxPwm_SetSrcClk_SetPeriodMax for timer TIMn: 0xFFFFFFFF for the 32-bit
      TIM2 and TIM5, 0xFFFF for every other timer; TIM5 of F1 and L0 leaves
      the field unset (None). */
  function PeriodMax(tim: nat, family: Family): (r: Option<Uint32>)
    requires 1 <= tim <= 22
    ensures r.None? <==> tim == 5 && !HasWideTimers(family)
    ensures r.Some? ==> (r.value == 0xFFFF_FFFF <==> (tim == 2 || tim == 5) && HasWideTimers(family))
    ensures r.Some? ==> (r.value == 0xFFFF_FFFF || r.value == 0xFFFF)
  {
    if tim == 2 then Some(if HasWideTimers(family) then 0xFFFF_FFFF else 0xFFFF)
    else if tim == 5 then (if HasWideTimers(family) then Some(0xFFFF_FFFF) else None)
    else Some(0xFFFF)
  }

  // ---------------------------------------------------------------------------
  // Channels
  // ---------------------------------------------------------------------------

  /** Alx_Ch values AlxPwm_GetCh accepts: Ch1 to Ch4, and Ch5, Ch6 on G4. */
  predicate SupportedCh(ch: nat, family: Family)
  {
    1 <= ch <= 4 || (family == G4 && 5 <= ch <= 6)
  }

  /** AlxPwm_GetCh: the HAL channel code (TIM_CHANNEL_1 = 0x00, then steps of
      4 up to TIM_CHANNEL_6 = 0x14). */
  function GetCh(ch: nat, family: Family): (r: nat)
    requires SupportedCh(ch, family)
    ensures r == 4 * (ch - 1)
  {
    if ch == 1 then 0x00
    else if ch == 2 then 0x04
    else if ch == 3 then 0x08
    else if ch == 4 then 0x0C
    else if ch == 5 then 0x10
    else 0x14
  }

  /** Different library channels use different timer channels. */
  lemma GetChInjective(c1: nat, c2: nat, family: Family)
    requires SupportedCh(c1, family) && SupportedCh(c2, family)
    ensures GetCh(c1, family) == GetCh(c2, family) ==> c1 == c2
  {
  }

  /** What the constructor asserts of the channel array: each entry below
      the next. */
  predicate AdjacentIncreasing(chs: seq<nat>)
  {
    forall i :: 0 <= i < |chs| - 1 ==> chs[i] < chs[i + 1]
  }

  predicate StrictlyIncreasing(chs: seq<nat>)
  {
    forall i, j :: 0 <= i < j < |chs| ==> chs[i] < chs[j]
  }

  /** The adjacent check makes the whole array strictly increasing. */
  lemma {:induction false} AdjacentIncreasingIsStrict(chs: seq<nat>)
    requires AdjacentIncreasing(chs)
    ensures StrictlyIncreasing(chs)
  {
    if |chs| > 1 {
      var tail := chs[1..];
      assert AdjacentIncreasing(tail) by {
        forall i | 0 <= i < |tail| - 1 ensures tail[i] < tail[i + 1] {
          assert tail[i] == chs[i + 1] && tail[i + 1] == chs[i + 2];
        }
      }
      AdjacentIncreasingIsStrict(tail);
      forall i, j | 0 <= i < j < |chs| ensures chs[i] < chs[j] {
        if i > 0 {
          assert chs[i] == tail[i - 1] && chs[j] == tail[j - 1];
        } else if j > 1 {
          assert chs[1] == tail[0] && chs[j] == tail[j - 1];
        }
      }
    }
  }

  /** So the channel search of SetDuty_permil can hit at most one entry. */
  lemma AtMostOneMatch(chs: seq<nat>, ch: nat, i: nat, j: nat)
    requires AdjacentIncreasing(chs)
    requires i < |chs| && j < |chs| && chs[i] == ch && chs[j] == ch
    ensures i == j
  {
    AdjacentIncreasingIsStrict(chs);
  }

  // ---------------------------------------------------------------------------
  // Compare value
  // ---------------------------------------------------------------------------

  function Min(a: nat, b: nat): nat
  {
    if a <= b then a else b
  }

  /** The pulse computation as written: `duty_permil * (period + 1ul)` is an
      unsigned long product, 32 bits on the STM32, so it wraps for large
      periods before the division by 1000; then the limit to periodMax. */
  function PulseAsWritten(duty: nat, period: Uint32, periodMax: Uint32): nat
  {
    Min(Wrap32(duty * Wrap32(period + 1)) / 1000, periodMax)
  }

  /** The pulse the driver evidently intends (its variable is 64 bits wide):
      duty per mille of period + 1 timer ticks, limited to periodMax. */
  function Pulse(duty: nat, period: Uint32, periodMax: Uint32): (r: Uint32)
  {
    Min(duty * (period + 1) / 1000, periodMax)
  }

  /** Multiplication by a natural number is monotone. */
  lemma {:induction false} MulMonotone(a: nat, b: nat, d: nat)
    requires a <= b
    ensures a * d <= b * d
    decreases b - a
  {
    if a < b {
      MulMonotone(a, b - 1, d);
      assert b * d == (b - 1) * d + d;
    }
  }

  /** Division by a positive constant is monotone. */
  lemma DivMonotone(x: nat, y: nat, d: nat)
    requires d > 0 && x <= y
    ensures x / d <= y / d
  {
    if x / d > y / d {
      MulMonotone(y / d + 1, x / d, d);
    }
  }

  /** Duty 0 gives compare 0, full duty gives period + 1 (limited), the
      compare never exceeds periodMax and grows with the duty. */
  lemma PulseProperties(d1: nat, d2: nat, period: Uint32, periodMax: Uint32)
    ensures Pulse(0, period, periodMax) == 0
    ensures Pulse(1000, period, periodMax) == Min(period + 1, periodMax)
    ensures Pulse(d1, period, periodMax) <= periodMax
    ensures d1 <= d2 ==> Pulse(d1, period, periodMax) <= Pulse(d2, period, periodMax)
  {
    assert 1000 * (period + 1) / 1000 == period + 1;
    if d1 <= d2 {
      MulMonotone(d1, d2, period + 1);
      DivMonotone(d1 * (period + 1), d2 * (period + 1), 1000);
    }
  }

  /** Where the 32-bit product does not wrap, the source computes the
      intended pulse; this covers every 16-bit timer. */
  lemma PulseAsWrittenAgrees(duty: nat, period: Uint32, periodMax: Uint32)
    requires duty <= 1000
    requires duty * (period + 1) < TWO32
    ensures PulseAsWritten(duty, period, periodMax) == Pulse(duty, period, periodMax)
  {
    if period + 1 == TWO32 {
      assert duty == 0 by {
        if duty > 0 {
          MulMonotone(1, duty, period + 1);
        }
      }
    }
  }

  /** Every period of a 16-bit timer is in the non-wrapping range. */
  lemma SixteenBitPeriodsDoNotWrap(duty: nat, period: Uint32)
    requires duty <= 1000 && period <= 0xFFFF
    ensures duty * (period + 1) < TWO32
  {
    MulMonotone(duty, 1000, period + 1);
    MulMonotone(period + 1, 0x1_0000, 1000);
  }

  /** A 32-bit timer with period 0xFFFFFFFF: full duty gives compare 0 as
      written instead of the full period. */
  lemma PulseAsWrittenWraps()
    ensures PulseAsWritten(1000, 0xFFFF_FFFF, 0xFFFF_FFFF) == 0
    ensures Pulse(1000, 0xFFFF_FFFF, 0xFFFF_FFFF) == 0xFFFF_FFFF
  {
  }

  /** The intended product fits the source's 64-bit variable. */
  lemma PulseFits64(duty: nat, period: Uint32)
    requires duty <= 1000
    ensures duty * (period + 1) < 0x1_0000_0000_0000_0000
  {
    MulMonotone(duty, 1000, period + 1);
    MulMonotone(period + 1, TWO32, 1000);
  }

  /** The compare registers after setting `duties[k]` on `chs[k]` in order. */
  function Seeded(m: map<nat, Uint32>, chs: seq<nat>, duties: seq<nat>, family: Family,
                  period: Uint32, periodMax: Uint32): (r: map<nat, Uint32>)
    requires |duties| == |chs| && forall k :: 0 <= k < |chs| ==> SupportedCh(chs[k], family)
  {
    if chs == [] then m
    else Seeded(m, chs[..|chs| - 1], duties[..|chs| - 1], family, period, periodMax)
           [GetCh(chs[|chs| - 1], family) := Pulse(duties[|chs| - 1], period, periodMax)]
  }

  /** With distinct channels every channel ends up holding its own default
      pulse, and no other register changes. */
  lemma {:induction false} SeededProperties(m: map<nat, Uint32>, chs: seq<nat>, duties: seq<nat>,
                                           family: Family, period: Uint32, periodMax: Uint32)
    requires |duties| == |chs| && forall k :: 0 <= k < |chs| ==> SupportedCh(chs[k], family)
    requires StrictlyIncreasing(chs)
    ensures forall k :: 0 <= k < |chs| ==>
      GetCh(chs[k], family) in Seeded(m, chs, duties, family, period, periodMax) &&
      Seeded(m, chs, duties, family, period, periodMax)[GetCh(chs[k], family)] == Pulse(duties[k], period, periodMax)
    ensures forall c :: c in m && (forall k :: 0 <= k < |chs| ==> c != GetCh(chs[k], family)) ==>
      c in Seeded(m, chs, duties, family, period, periodMax) &&
      Seeded(m, chs, duties, family, period, periodMax)[c] == m[c]
  {
    if chs != [] {
      var n := |chs| - 1;
      var front := chs[..n];
      assert StrictlyIncreasing(front);
      SeededProperties(m, front, duties[..n], family, period, periodMax);
      var r := Seeded(m, chs, duties, family, period, periodMax);
      forall k | 0 <= k < |chs|
        ensures GetCh(chs[k], family) in r && r[GetCh(chs[k], family)] == Pulse(duties[k], period, periodMax)
      {
        if k < n {
          assert chs[k] < chs[n];
          GetChInjective(chs[k], chs[n], family);
          assert front[k] == chs[k] && duties[..n][k] == duties[k];
        }
      }
      forall c | c in m && (forall k :: 0 <= k < |chs| ==> c != GetCh(chs[k], family))
        ensures c in r && r[c] == m[c]
      {
        assert forall k :: 0 <= k < |front| ==> c != GetCh(front[k], family) by {
          forall k | 0 <= k < |front| ensures c != GetCh(front[k], family) {
            assert front[k] == chs[k];
          }
        }
      }
    }
  }

  /** Init seeds the compare registers from the driver's own default buffer:
      when that buffer disagrees with the configured defaults on a channel
      whose pulses differ, the registers end up different from the ones the
      configured defaults give. */
  lemma StaleDefaultsSeedOtherDuties(m: map<nat, Uint32>, chs: seq<nat>, stale: seq<nat>, configured: seq<nat>,
                                     family: Family, period: Uint32, periodMax: Uint32, k: nat)
    requires |stale| == |chs| && |configured| == |chs|
    requires forall j :: 0 <= j < |chs| ==> SupportedCh(chs[j], family)
    requires StrictlyIncreasing(chs) && k < |chs|
    requires Pulse(stale[k], period, periodMax) != Pulse(configured[k], period, periodMax)
    ensures Seeded(m, chs, stale, family, period, periodMax) != Seeded(m, chs, configured, family, period, periodMax)
  {
    SeededProperties(m, chs, stale, family, period, periodMax);
    SeededProperties(m, chs, configured, family, period, periodMax);
  }

  /** Channel 1 configured at 500 per mille with period 999 on a zeroed
      driver object: the constructor as written leaves the own buffer at 0,
      so Init programs compare 0 where the configured default gives 500. */
  lemma StaleDefaultsExample()
    ensures Seeded(map[], [1], [0], F4, 999, 0xFFFF)[GetCh(1, F4)] == 0
    ensures Seeded(map[], [1], [500], F4, 999, 0xFFFF)[GetCh(1, F4)] == 500
  {
    assert StrictlyIncreasing([1]);
    SeededProperties(map[], [1], [0], F4, 999, 0xFFFF);
    SeededProperties(map[], [1], [500], F4, 999, 0xFFFF);
  }

  // ---------------------------------------------------------------------------
  // Driver object
  // ---------------------------------------------------------------------------

  class Pwm {
    const family: Family
    const tim: nat
    var ch: seq<nat>
    /** The caller's default-duty array the driver keeps a reference to. */
    var dutyDefaultArr: seq<nat>
    /** The driver's own default-duty buffer, which Init programs. */
    var dutyDefault: seq<nat>
    var prescaler: Uint32
    var period: Uint32
    var periodMax: Uint32
    /** The capture/compare registers, by HAL channel code. */
    var compare: map<nat, Uint32>
    var isInit: bool
    var wasCtorCalled: bool

    /** AlxPwm_Ctor as evidently intended: asserts that the array fits the
        buffer and that the channels increase, stores the configuration,
        copies the default duties into the driver's own buffer and sets the
        timer's maximal period. A timer that leaves it unset is modelled as 0. */
    constructor(family: Family, tim: nat, chArr: seq<nat>, dutyDefaultArr: seq<nat>, buffLen: nat,
                prescaler: Uint32, period: Uint32)
      requires 1 <= tim <= 22
      requires |chArr| <= buffLen && |chArr| < 256 && |dutyDefaultArr| == |chArr|
      requires AdjacentIncreasing(chArr)
      ensures this.family == family && this.tim == tim
      ensures ch == chArr && this.dutyDefaultArr == dutyDefaultArr && dutyDefault == dutyDefaultArr
      ensures this.prescaler == prescaler && this.period == period
      ensures periodMax == (if PeriodMax(tim, family).Some? then PeriodMax(tim, family).value else 0)
      ensures compare == map[]
      ensures StrictlyIncreasing(ch)
      ensures wasCtorCalled && !isInit
    {
      this.family := family;
      this.tim := tim;
      ch := chArr;
      this.dutyDefaultArr := dutyDefaultArr;
      dutyDefault := dutyDefaultArr;
      this.prescaler := prescaler;
      this.period := period;
      var pm := PeriodMax(tim, family);
      periodMax := if pm.Some? then pm.value else 0;
      compare := map[];
      wasCtorCalled := true;
      isInit := false;
      AdjacentIncreasingIsStrict(chArr);
    }

    /** AlxPwm_Ctor as written in the ALX_PWM_OPTIMIZE_SIZE build: the copy
        loop assigns each entry of the caller's array to itself, so the
        driver's own buffer keeps `ownBuffer`, what it held before (all zero
        for a zero-initialised object). Everything else is as above. */
    constructor AsWritten(family: Family, tim: nat, chArr: seq<nat>, dutyDefaultArr: seq<nat>, ownBuffer: seq<nat>,
                          buffLen: nat, prescaler: Uint32, period: Uint32)
      requires 1 <= tim <= 22
      requires |chArr| <= buffLen && |chArr| < 256 && |dutyDefaultArr| == |chArr| && |ownBuffer| == |chArr|
      requires AdjacentIncreasing(chArr)
      ensures this.family == family && this.tim == tim
      ensures ch == chArr && this.dutyDefaultArr == dutyDefaultArr && dutyDefault == ownBuffer
      ensures this.prescaler == prescaler && this.period == period
      ensures periodMax == (if PeriodMax(tim, family).Some? then PeriodMax(tim, family).value else 0)
      ensures compare == map[]
      ensures StrictlyIncreasing(ch)
      ensures wasCtorCalled && !isInit
    {
      this.family := family;
      this.tim := tim;
      ch := chArr;
      this.dutyDefaultArr := dutyDefaultArr;
      dutyDefault := ownBuffer;
      this.prescaler := prescaler;
      this.period := period;
      var pm := PeriodMax(tim, family);
      periodMax := if pm.Some? then pm.value else 0;
      compare := map[];
      wasCtorCalled := true;
      isInit := false;
      AdjacentIncreasingIsStrict(chArr);
    }

    /** AlxPwm_SetDuty_permil: the compare register of the channel found in
        the table gets the pulse for `duty`; a channel not in the table is
        Err and changes nothing. */
    method SetDutyPermil(channel: nat, duty: nat) returns (status: Status)
      requires wasCtorCalled && isInit
      requires duty <= 1000
      requires channel in ch ==> SupportedCh(channel, family)
      modifies this`compare
      ensures status == Ok || status == Err
      ensures status == Ok <==> channel in ch
      ensures status == Ok ==> compare == old(compare)[GetCh(channel, family) := Pulse(duty, period, periodMax)]
      ensures status == Err ==> compare == old(compare)
    {
      var i := 0;
      while i < |ch|
        invariant 0 <= i <= |ch|
        invariant forall j :: 0 <= j < i ==> ch[j] != channel
      {
        if ch[i] == channel {
          var pulse := Min(duty * (period + 1) / 1000, periodMax);
          compare := compare[GetCh(channel, family) := pulse];
          return Ok;
        }
        i := i + 1;
      }
      return Err;
    }

    /** The HAL steps of one loop over the channels (configure or start),
        stopping at the first failing one. */
    static method AllSucceed(stepOk: seq<bool>) returns (ok: bool)
      ensures ok <==> forall k :: 0 <= k < |stepOk| ==> stepOk[k]
    {
      var i := 0;
      while i < |stepOk|
        invariant 0 <= i <= |stepOk|
        invariant forall k :: 0 <= k < i ==> stepOk[k]
      {
        if !stepOk[i] {
          return false;
        }
        i := i + 1;
      }
      return true;
    }

    /** The default-duty loop of Init: SetDuty_permil on every channel. */
    method SetDefaultDuties()
      requires wasCtorCalled && isInit && |dutyDefault| == |ch|
      requires forall k :: 0 <= k < |ch| ==> SupportedCh(ch[k], family) && dutyDefault[k] <= 1000
      modifies this`compare
      ensures compare == Seeded(old(compare), ch, dutyDefault, family, period, periodMax)
    {
      var i := 0;
      while i < |ch|
        invariant 0 <= i <= |ch|
        invariant compare == Seeded(old(compare), ch[..i], dutyDefault[..i], family, period, periodMax)
      {
        var s := SetDutyPermil(ch[i], dutyDefault[i]);
        assert ch[i] in ch;
        assert ch[..i + 1][..i] == ch[..i] && dutyDefault[..i + 1][..i] == dutyDefault[..i];
        i := i + 1;
      }
      assert ch[..|ch|] == ch && dutyDefault[..|ch|] == dutyDefault;
    }

    /** AlxPwm_Init: the HAL timer init, one channel configuration per
        channel, then isInit, the default duties and one start per channel.
        Each HAL step's result is a parameter; the first failure is Err. */
    method Init(halInitOk: bool, configOk: seq<bool>, startOk: seq<bool>) returns (status: Status)
      requires wasCtorCalled && !isInit
      requires |configOk| == |ch| && |startOk| == |ch| && |dutyDefault| == |ch|
      requires forall k :: 0 <= k < |ch| ==> SupportedCh(ch[k], family) && dutyDefault[k] <= 1000
      modifies this`compare, this`isInit
      ensures status == Ok || status == Err
      ensures isInit <==> halInitOk && forall k :: 0 <= k < |ch| ==> configOk[k]
      ensures isInit ==> compare == Seeded(old(compare), ch, dutyDefault, family, period, periodMax)
      ensures !isInit ==> compare == old(compare)
      ensures status == Ok <==> isInit && forall k :: 0 <= k < |ch| ==> startOk[k]
    {
      if !halInitOk {
        return Err;
      }
      var configured := AllSucceed(configOk);
      if !configured {
        return Err;
      }
      isInit := true;
      SetDefaultDuties();
      var started := AllSucceed(startOk);
      if !started {
        return Err;
      }
      return Ok;
    }

    /** AlxPwm_DeInit: Err leaves the driver initialised when the HAL de-init
        fails; otherwise isInit is cleared. */
    method DeInit(halDeInitOk: bool) returns (status: Status)
      requires wasCtorCalled && isInit
      modifies this`isInit
      ensures status == (if halDeInitOk then Ok else Err)
      ensures isInit <==> !halDeInitOk
    {
      if !halDeInitOk {
        return Err;
      }
      isInit := false;
      return Ok;
    }
  }
}
