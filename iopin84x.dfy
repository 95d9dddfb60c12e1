/**
 * The LPC84x GPIO pin driver (alxIoPin_McuLpc84x.c): the index of a pin in
 * the switch matrix (SWM) and in the IOCON block, the pull mode and open-drain
 * bits of the pin's IOCON register, the GPIO direction and level, and the
 * routing of a switch-matrix function to the pin.
 *
 * The peripheral registers are arrays: `iocon` is IOCON->PIO, `gpioDir` and
 * `gpioLevel` hold the direction (true: output) and the level of every pin,
 * indexed by port and pin, `swmMovable` holds
 * the port-pin index each movable function is routed to, and `swmFixed` says
 * which fixed-pin functions are enabled.
 */
module AlxIoPinLpc84x {
  import opened AlxCommon

  // ---------------------------------------------------------------------
  // Pin indices
  // ---------------------------------------------------------------------

  /** GetSwmPortPinIndex: port 0 pins are 0 to 31, port 1 pins follow from 32. */
  function SwmPortPinIndex(port: nat, pin: nat): nat
  {
    if port == 0 then pin else pin + 32
  }

  /** On the two ports the index is one-to-one: port and pin are its quotient and remainder by 32. */
  lemma SwmPortPinRoundTrip(port: nat, pin: nat)
    requires port <= 1 && pin < 32
    ensures SwmPortPinIndex(port, pin) < 64
    ensures SwmPortPinIndex(port, pin) / 32 == port && SwmPortPinIndex(port, pin) % 32 == pin
  {
  }

  /** The index GetIoconPortPinIndex returns for a pin it does not list. */
  const IOCON_NONE: nat := 0xFF
  const NUM_OF_IOCON: nat := 56

  /** GetIoconPortPinIndex: the position of a pin's register in IOCON->PIO. */
  function IoconIndex(port: nat, pin: nat): (r: nat)
    ensures r == IOCON_NONE || (r < NUM_OF_IOCON && r != 12 && r != 19)
  {
    if port == 0 then
      match pin
      case 17 => 0  case 13 => 1  case 12 => 2  case 5 => 3   case 4 => 4   case 3 => 5
      case 2 => 6   case 11 => 7  case 10 => 8  case 16 => 9  case 15 => 10 case 1 => 11
      case 9 => 13  case 8 => 14  case 7 => 15  case 6 => 16  case 0 => 17  case 14 => 18
      case 28 => 20 case 27 => 21 case 26 => 22 case 25 => 23 case 24 => 24 case 23 => 25
      case 22 => 26 case 21 => 27 case 20 => 28 case 19 => 29 case 18 => 30 case 31 => 35
      case 29 => 50 case 30 => 51
      case _ => IOCON_NONE
    else if port == 1 then
      match pin
      case 8 => 31  case 9 => 32  case 12 => 33 case 13 => 34 case 0 => 36  case 1 => 37
      case 2 => 38  case 14 => 39 case 15 => 40 case 3 => 41  case 4 => 42  case 5 => 43
      case 16 => 44 case 17 => 45 case 6 => 46  case 18 => 47 case 19 => 48 case 7 => 49
      case 20 => 52 case 21 => 53 case 11 => 54 case 10 => 55
      case _ => IOCON_NONE
    else IOCON_NONE
  }

  /** The same table read the other way: the port and pin whose register is at an index. */
  function IoconPortPin(i: nat): Option<(nat, nat)>
  {
    match i
    case 0 => Some((0, 17))  case 1 => Some((0, 13))  case 2 => Some((0, 12))  case 3 => Some((0, 5))
    case 4 => Some((0, 4))   case 5 => Some((0, 3))   case 6 => Some((0, 2))   case 7 => Some((0, 11))
    case 8 => Some((0, 10))  case 9 => Some((0, 16))  case 10 => Some((0, 15)) case 11 => Some((0, 1))
    case 13 => Some((0, 9))  case 14 => Some((0, 8))  case 15 => Some((0, 7))  case 16 => Some((0, 6))
    case 17 => Some((0, 0))  case 18 => Some((0, 14)) case 20 => Some((0, 28)) case 21 => Some((0, 27))
    case 22 => Some((0, 26)) case 23 => Some((0, 25)) case 24 => Some((0, 24)) case 25 => Some((0, 23))
    case 26 => Some((0, 22)) case 27 => Some((0, 21)) case 28 => Some((0, 20)) case 29 => Some((0, 19))
    case 30 => Some((0, 18)) case 31 => Some((1, 8))  case 32 => Some((1, 9))  case 33 => Some((1, 12))
    case 34 => Some((1, 13)) case 35 => Some((0, 31)) case 36 => Some((1, 0))  case 37 => Some((1, 1))
    case 38 => Some((1, 2))  case 39 => Some((1, 14)) case 40 => Some((1, 15)) case 41 => Some((1, 3))
    case 42 => Some((1, 4))  case 43 => Some((1, 5))  case 44 => Some((1, 16)) case 45 => Some((1, 17))
    case 46 => Some((1, 6))  case 47 => Some((1, 18)) case 48 => Some((1, 19)) case 49 => Some((1, 7))
    case 50 => Some((0, 29)) case 51 => Some((0, 30)) case 52 => Some((1, 20)) case 53 => Some((1, 21))
    case 54 => Some((1, 11)) case 55 => Some((1, 10))
    case _ => None
  }

  /** Every listed pin's index leads back to that pin. */
  lemma IoconRoundTrip(port: nat, pin: nat)
    requires IoconIndex(port, pin) != IOCON_NONE
    ensures IoconPortPin(IoconIndex(port, pin)) == Some((port, pin))
  {
  }

  /** Every index 0 to 55 except 12 and 19 belongs to exactly the pin the reverse table names. */
  lemma IoconOnto(i: nat)
    ensures IoconPortPin(i).Some? <==> i < NUM_OF_IOCON && i != 12 && i != 19
    ensures IoconPortPin(i).Some? ==> IoconIndex(IoconPortPin(i).value.0, IoconPortPin(i).value.1) == i
  {
  }

  /** So no two listed pins share an IOCON register. */
  lemma IoconInjective(port1: nat, pin1: nat, port2: nat, pin2: nat)
    requires IoconIndex(port1, pin1) != IOCON_NONE && IoconIndex(port1, pin1) == IoconIndex(port2, pin2)
    ensures port1 == port2 && pin1 == pin2
  {
    IoconRoundTrip(port1, pin1);
    IoconRoundTrip(port2, pin2);
  }

  // ---------------------------------------------------------------------
  // Switch-matrix functions
  // ---------------------------------------------------------------------

  /** AlxIoPin_SwmFunc: 0 to 59 are movable functions, 60 to 98 fixed-pin functions, anything else none. */
  const SWM_MOVABLE_LAST: nat := 59
  const SWM_FIXED_LAST: nat := 98
  const NUM_OF_SWM_FIXED: nat := 39
  /** kSWM_PortPin_Reset: a movable function routed to no pin. */
  const SWM_PORT_PIN_RESET: nat := 0xFF

  // ---------------------------------------------------------------------
  // IOCON register bits
  // ---------------------------------------------------------------------

  /** A 32-bit IOCON register word, bit `k` at index `k`. */
  type Word = w: seq<bool> | |w| == 32 witness seq(32, _ => false)

  /** `w |= (1 << k)`. */
  function SetBit(w: Word, k: nat): Word
    requires k < 32
  {
    w[k := true]
  }

  /** `w &= ~(1 << k)`. */
  function ClearBit(w: Word, k: nat): Word
    requires k < 32
  {
    w[k := false]
  }

  /** The pull-mode field is bits 4:3; open drain is bit 10. */
  const MODE_LOW_BIT: nat := 3
  const MODE_HIGH_BIT: nat := 4
  const OPEN_DRAIN_BIT: nat := 10

  /** The four IOCON pull modes. */
  datatype IoconMode = Inact | PullDown | PullUp | Repeater

  /** The value of bits 4:3 for each mode: inactive 00, pull-down 01, pull-up 10, repeater 11. */
  function ModeField(m: IoconMode): (bool, bool)
  {
    match m
    case Inact => (false, false)
    case PullDown => (false, true)
    case PullUp => (true, false)
    case Repeater => (true, true)
  }

  /** The pull mode a register word selects. */
  function ModeOf(w: Word): IoconMode
  {
    match (w[MODE_HIGH_BIT], w[MODE_LOW_BIT])
    case (false, false) => Inact
    case (false, true) => PullDown
    case (true, false) => PullUp
    case (true, true) => Repeater
  }

  /** The register word with bits 4:3 set to the field of mode `m`. */
  function WithMode(w: Word, m: IoconMode): Word
  {
    w[MODE_LOW_BIT := ModeField(m).1][MODE_HIGH_BIT := ModeField(m).0]
  }

  /** The mode written is the mode read back, and only bits 4:3 change. */
  lemma WithModeReadsBack(w: Word, m: IoconMode)
    ensures ModeOf(WithMode(w, m)) == m
    ensures forall k :: 0 <= k < 32 && k != MODE_LOW_BIT && k != MODE_HIGH_BIT ==> WithMode(w, m)[k] == w[k]
  {
  }

  /** Writing back the mode a word already selects leaves the word as it was. */
  lemma WithOwnMode(w: Word)
    ensures WithMode(w, ModeOf(w)) == w
  {
  }

  /** Bits 4:3 differ between any two modes, so the field tells the mode. */
  lemma ModeFieldInjective(m1: IoconMode, m2: IoconMode)
    requires ModeField(m1) == ModeField(m2)
    ensures m1 == m2
  {
  }

  predicate OpenDrain(w: Word)
  {
    w[OPEN_DRAIN_BIT]
  }

  /** The register word with the open-drain bit set (`od`) or cleared. */
  function WithOpenDrain(w: Word, od: bool): Word
  {
    if od then SetBit(w, OPEN_DRAIN_BIT) else ClearBit(w, OPEN_DRAIN_BIT)
  }

  /** The open-drain setting written is read back, and the pull mode and every other bit stay. */
  lemma WithOpenDrainReadsBack(w: Word, od: bool)
    ensures OpenDrain(WithOpenDrain(w, od)) == od && ModeOf(WithOpenDrain(w, od)) == ModeOf(w)
    ensures forall k :: 0 <= k < 32 && k != OPEN_DRAIN_BIT ==> WithOpenDrain(w, od)[k] == w[k]
  {
  }

  /** The word DeInit leaves: an inactive, push-pull pin, every bit other than 3, 4 and 10 as it was. */
  lemma DeInitWord(w: Word)
    ensures var r := ClearBit(ClearBit(ClearBit(w, 3), 4), 10);
            r == WithOpenDrain(WithMode(w, Inact), false) && ModeOf(r) == Inact && !OpenDrain(r)
            && forall k :: 0 <= k < 32 && k != 3 && k != 4 && k != 10 ==> r[k] == w[k]
  {
  }

  class IoPin {
    const port: nat
    const pin: nat
    const swmFunc: nat
    const mode: IoconMode
    const isOpenDrain: bool
    const dir: bool
    const val: bool

    var swmFuncIsMovable: bool
    var isInit: bool
    var wasCtorCalled: bool

    const iocon: array<Word>
    const gpioDir: array2<bool>
    const gpioLevel: array2<bool>
    const swmMovable: array<nat>
    const swmFixed: array<bool>

    ghost predicate Valid()
      reads this
    {
      port <= 1 && pin < 32
      && iocon.Length == NUM_OF_IOCON
      && gpioDir.Length0 == 2 && gpioDir.Length1 == 32 && gpioLevel.Length0 == 2 && gpioLevel.Length1 == 32
      && gpioDir != gpioLevel
      && swmMovable.Length == SWM_MOVABLE_LAST + 1 && swmFixed.Length == NUM_OF_SWM_FIXED
    }

    /** Every pin of `g` other than this one is as it was in `h`. */
    ghost predicate OthersKept(g: array2<bool>, h: seq<seq<bool>>)
      reads this, g
      requires Valid() && g.Length0 == 2 && g.Length1 == 32
    {
      |h| == 2 && (forall p :: 0 <= p < 2 ==> |h[p]| == 32)
      && forall p, q :: 0 <= p < 2 && 0 <= q < 32 && (p != port || q != pin) ==> g[p, q] == h[p][q]
    }

    ghost function Snapshot(g: array2<bool>): (h: seq<seq<bool>>)
      reads g
      requires g.Length0 == 2 && g.Length1 == 32
      ensures |h| == 2 && forall p :: 0 <= p < 2 ==> |h[p]| == 32 && forall q :: 0 <= q < 32 ==> h[p][q] == g[p, q]
    {
      seq(2, p requires 0 <= p < 2 reads g => seq(32, q requires 0 <= q < 32 reads g => g[p, q]))
    }

    /** The constructor records the pin's parameters and the peripherals it drives; the driver is not initialised. */
    constructor (port: nat, pin: nat, swmFunc: nat, mode: IoconMode, isOpenDrain: bool, dir: bool, val: bool,
                 iocon: array<Word>, gpioDir: array2<bool>, gpioLevel: array2<bool>, swmMovable: array<nat>, swmFixed: array<bool>)
      requires port <= 1 && pin < 32
      requires iocon.Length == NUM_OF_IOCON
      requires gpioDir.Length0 == 2 && gpioDir.Length1 == 32 && gpioLevel.Length0 == 2 && gpioLevel.Length1 == 32
      requires gpioDir != gpioLevel
      requires swmMovable.Length == SWM_MOVABLE_LAST + 1 && swmFixed.Length == NUM_OF_SWM_FIXED
      ensures Valid() && !isInit && wasCtorCalled
      ensures this.port == port && this.pin == pin && this.swmFunc == swmFunc && this.mode == mode
      ensures this.isOpenDrain == isOpenDrain && this.dir == dir && this.val == val
      ensures this.iocon == iocon && this.gpioDir == gpioDir && this.gpioLevel == gpioLevel
      ensures this.swmMovable == swmMovable && this.swmFixed == swmFixed
    {
      this.port := port;
      this.pin := pin;
      this.swmFunc := swmFunc;
      this.mode := mode;
      this.isOpenDrain := isOpenDrain;
      this.dir := dir;
      this.val := val;
      this.iocon := iocon;
      this.gpioDir := gpioDir;
      this.gpioLevel := gpioLevel;
      this.swmMovable := swmMovable;
      this.swmFixed := swmFixed;
      swmFuncIsMovable := false;
      isInit := false;
      wasCtorCalled := true;
    }

    /** CheckIfSwmUsed: the pin uses the switch matrix for functions up to 98, movable ones up to 59; only then is the movable flag updated. */
    method CheckIfSwmUsed() returns (used: bool)
      modifies this`swmFuncIsMovable
      ensures used <==> swmFunc <= SWM_FIXED_LAST
      ensures used ==> (swmFuncIsMovable <==> swmFunc <= SWM_MOVABLE_LAST)
      ensures !used ==> swmFuncIsMovable == old(swmFuncIsMovable)
    {
      if swmFunc <= SWM_MOVABLE_LAST {
        swmFuncIsMovable := true;
        return true;
      }
      if SWM_MOVABLE_LAST < swmFunc <= SWM_FIXED_LAST {
        swmFuncIsMovable := false;
        return true;
      }
      return false;
    }

    /** SetIoconMode: the mode bits of the pin's IOCON register follow `mode`; nothing else changes. */
    method SetIoconMode()
      requires Valid() && IoconIndex(port, pin) != IOCON_NONE
      modifies iocon
      ensures var i := IoconIndex(port, pin);
              iocon[i] == WithMode(old(iocon[i]), mode)
              && forall k :: 0 <= k < iocon.Length && k != i ==> iocon[k] == old(iocon[k])
    {
      var i := IoconIndex(port, pin);
      if mode == Inact {
        iocon[i] := ClearBit(iocon[i], 3);
        iocon[i] := ClearBit(iocon[i], 4);
      }
      if mode == PullDown {
        iocon[i] := SetBit(iocon[i], 3);
        iocon[i] := ClearBit(iocon[i], 4);
      }
      if mode == PullUp {
        iocon[i] := ClearBit(iocon[i], 3);
        iocon[i] := SetBit(iocon[i], 4);
      }
      if mode == Repeater {
        iocon[i] := SetBit(iocon[i], 3);
        iocon[i] := SetBit(iocon[i], 4);
      }
    }

    /** Write: drive the pin to `v`; every other pin keeps its level. */
    method Write(v: bool)
      requires Valid() && isInit && wasCtorCalled
      modifies gpioLevel
      ensures gpioLevel[port, pin] == v && OthersKept(gpioLevel, old(Snapshot(gpioLevel)))
    {
      gpioLevel[port, pin] := v;
    }

    method Read() returns (v: bool)
      requires Valid() && isInit && wasCtorCalled
      ensures v == gpioLevel[port, pin]
    {
      v := gpioLevel[port, pin];
    }

    method Set()
      requires Valid() && isInit && wasCtorCalled
      modifies gpioLevel
      ensures gpioLevel[port, pin] && OthersKept(gpioLevel, old(Snapshot(gpioLevel)))
    {
      gpioLevel[port, pin] := true;
    }

    method Reset()
      requires Valid() && isInit && wasCtorCalled
      modifies gpioLevel
      ensures !gpioLevel[port, pin] && OthersKept(gpioLevel, old(Snapshot(gpioLevel)))
    {
      gpioLevel[port, pin] := false;
    }

    method Toggle()
      requires Valid() && isInit && wasCtorCalled
      modifies gpioLevel
      ensures gpioLevel[port, pin] == !old(gpioLevel[port, pin]) && OthersKept(gpioLevel, old(Snapshot(gpioLevel)))
    {
      gpioLevel[port, pin] := !gpioLevel[port, pin];
    }

    /** Init's routing step: the switch-matrix function goes to this pin or, without one, the GPIO direction is set. */
    method SelectFunction()
      requires Valid()
      modifies this`swmFuncIsMovable, gpioDir, swmMovable, swmFixed
      ensures swmFunc <= SWM_MOVABLE_LAST ==>
                swmMovable[..] == old(swmMovable[..])[swmFunc := SwmPortPinIndex(port, pin)]
                && swmFixed[..] == old(swmFixed[..]) && Snapshot(gpioDir) == old(Snapshot(gpioDir)) && swmFuncIsMovable
      ensures SWM_MOVABLE_LAST < swmFunc <= SWM_FIXED_LAST ==>
                swmFixed[..] == old(swmFixed[..])[swmFunc - SWM_MOVABLE_LAST - 1 := true]
                && swmMovable[..] == old(swmMovable[..]) && Snapshot(gpioDir) == old(Snapshot(gpioDir)) && !swmFuncIsMovable
      ensures SWM_FIXED_LAST < swmFunc ==>
                gpioDir[port, pin] == dir && OthersKept(gpioDir, old(Snapshot(gpioDir)))
                && swmMovable[..] == old(swmMovable[..]) && swmFixed[..] == old(swmFixed[..])
                && swmFuncIsMovable == old(swmFuncIsMovable)
    {
      var used := CheckIfSwmUsed();
      if used {
        if swmFuncIsMovable {
          swmMovable[swmFunc] := SwmPortPinIndex(port, pin);
        } else {
          swmFixed[swmFunc - SWM_MOVABLE_LAST - 1] := true;
        }
      } else {
        gpioDir[port, pin] := dir;
      }
    }

    /**
     * Init: marks the driver initialised before its first pin write, drives
     * the initial level, sets the pull mode and open-drain bit, then routes
     * the switch-matrix function or, without one, sets the GPIO direction,
     * and drives the initial level again.
     */
    method Init()
      requires Valid() && !isInit && wasCtorCalled && IoconIndex(port, pin) != IOCON_NONE
      modifies this`isInit, this`swmFuncIsMovable, iocon, gpioDir, gpioLevel, swmMovable, swmFixed
      ensures isInit
      ensures var i := IoconIndex(port, pin);
              iocon[i] == WithOpenDrain(WithMode(old(iocon[i]), mode), isOpenDrain)
              && forall k :: 0 <= k < iocon.Length && k != i ==> iocon[k] == old(iocon[k])
      ensures gpioLevel[port, pin] == val && OthersKept(gpioLevel, old(Snapshot(gpioLevel)))
      ensures swmFunc <= SWM_MOVABLE_LAST ==>
                swmMovable[..] == old(swmMovable[..])[swmFunc := SwmPortPinIndex(port, pin)]
                && swmFixed[..] == old(swmFixed[..]) && Snapshot(gpioDir) == old(Snapshot(gpioDir)) && swmFuncIsMovable
      ensures SWM_MOVABLE_LAST < swmFunc <= SWM_FIXED_LAST ==>
                swmFixed[..] == old(swmFixed[..])[swmFunc - SWM_MOVABLE_LAST - 1 := true]
                && swmMovable[..] == old(swmMovable[..]) && Snapshot(gpioDir) == old(Snapshot(gpioDir)) && !swmFuncIsMovable
      ensures SWM_FIXED_LAST < swmFunc ==>
                gpioDir[port, pin] == dir && OthersKept(gpioDir, old(Snapshot(gpioDir)))
                && swmMovable[..] == old(swmMovable[..]) && swmFixed[..] == old(swmFixed[..])
                && swmFuncIsMovable == old(swmFuncIsMovable)
    {
      isInit := true;
      Write(val);
      var i := IoconIndex(port, pin);
      SetIoconMode();
      if isOpenDrain {
        iocon[i] := SetBit(iocon[i], 10);
      } else {
        iocon[i] := ClearBit(iocon[i], 10);
      }
      SelectFunction();
      Write(val);
    }

    /** DeInit's release step: the switch-matrix function is unrouted or, without one, the pin made an input. */
    method ReleaseFunction()
      requires Valid()
      modifies this`swmFuncIsMovable, gpioDir, swmMovable, swmFixed
      ensures swmFunc <= SWM_MOVABLE_LAST ==>
                swmMovable[..] == old(swmMovable[..])[swmFunc := SWM_PORT_PIN_RESET]
                && swmFixed[..] == old(swmFixed[..]) && Snapshot(gpioDir) == old(Snapshot(gpioDir))
      ensures SWM_MOVABLE_LAST < swmFunc <= SWM_FIXED_LAST ==>
                swmFixed[..] == old(swmFixed[..])[swmFunc - SWM_MOVABLE_LAST - 1 := false]
                && swmMovable[..] == old(swmMovable[..]) && Snapshot(gpioDir) == old(Snapshot(gpioDir))
      ensures SWM_FIXED_LAST < swmFunc ==>
                !gpioDir[port, pin] && OthersKept(gpioDir, old(Snapshot(gpioDir)))
                && swmMovable[..] == old(swmMovable[..]) && swmFixed[..] == old(swmFixed[..])
    {
      var used := CheckIfSwmUsed();
      if used {
        if swmFuncIsMovable {
          swmMovable[swmFunc] := SWM_PORT_PIN_RESET;
        } else {
          swmFixed[swmFunc - SWM_MOVABLE_LAST - 1] := false;
        }
      } else {
        gpioDir[port, pin] := false;
      }
    }

    /**
     * DeInit: clears the pull mode and open-drain bits (3, 4 and 10), unroutes
     * the switch-matrix function or, without one, makes the pin an input, and
     * marks the driver no longer initialised.
     */
    method DeInit()
      requires Valid() && isInit && wasCtorCalled && IoconIndex(port, pin) != IOCON_NONE
      modifies this`isInit, this`swmFuncIsMovable, iocon, gpioDir, swmMovable, swmFixed
      ensures !isInit
      ensures var i := IoconIndex(port, pin);
              iocon[i] == WithOpenDrain(WithMode(old(iocon[i]), Inact), false)
              && forall k :: 0 <= k < iocon.Length && k != i ==> iocon[k] == old(iocon[k])
      ensures swmFunc <= SWM_MOVABLE_LAST ==>
                swmMovable[..] == old(swmMovable[..])[swmFunc := SWM_PORT_PIN_RESET]
                && swmFixed[..] == old(swmFixed[..]) && Snapshot(gpioDir) == old(Snapshot(gpioDir))
      ensures SWM_MOVABLE_LAST < swmFunc <= SWM_FIXED_LAST ==>
                swmFixed[..] == old(swmFixed[..])[swmFunc - SWM_MOVABLE_LAST - 1 := false]
                && swmMovable[..] == old(swmMovable[..]) && Snapshot(gpioDir) == old(Snapshot(gpioDir))
      ensures SWM_FIXED_LAST < swmFunc ==>
                !gpioDir[port, pin] && OthersKept(gpioDir, old(Snapshot(gpioDir)))
                && swmMovable[..] == old(swmMovable[..]) && swmFixed[..] == old(swmFixed[..])
    {
      var i := IoconIndex(port, pin);
      iocon[i] := ClearBit(iocon[i], 3);
      iocon[i] := ClearBit(iocon[i], 4);
      iocon[i] := ClearBit(iocon[i], 10);
      ReleaseFunction();
      isInit := false;
    }
  }
}
