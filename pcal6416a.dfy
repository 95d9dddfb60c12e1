/**
 * The PCAL6416A 16-bit I2C IO expander: its shadow register map, the
 * zero-initialisation done by the constructor and the pin operations
 * that read the input ports and change the output ports in the shadow
 * registers. Transfers over I2C are not part of this model.
 */
module AlxPcal6416a {
  import opened AlxCommon

  /** P0_0..P0_7 are pins 0..7 and P1_0..P1_7 are pins 8..15. */
  type PortPin = p: nat | p < 16

  const INPUT_PORT_0: nat := 0x00
  const OUTPUT_PORT_0: nat := 0x02

  /** The register map: 0x00..0x07, 0x40..0x4D and 0x4F (there is no 0x4E). */
  const REG_ADDRS: set<nat> := set a: nat | a < 0x50 && (a < 0x08 || 0x40 <= a) && a != 0x4E

  /** Input ports and IRQ status: read-only, never zeroed by the driver. */
  const READ_ONLY: set<nat> := {0x00, 0x01, 0x4C, 0x4D}

  /** RegStruct_SetValToZero: every writable shadow is 0, the read-only ones keep their value. */
  function ZeroWritable(m: map<nat, U8>): (r: map<nat, U8>)
    requires m.Keys == REG_ADDRS
    ensures r.Keys == REG_ADDRS
    ensures forall a :: a in REG_ADDRS && a !in READ_ONLY ==> r[a] == 0
    ensures forall a :: a in READ_ONLY ==> a in m && r[a] == m[a]
  {
    map a | a in REG_ADDRS :: if a in READ_ONLY then m[a] else 0
  }

  /** The zeroed registers are the nineteen writable ones. */
  lemma ZeroedRegisters()
    ensures REG_ADDRS - READ_ONLY == {0x02, 0x03, 0x04, 0x05, 0x06, 0x07, 0x40, 0x41, 0x42, 0x43,
                                      0x44, 0x45, 0x46, 0x47, 0x48, 0x49, 0x4A, 0x4B, 0x4F}
  {
    var zeroed: set<nat> := {0x02, 0x03, 0x04, 0x05, 0x06, 0x07, 0x40, 0x41, 0x42, 0x43,
                             0x44, 0x45, 0x46, 0x47, 0x48, 0x49, 0x4A, 0x4B, 0x4F};
    forall a | a in REG_ADDRS - READ_ONLY
      ensures a in zeroed
    {
      assert 0x02 <= a < 0x08 || 0x40 <= a < 0x4C || a == 0x4F;
      if a < 0x08 {
        assert a == 0x02 || a == 0x03 || a == 0x04 || a == 0x05 || a == 0x06 || a == 0x07;
      } else if a < 0x44 {
        assert a == 0x40 || a == 0x41 || a == 0x42 || a == 0x43;
      } else if a < 0x48 {
        assert a == 0x44 || a == 0x45 || a == 0x46 || a == 0x47;
      } else if a < 0x4C {
        assert a == 0x48 || a == 0x49 || a == 0x4A || a == 0x4B;
      }
    }
  }

  /** The input register that holds `pin`: port `pin / 8`. */
  function InputAddr(pin: PortPin): (a: nat)
    ensures a in READ_ONLY && a < 2
  {
    INPUT_PORT_0 + pin / 8
  }

  /** The output register that drives `pin`: port `pin / 8`. */
  function OutputAddr(pin: PortPin): (a: nat)
    ensures a in REG_ADDRS && a !in READ_ONLY
    ensures a == 0x02 <==> pin < 8
  {
    OUTPUT_PORT_0 + pin / 8
  }

  /** IoPin_Read as written: bit 3 of the pin picks the port, the mask is `1U << pin`. */
  function ReadAsWritten(in0: U8, in1: U8, pin: PortPin): bool
  {
    if pin < 8 then in0 & LowByteOfMask(pin) != 0 else in1 & LowByteOfMask(pin) != 0
  }

  /** IoPin_Write/Set/Reset/Toggle as written, on (OutputPort_0, OutputPort_1). */
  function OutputsAsWritten(out0: U8, out1: U8, pin: PortPin, op: PinOp): (U8, U8)
  {
    if pin < 8 then (ApplyMask(out0, LowByteOfMask(pin), op), out1)
    else (out0, ApplyMask(out1, LowByteOfMask(pin), op))
  }

  /** As written, a port-1 pin reads false and no operation changes either output port. */
  lemma Port1AsWrittenIsNoop(in0: U8, in1: U8, out0: U8, out1: U8, pin: PortPin, op: PinOp)
    requires 8 <= pin
    ensures !ReadAsWritten(in0, in1, pin)
    ensures OutputsAsWritten(out0, out1, pin, op) == (out0, out1)
  {
    EmptyMaskIsNoop(out1, op);
  }

  /** As written, port-0 pins behave as intended. */
  lemma Port0AsWrittenAgrees(in0: U8, in1: U8, out0: U8, out1: U8, pin: PortPin, op: PinOp)
    requires pin < 8
    ensures ReadAsWritten(in0, in1, pin) == Bit(in0, pin)
    ensures OutputsAsWritten(out0, out1, pin, op) == (ApplyPinOp(out0, pin, op), out1)
  {
  }

  /** Setting P1_0 as written leaves OutputPort_1 at 0, where bit 0 of it should be 1. */
  lemma Port1SetCounterexample()
    ensures OutputsAsWritten(0, 0, 8, SetOp) == (0, 0)
    ensures ApplyPinOp(0, 8 % 8, SetOp) == 1
  {
    Port1AsWrittenIsNoop(0, 0, 0, 0, 8, SetOp);
  }

  class Pcal6416a {
    /** The shadow registers, by register address. */
    var reg: map<nat, U8>
    var wasCtorCalled: bool
    var isInitPeriph: bool
    var isInit: bool

    /** The constructor zeroes the writable shadows; `prior` is what the object's storage held. */
    constructor (prior: map<nat, U8>)
      requires prior.Keys == REG_ADDRS
      ensures reg == ZeroWritable(prior)
      ensures wasCtorCalled && !isInitPeriph && !isInit
    {
      reg := ZeroWritable(prior);
      wasCtorCalled := true;
      isInitPeriph := false;
      isInit := false;
    }

    /** IoPin_Read: bit `pin % 8` of the input port of the pin; nothing changes. */
    method IoPinRead(pin: PortPin) returns (r: bool)
      requires wasCtorCalled && reg.Keys == REG_ADDRS
      ensures r <==> Bit(reg[InputAddr(pin)], pin % 8)
    {
      var raw := reg[InputAddr(pin)];
      r := raw & (1 << (pin % 8)) != 0;
    }

    /** Applies `op` to the pin's bit of its output port. */
    method UpdatePin(pin: PortPin, op: PinOp)
      requires wasCtorCalled && reg.Keys == REG_ADDRS
      modifies this`reg
      ensures reg == old(reg)[OutputAddr(pin) := ApplyPinOp(old(reg)[OutputAddr(pin)], pin % 8, op)]
    {
      var a := OutputAddr(pin);
      reg := reg[a := ApplyPinOp(reg[a], pin % 8, op)];
    }

    /** IoPin_Write: drives the pin's output bit to `val`, nothing else changes. */
    method IoPinWrite(pin: PortPin, val: bool)
      requires wasCtorCalled && reg.Keys == REG_ADDRS
      modifies this`reg
      ensures reg == old(reg)[OutputAddr(pin) := ApplyPinOp(old(reg)[OutputAddr(pin)], pin % 8, WriteOp(val))]
    {
      UpdatePin(pin, WriteOp(val));
    }

    /** IoPin_Set: sets the pin's output bit, nothing else changes. */
    method IoPinSet(pin: PortPin)
      requires wasCtorCalled && reg.Keys == REG_ADDRS
      modifies this`reg
      ensures reg == old(reg)[OutputAddr(pin) := ApplyPinOp(old(reg)[OutputAddr(pin)], pin % 8, SetOp)]
    {
      UpdatePin(pin, SetOp);
    }

    /** IoPin_Reset: clears the pin's output bit, nothing else changes. */
    method IoPinReset(pin: PortPin)
      requires wasCtorCalled && reg.Keys == REG_ADDRS
      modifies this`reg
      ensures reg == old(reg)[OutputAddr(pin) := ApplyPinOp(old(reg)[OutputAddr(pin)], pin % 8, ResetOp)]
    {
      UpdatePin(pin, ResetOp);
    }

    /** IoPin_Toggle: inverts the pin's output bit, nothing else changes. */
    method IoPinToggle(pin: PortPin)
      requires wasCtorCalled && reg.Keys == REG_ADDRS
      modifies this`reg
      ensures reg == old(reg)[OutputAddr(pin) := ApplyPinOp(old(reg)[OutputAddr(pin)], pin % 8, ToggleOp)]
    {
      UpdatePin(pin, ToggleOp);
    }
  }

  /** Toggling a pin twice restores the register map. */
  lemma ToggleTwiceRestores(m: map<nat, U8>, pin: PortPin)
    requires m.Keys == REG_ADDRS
    ensures var a := OutputAddr(pin);
            var once := m[a := ApplyPinOp(m[a], pin % 8, ToggleOp)];
            once[a := ApplyPinOp(once[a], pin % 8, ToggleOp)] == m
  {
    var a := OutputAddr(pin);
    ToggleTwice(m[a], pin % 8);
  }
}
