/**
 * The PCA9539A 16-bit I2C IO expander: shadow copies of its eight
 * registers plus the two open-drain masks, the pin operations on them,
 * and the poll handler that refreshes the inputs, emulates open-drain
 * outputs through the configuration registers and writes the outputs.
 * Each I2C register transfer is an oracle parameter.
 */
module AlxPca9539a {
  import opened AlxCommon

  const INPUT_PORT_0: nat := 0x00
  const INPUT_PORT_1: nat := 0x01
  const OUTPUT_PORT_0: nat := 0x02
  const OUTPUT_PORT_1: nat := 0x03
  const POLARITY_INVERSION_0: nat := 0x04
  const POLARITY_INVERSION_1: nat := 0x05
  const CONFIGURATION_0: nat := 0x06
  const CONFIGURATION_1: nat := 0x07

  /**
   * The open-drain emulation: on the open-drain bits the configuration
   * follows the output (1 = input, so the line floats high; 0 = output,
   * driven low), the other bits keep their configuration.
   */
  function OpenDrainConfig(cfg: U8, od: U8, out: U8): U8
  {
    (cfg & !od) | (od & out)
  }

  /** Bit by bit: an open-drain bit follows the output, any other bit keeps its configuration. */
  lemma OpenDrainConfigBits(cfg: U8, od: U8, out: U8)
    ensures var r := OpenDrainConfig(cfg, od, out);
            forall j :: 0 <= j < 8 ==> (Bit(r, j) <==> if Bit(od, j) then Bit(out, j) else Bit(cfg, j))
  {
    forall j | 0 <= j < 8
      ensures Bit(OpenDrainConfig(cfg, od, out), j) <==> if Bit(od, j) then Bit(out, j) else Bit(cfg, j)
    {
      OpenDrainBit(cfg, od, out, j);
    }
  }

  lemma OpenDrainBit(cfg: U8, od: U8, out: U8, j: nat)
    requires j < 8
    ensures Bit((cfg & !od) | (od & out), j) <==> if Bit(od, j) then Bit(out, j) else Bit(cfg, j)
  {
    OpenDrainMask(cfg, od, out, 1 << j);
  }

  /** The same for a mask with a single bit, which keeps the solver to plain bit-vector logic. */
  lemma OpenDrainMask(cfg: U8, od: U8, out: U8, m: U8)
    requires m == 1 || m == 2 || m == 4 || m == 8 || m == 16 || m == 32 || m == 64 || m == 128
    ensures ((cfg & !od) | (od & out)) & m != 0 <==> if od & m != 0 then out & m != 0 else cfg & m != 0
  {
  }

  /** With no open-drain bits the configuration is left as it is. */
  lemma NoOpenDrainKeepsConfig(cfg: U8, out: U8)
    ensures OpenDrainConfig(cfg, 0, out) == cfg
  {
  }

  /** The update is idempotent: applying it again to its result changes nothing. */
  lemma OpenDrainConfigIdempotent(cfg: U8, od: U8, out: U8)
    ensures OpenDrainConfig(OpenDrainConfig(cfg, od, out), od, out) == OpenDrainConfig(cfg, od, out)
  {
    var once := OpenDrainConfig(cfg, od, out);
    OpenDrainConfigBits(cfg, od, out);
    OpenDrainConfigBits(once, od, out);
    BitsDetermineByte(OpenDrainConfig(once, od, out), once);
  }

  /** The outcome of one I2C register transfer. */
  datatype Transfer = Transfer(ok: bool, val: U8)

  class Pca9539a {
    var in0: U8
    var in1: U8
    var out0: U8
    var out1: U8
    var pol0: U8
    var pol1: U8
    var cfg0: U8
    var cfg1: U8
    /** The pins of each port that are emulated as open-drain outputs. */
    var od0: U8
    var od1: U8
    var wasCtorCalled: bool
    var isInitPeriph: bool
    var isInit: bool

    /**
     * The constructor zeroes outputs, polarity, configuration and the
     * open-drain masks; the input shadows are not written by the source
     * and are taken as `prior0` and `prior1`.
     */
    constructor (prior0: U8, prior1: U8)
      ensures in0 == prior0 && in1 == prior1
      ensures out0 == 0 && out1 == 0 && pol0 == 0 && pol1 == 0
      ensures cfg0 == 0 && cfg1 == 0 && od0 == 0 && od1 == 0
      ensures wasCtorCalled && !isInitPeriph && !isInit
    {
      in0, in1 := prior0, prior1;
      out0, out1, pol0, pol1 := 0, 0, 0, 0;
      cfg0, cfg1, od0, od1 := 0, 0, 0, 0;
      wasCtorCalled, isInitPeriph, isInit := true, false, false;
    }

    /**
     * RegStruct_SetValToDefault: port 0 has pins 6 and 7 as inputs and
     * pin 6 open-drain, port 1 is all inputs; outputs are not touched.
     */
    method SetValToDefault()
      modifies this`pol0, this`pol1, this`cfg0, this`cfg1, this`od0, this`od1
      ensures pol0 == 0 && pol1 == 0 && cfg0 == 0xC0 && cfg1 == 0xFF
      ensures od0 == 0x40 && od1 == 0
    {
      pol0, pol1, cfg0, cfg1 := 0, 0, 0xC0, 0xFF;
      od0, od1 := 0x40, 0;
    }

    /**
     * IoPin_Read: bit `pin` of the port's input shadow. The source admits
     * pin 8, whose mask lies outside the byte: it reads false.
     */
    method IoPinRead(port: nat, pin: nat) returns (r: bool)
      requires wasCtorCalled
      requires port == 0 || port == 1
      requires pin <= 8
      ensures pin < 8 ==> (r <==> Bit(if port == 0 then in0 else in1, pin))
      ensures pin == 8 ==> !r
    {
      var raw := if port == 0 then in0 else in1;
      r := raw & LowByteOfMask(pin) != 0;
    }

    /** Read_Port_Raw: the whole input shadow of the port. */
    method ReadPortRaw(port: nat) returns (r: U8)
      requires wasCtorCalled
      requires port == 0 || port == 1
      ensures r == if port == 0 then in0 else in1
    {
      r := if port == 0 then in0 else in1;
    }

    /** Applies `op` with the mask `1 << pin` to the port's output shadow. */
    method UpdatePin(port: nat, pin: nat, op: PinOp)
      requires wasCtorCalled
      requires port == 0 || port == 1
      requires pin <= 8
      modifies this`out0, this`out1
      ensures pin < 8 && port == 0 ==> out0 == ApplyPinOp(old(out0), pin, op) && out1 == old(out1)
      ensures pin < 8 && port == 1 ==> out1 == ApplyPinOp(old(out1), pin, op) && out0 == old(out0)
      ensures pin == 8 ==> out0 == old(out0) && out1 == old(out1)
    {
      var m := LowByteOfMask(pin);
      if port == 0 {
        out0 := ApplyMask(out0, m, op);
      } else {
        out1 := ApplyMask(out1, m, op);
      }
      if pin == 8 {
        EmptyMaskIsNoop(old(out0), op);
        EmptyMaskIsNoop(old(out1), op);
      }
    }

    /** IoPin_Write: drives bit `pin` of the port's output to `val`; pin 8 changes nothing. */
    method IoPinWrite(port: nat, pin: nat, val: bool)
      requires wasCtorCalled
      requires port == 0 || port == 1
      requires pin <= 8
      modifies this`out0, this`out1
      ensures pin < 8 && port == 0 ==> out0 == ApplyPinOp(old(out0), pin, WriteOp(val)) && out1 == old(out1)
      ensures pin < 8 && port == 1 ==> out1 == ApplyPinOp(old(out1), pin, WriteOp(val)) && out0 == old(out0)
      ensures pin == 8 ==> out0 == old(out0) && out1 == old(out1)
    {
      UpdatePin(port, pin, WriteOp(val));
    }

    /** IoPin_Set: exactly IoPin_Write with `true`. */
    method IoPinSet(port: nat, pin: nat)
      requires wasCtorCalled
      requires port == 0 || port == 1
      requires pin <= 8
      modifies this`out0, this`out1
      ensures pin < 8 && port == 0 ==> out0 == ApplyPinOp(old(out0), pin, WriteOp(true)) && out1 == old(out1)
      ensures pin < 8 && port == 1 ==> out1 == ApplyPinOp(old(out1), pin, WriteOp(true)) && out0 == old(out0)
      ensures pin == 8 ==> out0 == old(out0) && out1 == old(out1)
    {
      IoPinWrite(port, pin, true);
    }

    /** IoPin_Reset: exactly IoPin_Write with `false`. */
    method IoPinReset(port: nat, pin: nat)
      requires wasCtorCalled
      requires port == 0 || port == 1
      requires pin <= 8
      modifies this`out0, this`out1
      ensures pin < 8 && port == 0 ==> out0 == ApplyPinOp(old(out0), pin, WriteOp(false)) && out1 == old(out1)
      ensures pin < 8 && port == 1 ==> out1 == ApplyPinOp(old(out1), pin, WriteOp(false)) && out0 == old(out0)
      ensures pin == 8 ==> out0 == old(out0) && out1 == old(out1)
    {
      IoPinWrite(port, pin, false);
    }

    /** IoPin_Toggle: inverts bit `pin` of the port's output; applied twice it restores the output. */
    method IoPinToggle(port: nat, pin: nat)
      requires wasCtorCalled
      requires port == 0 || port == 1
      requires pin <= 8
      modifies this`out0, this`out1
      ensures pin < 8 && port == 0 ==> out0 == ApplyPinOp(old(out0), pin, ToggleOp) && out1 == old(out1)
      ensures pin < 8 && port == 1 ==> out1 == ApplyPinOp(old(out1), pin, ToggleOp) && out0 == old(out0)
      ensures pin == 8 ==> out0 == old(out0) && out1 == old(out1)
    {
      UpdatePin(port, pin, ToggleOp);
    }

    /**
     * Handle: reads both input ports, then for each port with open-drain
     * pins updates and writes its configuration, then writes both output
     * ports; it stops at the first failed transfer. `read(a)` and
     * `writeOk(a)` are the outcomes of the transfers of register `a`.
     */
    method Handle(read: nat -> Transfer, writeOk: nat -> bool) returns (status: Status)
      requires wasCtorCalled && isInitPeriph && isInit
      modifies this`in0, this`in1, this`cfg0, this`cfg1
      ensures in0 == (if read(INPUT_PORT_0).ok then read(INPUT_PORT_0).val else old(in0))
      ensures in1 == (if read(INPUT_PORT_0).ok && read(INPUT_PORT_1).ok then read(INPUT_PORT_1).val else old(in1))
      ensures var readsOk := read(INPUT_PORT_0).ok && read(INPUT_PORT_1).ok;
              cfg0 == (if readsOk && od0 != 0 then OpenDrainConfig(old(cfg0), od0, out0) else old(cfg0))
      ensures var readsOk := read(INPUT_PORT_0).ok && read(INPUT_PORT_1).ok;
              var cfg0Ok := od0 == 0 || writeOk(CONFIGURATION_0);
              cfg1 == (if readsOk && cfg0Ok && od1 != 0 then OpenDrainConfig(old(cfg1), od1, out1) else old(cfg1))
      ensures status == Ok <==> read(INPUT_PORT_0).ok && read(INPUT_PORT_1).ok && DriveOk(od0, od1, writeOk)
    {
      var readsOk := ReadInputs(read);
      if !readsOk { return Err; }
      status := DriveOutputs(writeOk);
    }

    /** The read phase of Handle: InputPort_0, then InputPort_1 if the first read succeeded. */
    method ReadInputs(read: nat -> Transfer) returns (ok: bool)
      modifies this`in0, this`in1
      ensures ok == (read(INPUT_PORT_0).ok && read(INPUT_PORT_1).ok)
      ensures in0 == (if read(INPUT_PORT_0).ok then read(INPUT_PORT_0).val else old(in0))
      ensures in1 == (if ok then read(INPUT_PORT_1).val else old(in1))
    {
      var t := read(INPUT_PORT_0);
      if !t.ok { return false; }
      in0 := t.val;
      t := read(INPUT_PORT_1);
      if !t.ok { return false; }
      in1 := t.val;
      ok := true;
    }

    /** The write phase of Handle: open-drain configuration of each port, then both outputs. */
    method DriveOutputs(writeOk: nat -> bool) returns (status: Status)
      modifies this`cfg0, this`cfg1
      ensures cfg0 == (if od0 != 0 then OpenDrainConfig(old(cfg0), od0, out0) else old(cfg0))
      ensures var cfg0Ok := od0 == 0 || writeOk(CONFIGURATION_0);
              cfg1 == (if cfg0Ok && od1 != 0 then OpenDrainConfig(old(cfg1), od1, out1) else old(cfg1))
      ensures status == Ok <==> DriveOk(od0, od1, writeOk)
    {
      var ok := OpenDrainPort0(writeOk);
      if !ok { return Err; }
      ok := OpenDrainPort1(writeOk);
      if !ok { return Err; }
      if !writeOk(OUTPUT_PORT_0) { return Err; }
      if !writeOk(OUTPUT_PORT_1) { return Err; }
      status := Ok;
    }

    /** Port 0 of the open-drain emulation: nothing to do without open-drain pins. */
    method OpenDrainPort0(writeOk: nat -> bool) returns (ok: bool)
      modifies this`cfg0
      ensures cfg0 == (if od0 != 0 then OpenDrainConfig(old(cfg0), od0, out0) else old(cfg0))
      ensures ok == (od0 == 0 || writeOk(CONFIGURATION_0))
    {
      ok := true;
      if od0 != 0 {
        cfg0 := OpenDrainConfig(cfg0, od0, out0);
        ok := writeOk(CONFIGURATION_0);
      }
    }

    /** Port 1 of the open-drain emulation. */
    method OpenDrainPort1(writeOk: nat -> bool) returns (ok: bool)
      modifies this`cfg1
      ensures cfg1 == (if od1 != 0 then OpenDrainConfig(old(cfg1), od1, out1) else old(cfg1))
      ensures ok == (od1 == 0 || writeOk(CONFIGURATION_1))
    {
      ok := true;
      if od1 != 0 {
        cfg1 := OpenDrainConfig(cfg1, od1, out1);
        ok := writeOk(CONFIGURATION_1);
      }
    }

    /**
     * RegStruct_Write: writes polarity and configuration of both ports,
     * in register order, stopping at the first failed write.
     */
    method RegStructWrite(writeOk: nat -> bool) returns (status: Status)
      requires wasCtorCalled && isInitPeriph
      ensures status == Ok <==> writeOk(POLARITY_INVERSION_0) && writeOk(POLARITY_INVERSION_1)
                                && writeOk(CONFIGURATION_0) && writeOk(CONFIGURATION_1)
    {
      if !writeOk(POLARITY_INVERSION_0) { return Err; }
      if !writeOk(POLARITY_INVERSION_1) { return Err; }
      if !writeOk(CONFIGURATION_0) { return Err; }
      if !writeOk(CONFIGURATION_1) { return Err; }
      status := Ok;
    }
  }

  /** The writes of Handle all succeed: each open-drain port's configuration, then both outputs. */
  predicate DriveOk(od0: U8, od1: U8, writeOk: nat -> bool)
  {
    && (od0 != 0 ==> writeOk(CONFIGURATION_0))
    && (od1 != 0 ==> writeOk(CONFIGURATION_1))
    && writeOk(OUTPUT_PORT_0) && writeOk(OUTPUT_PORT_1)
  }
}
