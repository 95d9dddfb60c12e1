/** SD card driver in SPI mode (alxSd.c): command frames, the polling of
    response bytes, multi-block reads and writes with their tokens, and the
    retry structure of Init, DeInit, ReadBlock and WriteBlock. The SPI master
    is an oracle: every AlxSpi_Master_Write and AlxSpi_Master_WriteRead takes
    its outcome, and the bytes the card clocks back, from a script. Software
    timers become poll budgets: the number of polls after which the timer
    reports its timeout. */
module AlxSd {
  import opened AlxCommon
  import opened AlxBytes

  /** Data block length of an SDHC/SDXC card in SPI mode (SD Physical Layer
      Simplified Specification, section 7.2.3). */
  const BLOCK_LEN: nat := 512

  /** Number of 0xFF bytes sent to wake the card up (NUM_OF_PWR_UP_CLK_CYCLES). */
  const NUM_OF_PWR_UP_CLK_CYCLES: nat := 20

  /** The one-byte buffer of 0xFF sent as a sync byte. */
  const SYNC: seq<U8> := [0xFF]

  // ---------------------------------------------------------------------------
  // Command frames (SD Physical Layer Simplified Specification, section 7.3.1.1)
  // ---------------------------------------------------------------------------

  /** A six-byte command: `0x40 | index`, the 32-bit argument most significant
      byte first, and the CRC byte. */
  function CmdFrame(index: U8, arg: U32, crc: U8): (f: seq<U8>)
    ensures |f| == 6
  {
    [0x40 | index] + Msb32(arg) + [crc]
  }

  /** The fields of a command frame can be read back: the start and
      transmission bits are 0 and 1, the low six bits are the index, bytes 1..4
      are the argument big-endian and byte 5 is the CRC. */
  lemma CmdFrameFields(index: U8, arg: U32, crc: U8)
    requires index < 64
    ensures var f := CmdFrame(index, arg, crc);
      f[0] & 0xC0 == 0x40 && f[0] & 0x3F == index &&
      FromMsb32(f[1..5]) == arg && f[5] == crc
  {
    var f := CmdFrame(index, arg, crc);
    assert f[1..5] == Msb32(arg);
    Msb32RoundTrip(arg, 0, 0, 0, 0);
  }

  /** CMD0 (GO_IDLE_STATE), with its CRC 0x95. */
  const CMD0: seq<U8> := CmdFrame(0, 0, 0x95)
  /** CMD8 (SEND_IF_COND): voltage 2.7-3.6 V, check pattern 0xAA, CRC 0x87. */
  const CMD8: seq<U8> := CmdFrame(8, 0x0000_01AA, 0x87)
  /** CMD58 (READ_OCR). */
  const CMD58: seq<U8> := CmdFrame(58, 0, 0x01)
  /** CMD55 (APP_CMD), the prefix of every application command. */
  const CMD55: seq<U8> := CmdFrame(55, 0, 0x01)
  /** ACMD41 (SD_SEND_OP_COND) with the HCS bit set. */
  const ACMD41: seq<U8> := CmdFrame(41, 0x4000_0000, 0x01)
  /** CMD12 (STOP_TRANSMISSION). */
  const CMD12: seq<U8> := CmdFrame(12, 0, 0x01)
  /** CMD13 (SEND_STATUS). */
  const CMD13: seq<U8> := CmdFrame(13, 0, 0x01)

  /** The fixed frames are the bytes the C code writes into `cmd[]`. */
  lemma FixedFrames()
    ensures CMD0 == [0x40, 0x00, 0x00, 0x00, 0x00, 0x95]
    ensures CMD8 == [0x48, 0x00, 0x00, 0x01, 0xAA, 0x87]
    ensures CMD58 == [0x7A, 0x00, 0x00, 0x00, 0x00, 0x01]
    ensures CMD55 == [0x77, 0x00, 0x00, 0x00, 0x00, 0x01]
    ensures ACMD41 == [0x69, 0x40, 0x00, 0x00, 0x00, 0x01]
    ensures CMD12 == [0x4C, 0x00, 0x00, 0x00, 0x00, 0x01]
    ensures CMD13 == [0x4D, 0x00, 0x00, 0x00, 0x00, 0x01]
  {
  }

  // ---------------------------------------------------------------------------
  // The SPI master as an oracle
  // ---------------------------------------------------------------------------

  /** The outcome of one write-read: whether it succeeded and the bytes clocked in. */
  datatype Xfer = Xfer(ok: bool, rx: seq<U8>)

  /** The first `n` bytes of a reply, padded with the zeros of the receive
      buffer's initialiser. */
  function Fit(rx: seq<U8>, n: nat): (r: seq<U8>)
    ensures |r| == n
  {
    if |rx| >= n then rx[..n] else rx + seq(n - |rx|, _ => 0)
  }

  /** What the `k`-th scripted write-read of `n` bytes returns: a missing
      script entry fails. */
  function Reply(script: seq<Xfer>, k: nat, n: nat): (x: Xfer)
    ensures |x.rx| == n
  {
    if k < |script| then Xfer(script[k].ok, Fit(script[k].rx, n)) else Xfer(false, Fit([], n))
  }

  /** The script left after `k` write-reads. */
  function Drop(script: seq<Xfer>, k: nat): seq<Xfer>
  {
    if k <= |script| then script[k..] else []
  }

  class Spi {
    /** Chip select asserted. */
    var cs: bool
    /** Buffers handed to AlxSpi_Master_Write, in order. */
    var sent: seq<seq<U8>>
    /** Outcomes of the writes still to come. */
    var writeOk: seq<bool>
    /** Outcomes of the write-reads still to come (0xFF is clocked out). */
    var script: seq<Xfer>
    /** Write-reads done so far, with the bytes clocked in. */
    var received: seq<Xfer>

    constructor(writeOk: seq<bool>, script: seq<Xfer>)
      ensures !cs && sent == [] && received == []
      ensures this.writeOk == writeOk && this.script == script
    {
      cs := false;
      sent := [];
      this.writeOk := writeOk;
      this.script := script;
      received := [];
    }

    /** AlxSpi_Master_AssertCs. */
    method AssertCs()
      modifies this
      ensures cs
      ensures sent == old(sent) && writeOk == old(writeOk)
      ensures script == old(script) && received == old(received)
    {
      cs := true;
    }

    /** AlxSpi_Master_DeAssertCs. */
    method DeAssertCs()
      modifies this
      ensures !cs
      ensures sent == old(sent) && writeOk == old(writeOk)
      ensures script == old(script) && received == old(received)
    {
      cs := false;
    }

    /** AlxSpi_Master_Write: the buffer goes out and the scripted outcome is
        returned; with no outcome left the write fails. */
    method Write(data: seq<U8>) returns (ok: bool)
      modifies this
      ensures sent == old(sent) + [data]
      ensures ok == (old(writeOk) != [] && old(writeOk)[0])
      ensures writeOk == if old(writeOk) == [] then [] else old(writeOk)[1..]
      ensures cs == old(cs) && script == old(script) && received == old(received)
    {
      sent := sent + [data];
      if writeOk == [] {
        ok := false;
      } else {
        ok := writeOk[0];
        writeOk := writeOk[1..];
      }
    }

    /** AlxSpi_Master_WriteRead of `n` bytes of 0xFF. */
    method WriteRead(n: nat) returns (ok: bool, rx: seq<U8>)
      modifies this
      ensures Xfer(ok, rx) == Reply(old(script), 0, n)
      ensures received == old(received) + [Xfer(ok, rx)]
      ensures script == Drop(old(script), 1)
      ensures cs == old(cs) && sent == old(sent) && writeOk == old(writeOk)
    {
      var x := Reply(script, 0, n);
      ok, rx := x.ok, x.rx;
      received := received + [x];
      script := Drop(script, 1);
    }
  }

  // ---------------------------------------------------------------------------
  // Polling for a response byte (AlxSd_SpiMode_WaitByte)
  // ---------------------------------------------------------------------------

  /** The byte that ends a wait: its masked value equals the awaited one, or
      differs from it when waiting for a change. */
  predicate Wanted(b: U8, mask: U8, target: U8, isEqual: bool)
  {
    if isEqual then b & mask == target else b & mask != target
  }

  /** The polls of one wait, taken from the script: every poll but the last
      read a byte that does not end the wait. */
  predicate PollsBefore(polls: seq<Xfer>, mask: U8, target: U8, isEqual: bool)
  {
    forall j :: 0 <= j < |polls| - 1 ==> !Stops(polls[j], mask, target, isEqual)
  }

  /** A poll that ends a wait early: a failed transfer or a wanted byte. */
  predicate Stops(x: Xfer, mask: U8, target: U8, isEqual: bool)
  {
    !x.ok || (|x.rx| == 1 && Wanted(x.rx[0], mask, target, isEqual))
  }

  /** Write-reads of `n` bytes taken, in order, from the front of a script. */
  predicate FromScript(xs: seq<Xfer>, script: seq<Xfer>, n: nat)
  {
    forall j :: 0 <= j < |xs| ==> xs[j] == Reply(script, j, n)
  }

  lemma FromScriptSnoc(xs: seq<Xfer>, script: seq<Xfer>, n: nat, x: Xfer)
    requires FromScript(xs, script, n) && x == Reply(script, |xs|, n)
    ensures FromScript(xs + [x], script, n)
  {
  }

  /** The write-reads done since `before`, when `after` extends it. */
  function Polled(before: seq<Xfer>, after: seq<Xfer>): seq<Xfer>
  {
    if |before| <= |after| then after[|before|..] else []
  }

  /** A successful wait ends on a successful poll of a wanted byte. */
  predicate EndsWanted(polls: seq<Xfer>, mask: U8, target: U8, isEqual: bool)
  {
    |polls| > 0 && polls[|polls| - 1].ok && |polls[|polls| - 1].rx| == 1 &&
    Wanted(polls[|polls| - 1].rx[0], mask, target, isEqual)
  }

  /** Lemma for stepping through the script one write-read at a time. */
  lemma DropStep(script: seq<Xfer>, k: nat, n: nat)
    ensures Reply(Drop(script, k), 0, n) == Reply(script, k, n)
    ensures Drop(Drop(script, k), 1) == Drop(script, k + 1)
  {
  }

  /** The buffers one CMD55 + ACMD41 round writes. */
  function Acmd41Round(): seq<seq<U8>>
  {
    [SYNC, CMD55, SYNC, SYNC, SYNC, ACMD41, SYNC, SYNC]
  }

  /** The buffers `k` rounds write. */
  function Acmd41Rounds(k: nat): (r: seq<seq<U8>>)
    ensures |r| == 8 * k
  {
    if k == 0 then [] else Acmd41Rounds(k - 1) + Acmd41Round()
  }

  // ---------------------------------------------------------------------------
  // Multiple-block transfers (SD Physical Layer Simplified Specification, 7.3.3)
  // ---------------------------------------------------------------------------

  /** A data block following its start token: a successful poll that read
      0xFE, then a successful read of the block and its two CRC bytes. */
  predicate IsBlockAfterToken(token: Xfer, block: Xfer)
  {
    token.ok && token.rx == [0xFE] && block.ok && |block.rx| == BLOCK_LEN + 2
  }

  /** The data blocks among a sequence of write-reads, CRC bytes dropped. */
  function Blocks(rs: seq<Xfer>): (bs: seq<seq<U8>>)
    ensures forall k :: 0 <= k < |bs| ==> |bs[k]| == BLOCK_LEN
  {
    if |rs| < 2 then []
    else if IsBlockAfterToken(rs[|rs| - 2], rs[|rs| - 1]) then Blocks(rs[..|rs| - 1]) + [rs[|rs| - 1].rx[..BLOCK_LEN]]
    else Blocks(rs[..|rs| - 1])
  }

  /** One-byte polls contribute no block. */
  lemma {:induction false} BlocksAppendPolls(rs: seq<Xfer>, ps: seq<Xfer>)
    requires forall j :: 0 <= j < |ps| ==> |ps[j].rx| == 1
    ensures Blocks(rs + ps) == Blocks(rs)
  {
    if ps != [] {
      var init := ps[..|ps| - 1];
      BlocksAppendPolls(rs, init);
      var all := rs + ps;
      assert all[..|all| - 1] == rs + init;
      assert |all[|all| - 1].rx| == 1;
      if |all| >= 2 {
        assert !IsBlockAfterToken(all[|all| - 2], all[|all| - 1]);
      }
    } else {
      assert rs + ps == rs;
    }
  }

  /** A block read right after its token adds that block. */
  lemma BlocksAppendBlock(rs: seq<Xfer>, x: Xfer)
    requires |rs| > 0 && IsBlockAfterToken(rs[|rs| - 1], x)
    ensures Blocks(rs + [x]) == Blocks(rs) + [x.rx[..BLOCK_LEN]]
  {
    assert (rs + [x])[..|rs|] == rs;
  }

  /** The buffers written for the first `k` blocks of `data`: a 0xFC start
      token before each block. */
  function WriteFrames(data: seq<U8>, k: nat): (r: seq<seq<U8>>)
    requires k * BLOCK_LEN <= |data|
    ensures |r| == 2 * k
  {
    if k == 0 then []
    else WriteFrames(data, k - 1) + [[0xFC], data[(k - 1) * BLOCK_LEN..k * BLOCK_LEN]]
  }

  /** Each block of a write goes out whole, behind its start token. */
  lemma {:induction false} WriteFramesBlocks(data: seq<U8>, k: nat, i: nat)
    requires k * BLOCK_LEN <= |data| && i < k
    ensures WriteFrames(data, k)[2 * i] == [0xFC]
    ensures WriteFrames(data, k)[2 * i + 1] == data[i * BLOCK_LEN..(i + 1) * BLOCK_LEN]
  {
    if i < k - 1 {
      WriteFramesBlocks(data, k - 1, i);
    }
  }

  /** A start token polled with mask 0xFF is the byte 0xFE itself. */
  lemma TokenIsFE(x: Xfer)
    requires x.ok && |x.rx| == 1 && Wanted(x.rx[0], 0xFF, 0xFE, true)
    ensures x.rx == [0xFE]
  {
  }

  /** Polls for the start token followed by a read of a block and its CRC add
      exactly that block. */
  lemma TokenThenBlock(rs: seq<Xfer>, ps: seq<Xfer>, x: Xfer)
    requires forall j :: 0 <= j < |ps| ==> |ps[j].rx| == 1
    requires EndsWanted(ps, 0xFF, 0xFE, true)
    requires x.ok && |x.rx| == BLOCK_LEN + 2
    ensures Blocks(rs + (ps + [x])) == Blocks(rs) + [x.rx[..BLOCK_LEN]]
  {
    BlocksAppendPolls(rs, ps);
    TokenIsFE(ps[|ps| - 1]);
    assert (rs + ps)[|rs + ps| - 1] == ps[|ps| - 1];
    BlocksAppendBlock(rs + ps, x);
    assert rs + (ps + [x]) == (rs + ps) + [x];
  }

  // ---------------------------------------------------------------------------
  // The buffers of one successful try of Init, DeInit, ReadBlock, WriteBlock
  // ---------------------------------------------------------------------------

  /** AlxSd_SpiMode_GeneratePwrUpClkCycles. */
  function PwrUpFrames(): seq<seq<U8>>
  {
    [SYNC, seq(NUM_OF_PWR_UP_CLK_CYCLES, _ => 0xFF), SYNC]
  }

  /** A command exchange closed by its sync byte. */
  function CmdFrames(cmd: seq<U8>): seq<seq<U8>>
  {
    [SYNC, cmd, SYNC, SYNC]
  }

  /** Power-up clocks, CMD0, CMD8, CMD58, `rounds` of CMD55 + ACMD41, CMD58. */
  function InitFrames(rounds: nat): seq<seq<U8>>
  {
    PwrUpFrames() + CmdFrames(CMD0) + CmdFrames(CMD8) + CmdFrames(CMD58) + Acmd41Rounds(rounds) + CmdFrames(CMD58)
  }

  /** Power-up clocks and CMD0. */
  function DeInitFrames(): seq<seq<U8>>
  {
    PwrUpFrames() + CmdFrames(CMD0)
  }

  /** CMD18 at `addr`, the read of the blocks, CMD12. */
  function ReadFrames(addr: U32): seq<seq<U8>>
  {
    CmdFrames(CmdFrame(18, addr, 0x01)) + [SYNC, SYNC] + CmdFrames(CMD12)
  }

  /** CMD55 + ACMD23, CMD25 at `addr`, the blocks, CMD13. */
  function WriteBlockFrames(n: U32, addr: U32, data: seq<U8>, k: nat): seq<seq<U8>>
    requires k * BLOCK_LEN <= |data|
  {
    CmdFrames(CMD55) + CmdFrames(CmdFrame(23, n, 0x01)) + CmdFrames(CmdFrame(25, addr, 0x01)) +
    ([SYNC] + WriteFrames(data, k) + [[0xFD], SYNC, SYNC]) + CmdFrames(CMD13)
  }

  // ---------------------------------------------------------------------------
  // The try counters
  // ---------------------------------------------------------------------------

  /** The iterations of `for (uint8_t _try = t; _try <= n; _try++)` when every
      try fails, counted up to `fuel`: `_try` is a uint8_t and wraps from 255
      to 0. */
  function TriesAsWritten(n: nat, t: nat, fuel: nat): nat
    requires n < 256 && t < 256
    decreases fuel
  {
    if fuel == 0 || t > n then 0 else 1 + TriesAsWritten(n, (t + 1) % 256, fuel - 1)
  }

  /** Below 255 the loop makes `n` tries. */
  lemma {:induction false} TriesAsWrittenBelow255(n: nat, t: nat, fuel: nat)
    requires n < 255 && 1 <= t <= n + 1 && n + 1 - t <= fuel
    ensures TriesAsWritten(n, t, fuel) == n + 1 - t
    decreases fuel
  {
    if fuel > 0 && t <= n {
      TriesAsWrittenBelow255(n, t + 1, fuel - 1);
    }
  }

  /** With 255 the condition `_try <= 255` never fails: the loop goes on for
      as long as the tries fail, whatever the bound on the count. */
  lemma {:induction false} TriesAsWrittenNeverEndAt255(t: nat, fuel: nat)
    requires t < 256
    ensures TriesAsWritten(255, t, fuel) == fuel
    decreases fuel
  {
    if fuel > 0 {
      TriesAsWrittenNeverEndAt255((t + 1) % 256, fuel - 1);
    }
  }

  /** A software timer seen as the number of polls after which it reports its
      timeout: at least one, since the C loops poll before they check. */
  type Polls = n: nat | 0 < n witness 1

  // ---------------------------------------------------------------------------
  // The driver
  // ---------------------------------------------------------------------------

  class Sd {
    const spi: Spi
    const initDeInitNumOfTries: nat
    const cmdRespPolls: Polls
    const acmd41Polls: Polls
    const blockReadTokenFePolls: Polls
    const blockWriteDataAcceptedTokenPolls: Polls
    const blockWriteSdBusyPolls: Polls
    var wasCtorCalled: bool
    var isInit: bool

    /** AlxSd_Ctor. */
    constructor(spi: Spi, initDeInitNumOfTries: U8, cmdRespPolls: Polls, acmd41Polls: Polls,
                blockReadTokenFePolls: Polls, blockWriteDataAcceptedTokenPolls: Polls,
                blockWriteSdBusyPolls: Polls)
      ensures this.spi == spi && this.initDeInitNumOfTries == initDeInitNumOfTries as nat
      ensures this.cmdRespPolls == cmdRespPolls && this.acmd41Polls == acmd41Polls
      ensures this.blockReadTokenFePolls == blockReadTokenFePolls
      ensures this.blockWriteDataAcceptedTokenPolls == blockWriteDataAcceptedTokenPolls
      ensures this.blockWriteSdBusyPolls == blockWriteSdBusyPolls
      ensures wasCtorCalled && !isInit
    {
      this.spi := spi;
      this.initDeInitNumOfTries := initDeInitNumOfTries as nat;
      this.cmdRespPolls := cmdRespPolls;
      this.acmd41Polls := acmd41Polls;
      this.blockReadTokenFePolls := blockReadTokenFePolls;
      this.blockWriteDataAcceptedTokenPolls := blockWriteDataAcceptedTokenPolls;
      this.blockWriteSdBusyPolls := blockWriteSdBusyPolls;
      wasCtorCalled := true;
      isInit := false;
    }

    /** The check of one polled byte in AlxSd_SpiMode_WaitByte. */
    static method IsAwaited(b: U8, mask: U8, target: U8, isEqual: bool) returns (r: bool)
      ensures r == Wanted(b, mask, target, isEqual)
    {
      var masked := b & mask;
      if isEqual {
        r := masked == target;
      } else {
        r := masked != target;
      }
    }

    /** AlxSd_SpiMode_WaitByte: polls one byte at a time until its masked value
        is (or, with `isEqual` false, is no longer) the awaited one. A failed
        transfer or the timer running out ends the wait with Alx_Err. `polls`
        are the write-reads done. */
    method WaitByte(mask: U8, target: U8, isEqual: bool, budget: Polls)
      returns (status: Status, rxByte: U8, ghost polls: seq<Xfer>)
      modifies spi
      ensures spi.cs == old(spi.cs) && spi.sent == old(spi.sent) && spi.writeOk == old(spi.writeOk)
      ensures spi.received == old(spi.received) + polls
      ensures 0 < |polls| <= budget
      ensures FromScript(polls, old(spi.script), 1) && spi.script == Drop(old(spi.script), |polls|)
      ensures PollsBefore(polls, mask, target, isEqual)
      ensures Stops(polls[|polls| - 1], mask, target, isEqual) || |polls| == budget
      ensures status == Ok <==> EndsWanted(polls, mask, target, isEqual)
      ensures status == Ok ==> rxByte == polls[|polls| - 1].rx[0]
      ensures status == Ok || status == Err
    {
      ghost var s0 := spi.script;
      polls := [];
      rxByte := 0;
      var n := 0;
      while true
        invariant spi.cs == old(spi.cs) && spi.sent == old(spi.sent) && spi.writeOk == old(spi.writeOk)
        invariant spi.received == old(spi.received) + polls && spi.script == Drop(s0, |polls|)
        invariant n == |polls| < budget
        invariant FromScript(polls, s0, 1)
        invariant forall j :: 0 <= j < |polls| ==> !Stops(polls[j], mask, target, isEqual)
        decreases budget - n
      {
        DropStep(s0, |polls|, 1);
        var ok, rx := spi.WriteRead(1);
        FromScriptSnoc(polls, s0, 1, Xfer(ok, rx));
        polls := polls + [Xfer(ok, rx)];
        n := n + 1;
        assert polls[|polls| - 1] == Xfer(ok, rx);
        if !ok {
          return Err, rxByte, polls;
        }
        rxByte := rx[0];
        var matched := IsAwaited(rxByte, mask, target, isEqual);
        if matched {
          return Ok, rxByte, polls;
        }
        if n == budget {
          return Err, rxByte, polls;
        }
      }
    }

    /** AlxSd_SpiMode_AssertCs_SendSyncByte. */
    method AssertCsSendSyncByte() returns (status: Status)
      modifies spi
      ensures spi.cs && spi.sent == old(spi.sent) + [SYNC]
      ensures status == Ok <==> old(spi.writeOk) != [] && old(spi.writeOk)[0]
      ensures status == Ok || status == Err
      ensures spi.received == old(spi.received) && spi.script == old(spi.script)
    {
      spi.AssertCs();
      var ok := spi.Write(SYNC);
      if !ok {
        return Err;
      }
      return Ok;
    }

    /** AlxSd_SpiMode_SendSyncByte_DeAssertCs: chip select is released only
        after the sync byte went out. */
    method SendSyncByteDeAssertCs() returns (status: Status)
      modifies spi
      ensures spi.sent == old(spi.sent) + [SYNC]
      ensures status == Ok <==> old(spi.writeOk) != [] && old(spi.writeOk)[0]
      ensures status == Ok || status == Err
      ensures status == Ok ==> !spi.cs
      ensures spi.received == old(spi.received) && spi.script == old(spi.script)
    {
      var ok := spi.Write(SYNC);
      if !ok {
        return Err;
      }
      spi.DeAssertCs();
      return Ok;
    }

    /** AlxSd_SpiMode_GeneratePwrUpClkCycles: at least 74 clock cycles with
        chip select high, sent as 20 bytes of 0xFF between two sync bytes. */
    method GeneratePwrUpClkCycles() returns (status: Status)
      modifies spi
      ensures status == Ok || status == Err
      ensures !spi.cs
      ensures status == Ok ==> spi.sent == old(spi.sent) + [SYNC, seq(NUM_OF_PWR_UP_CLK_CYCLES, _ => 0xFF), SYNC]
      ensures spi.received == old(spi.received)
    {
      status := AssertCsSendSyncByte();
      if status != Ok {
        spi.DeAssertCs();
        return Err;
      }
      var ok := spi.Write(seq(NUM_OF_PWR_UP_CLK_CYCLES, _ => 0xFF));
      if !ok {
        spi.DeAssertCs();
        return Err;
      }
      status := SendSyncByteDeAssertCs();
      if status != Ok {
        spi.DeAssertCs();
        return Err;
      }
      return Ok;
    }

    /** The opening every AlxSd_SpiMode_Execute* function repeats: assert chip
        select and send a sync byte, send the frame and a sync byte, and poll
        for the R1 response with `mask`/`target`. On a failure chip select is
        released and the result is Alx_Err. */
    method SendCmdAndWaitR1(cmd: seq<U8>, mask: U8, target: U8)
      returns (status: Status, rxByte: U8, ghost polls: seq<Xfer>)
      modifies spi
      ensures status == Ok || status == Err
      ensures spi.received == old(spi.received) + polls
      ensures status == Ok ==> spi.cs && spi.sent == old(spi.sent) + [SYNC, cmd, SYNC]
      ensures status == Ok ==> EndsWanted(polls, mask, target, true) && rxByte == polls[|polls| - 1].rx[0]
      ensures status != Ok ==> !spi.cs
    {
      polls := [];
      status := AssertCsSendSyncByte();
      rxByte := 0;
      if status != Ok {
        spi.DeAssertCs();
        return Err, rxByte, polls;
      }
      var ok := spi.Write(cmd);
      if !ok {
        spi.DeAssertCs();
        return Err, rxByte, polls;
      }
      ok := spi.Write(SYNC);
      if !ok {
        spi.DeAssertCs();
        return Err, rxByte, polls;
      }
      status, rxByte, polls := WaitByte(mask, target, true, cmdRespPolls);
      if status != Ok {
        spi.DeAssertCs();
        return Err, rxByte, polls;
      }
    }

    /** A command answered by R1 alone (CMD0, CMD18, CMD25): the exchange,
        then a sync byte and chip select released. */
    method ExecuteR1(cmd: seq<U8>, target: U8) returns (status: Status, ghost polls: seq<Xfer>)
      modifies spi
      ensures status == Ok || status == Err
      ensures !spi.cs
      ensures spi.received == old(spi.received) + polls
      ensures status == Ok ==> spi.sent == old(spi.sent) + [SYNC, cmd, SYNC, SYNC]
      ensures status == Ok ==> EndsWanted(polls, 0xFF, target, true)
    {
      var rxByte;
      status, rxByte, polls := SendCmdAndWaitR1(cmd, 0xFF, target);
      if status != Ok {
        return Err, polls;
      }
      status := SendSyncByteDeAssertCs();
      if status != Ok {
        spi.DeAssertCs();
        return Err, polls;
      }
    }

    /** AlxSd_SpiMode_ExecuteCmd0: CMD0 with chip select asserted resets the
        card into SPI mode; R1 must read 0x01 (idle). */
    method ExecuteCmd0() returns (status: Status, ghost polls: seq<Xfer>)
      modifies spi
      ensures status == Ok || status == Err
      ensures !spi.cs
      ensures spi.received == old(spi.received) + polls
      ensures status == Ok ==> spi.sent == old(spi.sent) + [SYNC, CMD0, SYNC, SYNC]
      ensures status == Ok ==> EndsWanted(polls, 0xFF, 0x01, true)
    {
      status, polls := ExecuteR1(CMD0, 0x01);
    }

    /** AlxSd_SpiMode_ExecuteCmd18: start a multiple-block read at `addr`; R1
        must read 0x00 (ready). */
    method ExecuteCmd18(addr: U32) returns (status: Status, ghost polls: seq<Xfer>)
      modifies spi
      ensures status == Ok || status == Err
      ensures !spi.cs
      ensures spi.received == old(spi.received) + polls
      ensures status == Ok ==> spi.sent == old(spi.sent) + [SYNC, CmdFrame(18, addr, 0x01), SYNC, SYNC]
      ensures status == Ok ==> EndsWanted(polls, 0xFF, 0x00, true)
    {
      status, polls := ExecuteR1(CmdFrame(18, addr, 0x01), 0x00);
    }

    /** AlxSd_SpiMode_ExecuteCmd25: start a multiple-block write at `addr`; R1
        must read 0x00. */
    method ExecuteCmd25(addr: U32) returns (status: Status, ghost polls: seq<Xfer>)
      modifies spi
      ensures status == Ok || status == Err
      ensures !spi.cs
      ensures spi.received == old(spi.received) + polls
      ensures status == Ok ==> spi.sent == old(spi.sent) + [SYNC, CmdFrame(25, addr, 0x01), SYNC, SYNC]
      ensures status == Ok ==> EndsWanted(polls, 0xFF, 0x00, true)
    {
      status, polls := ExecuteR1(CmdFrame(25, addr, 0x01), 0x00);
    }

    /** A command answered by R1 and four more bytes (CMD8 with R7, CMD58 with
        R3). The four bytes are read but not checked. */
    method ExecuteR1Rest4(cmd: seq<U8>, target: U8) returns (status: Status, ghost polls: seq<Xfer>)
      modifies spi
      ensures status == Ok || status == Err
      ensures !spi.cs
      ensures spi.received == old(spi.received) + polls
      ensures status == Ok ==> spi.sent == old(spi.sent) + [SYNC, cmd, SYNC, SYNC]
      ensures status == Ok ==> |polls| >= 2 && EndsWanted(polls[..|polls| - 1], 0xFF, target, true)
      ensures status == Ok ==> polls[|polls| - 1].ok && |polls[|polls| - 1].rx| == 4
    {
      var rxByte;
      ghost var r1;
      status, rxByte, r1 := SendCmdAndWaitR1(cmd, 0xFF, target);
      polls := r1;
      if status != Ok {
        return Err, polls;
      }
      var ok, resp := spi.WriteRead(4);
      polls := r1 + [Xfer(ok, resp)];
      if !ok {
        spi.DeAssertCs();
        return Err, polls;
      }
      status := SendSyncByteDeAssertCs();
      if status != Ok {
        spi.DeAssertCs();
        return Err, polls;
      }
      assert polls[..|polls| - 1] == r1;
    }

    /** AlxSd_SpiMode_ExecuteCmd8: interface condition; R1 must read 0x01. */
    method ExecuteCmd8() returns (status: Status, ghost polls: seq<Xfer>)
      modifies spi
      ensures status == Ok || status == Err
      ensures !spi.cs
      ensures spi.received == old(spi.received) + polls
      ensures status == Ok ==> spi.sent == old(spi.sent) + [SYNC, CMD8, SYNC, SYNC]
      ensures status == Ok ==> |polls| >= 2 && EndsWanted(polls[..|polls| - 1], 0xFF, 0x01, true)
    {
      status, polls := ExecuteR1Rest4(CMD8, 0x01);
    }

    /** AlxSd_SpiMode_ExecuteCmd58_SdIdle: OCR read while idle; R1 must read 0x01. */
    method ExecuteCmd58SdIdle() returns (status: Status, ghost polls: seq<Xfer>)
      modifies spi
      ensures status == Ok || status == Err
      ensures !spi.cs
      ensures spi.received == old(spi.received) + polls
      ensures status == Ok ==> spi.sent == old(spi.sent) + [SYNC, CMD58, SYNC, SYNC]
      ensures status == Ok ==> |polls| >= 2 && EndsWanted(polls[..|polls| - 1], 0xFF, 0x01, true)
    {
      status, polls := ExecuteR1Rest4(CMD58, 0x01);
    }

    /** AlxSd_SpiMode_ExecuteCmd58_SdReady: OCR read once ready; R1 must read 0x00. */
    method ExecuteCmd58SdReady() returns (status: Status, ghost polls: seq<Xfer>)
      modifies spi
      ensures status == Ok || status == Err
      ensures !spi.cs
      ensures spi.received == old(spi.received) + polls
      ensures status == Ok ==> spi.sent == old(spi.sent) + [SYNC, CMD58, SYNC, SYNC]
      ensures status == Ok ==> |polls| >= 2 && EndsWanted(polls[..|polls| - 1], 0xFF, 0x00, true)
    {
      status, polls := ExecuteR1Rest4(CMD58, 0x00);
    }

    /** AlxSd_SpiMode_ExecuteCmd12: stop transmission; R1 must read 0x00, then
        the card is polled until it leaves the busy (0x00) state. */
    method ExecuteCmd12() returns (status: Status, ghost polls: seq<Xfer>)
      modifies spi
      ensures status == Ok || status == Err
      ensures !spi.cs
      ensures spi.received == old(spi.received) + polls
      ensures status == Ok ==> spi.sent == old(spi.sent) + [SYNC, CMD12, SYNC, SYNC]
      ensures status == Ok ==> |polls| > 0 && polls[|polls| - 1].ok && polls[|polls| - 1].rx != [0x00]
    {
      var rxByte;
      ghost var r1, busy;
      status, rxByte, r1 := SendCmdAndWaitR1(CMD12, 0xFF, 0x00);
      polls := r1;
      if status != Ok {
        return Err, polls;
      }
      status, rxByte, busy := WaitByte(0xFF, 0x00, false, cmdRespPolls);
      polls := r1 + busy;
      if status != Ok {
        spi.DeAssertCs();
        return Err, polls;
      }
      status := SendSyncByteDeAssertCs();
      if status != Ok {
        spi.DeAssertCs();
        return Err, polls;
      }
    }

    /** AlxSd_SpiMode_ExecuteCmd13: status after a multiple-block write. It
        succeeds only when R1 reads 0x00 and the second R2 byte is 0x00. */
    method ExecuteCmd13() returns (status: Status, ghost polls: seq<Xfer>)
      modifies spi
      ensures status == Ok || status == Err
      ensures !spi.cs
      ensures spi.received == old(spi.received) + polls
      ensures status == Ok ==> spi.sent == old(spi.sent) + [SYNC, CMD13, SYNC, SYNC]
      ensures status == Ok ==> |polls| >= 2 && EndsWanted(polls[..|polls| - 1], 0xFF, 0x00, true)
      ensures status == Ok ==> polls[|polls| - 1] == Xfer(true, [0x00])
    {
      var rxByte;
      ghost var r1;
      status, rxByte, r1 := SendCmdAndWaitR1(CMD13, 0xFF, 0x00);
      polls := r1;
      if status != Ok {
        return Err, polls;
      }
      var ok, respR2 := spi.WriteRead(1);
      polls := r1 + [Xfer(ok, respR2)];
      if !ok {
        spi.DeAssertCs();
        return Err, polls;
      }
      if respR2[0] != 0x00 {
        spi.DeAssertCs();
        return Err, polls;
      }
      status := SendSyncByteDeAssertCs();
      if status != Ok {
        spi.DeAssertCs();
        return Err, polls;
      }
      assert respR2 == [0x00];
      assert polls[..|polls| - 1] == r1;
    }

    /** AlxSd_SpiMode_ExecuteAcmd23: CMD55, then ACMD23 with the number of
        blocks to pre-erase as its argument; both R1 responses must read 0x00. */
    method ExecuteAcmd23(numOfBlocksToPreErase: U32) returns (status: Status)
      modifies spi
      ensures status == Ok || status == Err
      ensures !spi.cs
      ensures status == Ok ==>
        spi.sent == old(spi.sent) + [SYNC, CMD55, SYNC, SYNC] + [SYNC, CmdFrame(23, numOfBlocksToPreErase, 0x01), SYNC, SYNC]
    {
      ghost var polls;
      status, polls := ExecuteR1(CMD55, 0x00);
      if status != Ok {
        return Err;
      }
      status, polls := ExecuteR1(CmdFrame(23, numOfBlocksToPreErase, 0x01), 0x00);
    }

    /** One round of AlxSd_SpiMode_ExecuteAcmd41: CMD55 and ACMD41 (HCS set),
        each accepting R1 0x00 (ready) or 0x01 (idle). */
    method SendAcmd41Round() returns (status: Status, rxByte: U8)
      modifies spi
      ensures status == Ok || status == Err
      ensures !spi.cs
      ensures status == Ok ==> spi.sent == old(spi.sent) + Acmd41Round()
      ensures status == Ok ==> |spi.received| > 0 && spi.received[|spi.received| - 1] == Xfer(true, [rxByte])
    {
      ghost var polls;
      status, rxByte, polls := SendCmdAndWaitR1(CMD55, 0xFE, 0x00);
      if status != Ok {
        return Err, rxByte;
      }
      status := SendSyncByteDeAssertCs();
      if status != Ok {
        spi.DeAssertCs();
        return Err, rxByte;
      }
      status, rxByte, polls := SendCmdAndWaitR1(ACMD41, 0xFE, 0x00);
      if status != Ok {
        return Err, rxByte;
      }
      ghost var last := polls[|polls| - 1];
      assert spi.received[|spi.received| - 1] == last;
      assert last.rx == [rxByte];
      status := SendSyncByteDeAssertCs();
      if status != Ok {
        spi.DeAssertCs();
        return Err, rxByte;
      }
    }

    /** AlxSd_SpiMode_ExecuteAcmd41: rounds are repeated until the ACMD41
        response reads 0x00 (ready) or the timer runs out. `rounds` counts the
        rounds sent. */
    method ExecuteAcmd41() returns (status: Status, ghost rounds: nat)
      modifies spi
      ensures status == Ok || status == Err
      ensures !spi.cs
      ensures rounds <= acmd41Polls
      ensures status == Ok ==> 1 <= rounds && spi.sent == old(spi.sent) + Acmd41Rounds(rounds)
      ensures status == Ok ==> |spi.received| > 0 && spi.received[|spi.received| - 1] == Xfer(true, [0x00])
    {
      rounds := 0;
      var n := 0;
      while true
        invariant n == rounds < acmd41Polls
        invariant spi.sent == old(spi.sent) + Acmd41Rounds(rounds)
        decreases acmd41Polls - n
      {
        var rxByte;
        status, rxByte := SendAcmd41Round();
        if status != Ok {
          return Err, rounds;
        }
        rounds := rounds + 1;
        n := n + 1;
        if rxByte == 0x00 {
          return Ok, rounds;
        }
        if n == acmd41Polls {
          spi.DeAssertCs();
          return Err, rounds;
        }
      }
    }

    /** memcpy(data + offset, src, len). */
    static method MemCopy(data: array<U8>, offset: nat, src: seq<U8>, len: nat)
      requires offset + len <= data.Length && len <= |src|
      modifies data
      ensures data[..offset + len] == old(data[..offset]) + src[..len]
      ensures data[offset + len..] == old(data[offset + len..])
    {
      forall j | 0 <= j < len {
        data[offset + j] := src[j];
      }
      assert data[..offset + len] == data[..offset] + data[offset..offset + len];
    }

    /** The copy of one received block to the next free place of `data`. */
    static method StoreBlock(data: array<U8>, offset: nat, ghost blocks: seq<seq<U8>>, rx: seq<U8>)
      requires offset + BLOCK_LEN <= data.Length && BLOCK_LEN <= |rx|
      requires data[..offset] == Flatten(blocks)
      modifies data
      ensures data[..offset + BLOCK_LEN] == Flatten(blocks + [rx[..BLOCK_LEN]])
    {
      MemCopy(data, offset, rx, BLOCK_LEN);
      FlattenSnoc(blocks, rx[..BLOCK_LEN]);
    }

    /** The body of the block loop of AlxSd_SpiMode_ReadNumOfBlocks: wait
        for the start token, then read the block and its two CRC bytes. `rs`
        is the history of write-reads the loop has seen; the ones this step
        adds contribute exactly one block, the first BLOCK_LEN bytes of `rx`. */
    method ReadOneBlock(ghost rs: seq<Xfer>) returns (status: Status, ghost added: seq<Xfer>, rx: seq<U8>)
      modifies spi
      ensures spi.sent == old(spi.sent)
      ensures spi.received == old(spi.received) + added
      ensures status == Ok || status == Err
      ensures status != Ok ==> !spi.cs
      ensures status == Ok ==> spi.cs == old(spi.cs)
      ensures status == Ok ==> |rx| == BLOCK_LEN + 2 && Blocks(rs + added) == Blocks(rs) + [rx[..BLOCK_LEN]]
    {
      rx := [];
      var rxByte;
      ghost var ps;
      status, rxByte, ps := WaitByte(0xFF, 0xFE, true, blockReadTokenFePolls);
      added := ps;
      if status != Ok {
        spi.DeAssertCs();
        return Err, added, rx;
      }
      var ok;
      ok, rx := spi.WriteRead(BLOCK_LEN + 2);
      added := ps + [Xfer(ok, rx)];
      if !ok {
        spi.DeAssertCs();
        return Err, added, rx;
      }
      TokenThenBlock(rs, ps, Xfer(ok, rx));
    }

    /** AlxSd_SpiMode_ReadNumOfBlocks: for each block, wait for the 0xFE start
        token, read the block and its CRC, and copy the block to
        `data[i * BLOCK_LEN..]`. On success `data` holds the blocks in order. */
    method ReadNumOfBlocks(numOfBlocks: nat, data: array<U8>)
      returns (status: Status, ghost polls: seq<Xfer>, ghost blocks: seq<seq<U8>>)
      requires data.Length == numOfBlocks * BLOCK_LEN
      modifies spi, data
      ensures status == Ok || status == Err
      ensures !spi.cs
      ensures spi.received == old(spi.received) + polls
      ensures status == Ok ==> spi.sent == old(spi.sent) + [SYNC, SYNC]
      ensures status == Ok ==> |blocks| == numOfBlocks && data[..] == Flatten(blocks)
      ensures status == Ok ==> blocks == Blocks(polls)
    {
      polls := [];
      blocks := [];
      status := AssertCsSendSyncByte();
      if status != Ok {
        spi.DeAssertCs();
        return Err, polls, blocks;
      }
      var offset := 0;
      var i := 0;
      while i < numOfBlocks
        invariant i <= numOfBlocks && offset == i * BLOCK_LEN
        invariant spi.cs
        invariant spi.sent == old(spi.sent) + [SYNC]
        invariant spi.received == old(spi.received) + polls
        invariant blocks == Blocks(polls) && |blocks| == i
        invariant data[..offset] == Flatten(blocks)
      {
        ghost var added;
        var rx;
        status, added, rx := ReadOneBlock(polls);
        polls := polls + added;
        if status != Ok {
          return Err, polls, blocks;
        }
        StoreBlock(data, offset, blocks, rx);
        blocks := blocks + [rx[..BLOCK_LEN]];
        offset := offset + BLOCK_LEN;
        i := i + 1;
      }
      status := SendSyncByteDeAssertCs();
      if status != Ok {
        spi.DeAssertCs();
        return Err, polls, blocks;
      }
      assert data[..] == data[..offset];
    }

    /** The body of the block loop of AlxSd_SpiMode_WriteNumOfBlocks: the
        0xFC start token and the block, then a wait for the data accepted token
        (xxx0_0101 under mask 0x1F) and a wait for the card to leave busy. */
    method WriteOneBlock(block: seq<U8>) returns (status: Status, ghost accept: seq<Xfer>, ghost busy: seq<Xfer>)
      modifies spi
      ensures status == Ok || status == Err
      ensures spi.received == old(spi.received) + accept + busy
      ensures status != Ok ==> !spi.cs
      ensures status == Ok ==> spi.cs == old(spi.cs) && spi.sent == old(spi.sent) + [[0xFC], block]
      ensures status == Ok ==> EndsWanted(accept, 0x1F, 0x05, true) && EndsWanted(busy, 0xFF, 0x00, false)
    {
      accept, busy := [], [];
      var ok := spi.Write([0xFC]);
      if !ok {
        spi.DeAssertCs();
        return Err, accept, busy;
      }
      ok := spi.Write(block);
      if !ok {
        spi.DeAssertCs();
        return Err, accept, busy;
      }
      var rxByte;
      status, rxByte, accept := WaitByte(0x1F, 0x05, true, blockWriteDataAcceptedTokenPolls);
      if status != Ok {
        spi.DeAssertCs();
        return Err, accept, busy;
      }
      status, rxByte, busy := WaitByte(0xFF, 0x00, false, blockWriteSdBusyPolls);
      if status != Ok {
        spi.DeAssertCs();
        return Err, accept, busy;
      }
    }

    /** AlxSd_SpiMode_WriteNumOfBlocks: each block goes out behind its start
        token and must be accepted; then the 0xFD stop token, a sync byte, a
        busy wait and the closing sync byte. */
    method WriteNumOfBlocks(numOfBlocks: nat, data: seq<U8>) returns (status: Status, ghost polls: seq<Xfer>)
      requires numOfBlocks * BLOCK_LEN <= |data|
      modifies spi
      ensures status == Ok || status == Err
      ensures !spi.cs
      ensures spi.received == old(spi.received) + polls
      ensures status == Ok ==> spi.sent == old(spi.sent) + [SYNC] + WriteFrames(data, numOfBlocks) + [[0xFD], SYNC, SYNC]
    {
      polls := [];
      status := AssertCsSendSyncByte();
      if status != Ok {
        spi.DeAssertCs();
        return Err, polls;
      }
      var offset := 0;
      var i := 0;
      while i < numOfBlocks
        invariant i <= numOfBlocks && offset == i * BLOCK_LEN
        invariant spi.cs
        invariant spi.sent == old(spi.sent) + [SYNC] + WriteFrames(data, i)
        invariant spi.received == old(spi.received) + polls
      {
        ghost var accept, busy;
        ghost var before := spi.sent;
        status, accept, busy := WriteOneBlock(data[offset..offset + BLOCK_LEN]);
        polls := polls + accept + busy;
        if status != Ok {
          return Err, polls;
        }
        assert spi.sent == old(spi.sent) + [SYNC] + WriteFrames(data, i + 1) by {
          assert spi.sent == before + [[0xFC], data[offset..offset + BLOCK_LEN]];
        }
        offset := offset + BLOCK_LEN;
        i := i + 1;
      }
      ghost var tail;
      status, tail := FinishWrite();
      polls := polls + tail;
    }

    /** The end of AlxSd_SpiMode_WriteNumOfBlocks: the 0xFD stop token, a sync
        byte, a wait for the card to leave busy, and the closing sync byte with
        chip select released. */
    method FinishWrite() returns (status: Status, ghost polls: seq<Xfer>)
      modifies spi
      ensures status == Ok || status == Err
      ensures !spi.cs
      ensures spi.received == old(spi.received) + polls
      ensures status == Ok ==> spi.sent == old(spi.sent) + [[0xFD], SYNC, SYNC]
      ensures status == Ok ==> EndsWanted(polls, 0xFF, 0x00, false)
    {
      polls := [];
      var ok := spi.Write([0xFD]);
      if !ok {
        spi.DeAssertCs();
        return Err, polls;
      }
      ok := spi.Write(SYNC);
      if !ok {
        spi.DeAssertCs();
        return Err, polls;
      }
      var rxByte;
      status, rxByte, polls := WaitByte(0xFF, 0x00, false, blockWriteSdBusyPolls);
      if status != Ok {
        spi.DeAssertCs();
        return Err, polls;
      }
      status := SendSyncByteDeAssertCs();
      if status != Ok {
        spi.DeAssertCs();
        return Err, polls;
      }
    }

    /** AlxSd_SpiMode_ExecuteCmd9: reading the CSD register is not
        implemented; it reports success. */
    static method ExecuteCmd9() returns (status: Status)
      ensures status == Ok
    {
      return Ok;
    }

    /** AlxSd_SpiMode_ExecuteCmd10: reading the CID register is not
        implemented; it reports success. */
    static method ExecuteCmd10() returns (status: Status)
      ensures status == Ok
    {
      return Ok;
    }

    /** One try of AlxSd_Init: power-up clocks, CMD0, CMD8, CMD58 while idle,
        ACMD41 until ready, CMD58 once ready, CMD9 and CMD10. */
    method InitTry() returns (status: Status, ghost rounds: nat)
      modifies spi
      ensures status == Ok || status == Err
      ensures !spi.cs
      ensures status == Ok ==> spi.sent == old(spi.sent) + InitFrames(rounds)
    {
      rounds := 0;
      ghost var s0 := spi.sent;
      ghost var a := PwrUpFrames() + CmdFrames(CMD0) + CmdFrames(CMD8) + CmdFrames(CMD58);
      ghost var polls;
      status := GeneratePwrUpClkCycles();
      if status != Ok { return Err, rounds; }
      status, polls := ExecuteCmd0();
      if status != Ok { return Err, rounds; }
      status, polls := ExecuteCmd8();
      if status != Ok { return Err, rounds; }
      status, polls := ExecuteCmd58SdIdle();
      if status != Ok { return Err, rounds; }
      assert spi.sent == s0 + a;
      status, rounds := ExecuteAcmd41();
      if status != Ok { return Err, rounds; }
      assert spi.sent == s0 + (a + Acmd41Rounds(rounds));
      status, polls := ExecuteCmd58SdReady();
      if status != Ok { return Err, rounds; }
      assert spi.sent == s0 + (a + Acmd41Rounds(rounds) + CmdFrames(CMD58));
      status := ExecuteCmd9();
      status := ExecuteCmd10();
    }

    /** AlxSd_Init: initialise the SPI master (its result is `spiInitOk`),
        then try the initialisation sequence up to initDeInitNumOfTries times.
        When every try fails the SPI master is de-initialised (its result is
        `spiDeInitOk`) and the result is Alx_ErrNumOfTries, or Alx_Err when
        that fails too. `start` is where the last try's buffers begin. */
    method Init(spiInitOk: bool, spiDeInitOk: bool) returns (status: Status, ghost tries: nat, ghost start: nat, ghost rounds: nat)
      requires wasCtorCalled && !isInit
      modifies this, spi
      ensures wasCtorCalled && (isInit <==> status == Ok)
      ensures status == Ok || status == Err || status == ErrNumOfTries
      ensures tries <= initDeInitNumOfTries
      ensures !spiInitOk ==> status == Err && tries == 0 && spi.sent == old(spi.sent)
      ensures status == Ok ==> spiInitOk && 1 <= tries && start <= |spi.sent| && spi.sent[start..] == InitFrames(rounds)
      ensures status == ErrNumOfTries ==> spiInitOk && spiDeInitOk && tries == initDeInitNumOfTries
      ensures status == Err && spiInitOk ==> !spiDeInitOk && tries == initDeInitNumOfTries
    {
      tries, start, rounds := 0, 0, 0;
      if !spiInitOk {
        return Err, tries, start, rounds;
      }
      var t := 0;
      while t < initDeInitNumOfTries
        invariant t == tries <= initDeInitNumOfTries
        invariant wasCtorCalled && !isInit
      {
        t := t + 1;
        tries := t;
        start := |spi.sent|;
        status, rounds := InitTry();
        if status == Ok {
          isInit := true;
          return Ok, tries, start, rounds;
        }
      }
      if !spiDeInitOk {
        return Err, tries, start, rounds;
      }
      return ErrNumOfTries, tries, start, rounds;
    }

    /** One try of AlxSd_DeInit: power-up clocks and CMD0. */
    method DeInitTry() returns (status: Status)
      modifies spi
      ensures status == Ok || status == Err
      ensures !spi.cs
      ensures status == Ok ==> spi.sent == old(spi.sent) + DeInitFrames()
    {
      status := GeneratePwrUpClkCycles();
      if status != Ok { return Err; }
      ghost var polls;
      status, polls := ExecuteCmd0();
    }

    /** AlxSd_DeInit: up to initDeInitNumOfTries tries of power-up clocks and
        CMD0; after the first one that succeeds the SPI master is
        de-initialised (its result is `spiDeInitOk`). */
    method DeInit(spiDeInitOk: bool) returns (status: Status, ghost tries: nat, ghost start: nat)
      requires wasCtorCalled && isInit
      modifies this, spi
      ensures wasCtorCalled && (isInit <==> status != Ok)
      ensures status == Ok || status == Err || status == ErrNumOfTries
      ensures tries <= initDeInitNumOfTries
      ensures status == Ok ==> spiDeInitOk
      ensures status == Err ==> !spiDeInitOk
      ensures status != ErrNumOfTries ==> 1 <= tries && start <= |spi.sent| && spi.sent[start..] == DeInitFrames()
      ensures status == ErrNumOfTries ==> tries == initDeInitNumOfTries
    {
      tries, start := 0, 0;
      var t := 0;
      while t < initDeInitNumOfTries
        invariant t == tries <= initDeInitNumOfTries
        invariant wasCtorCalled && isInit
      {
        t := t + 1;
        tries := t;
        start := |spi.sent|;
        status := DeInitTry();
        if status == Ok {
          if !spiDeInitOk {
            return Err, tries, start;
          }
          isInit := false;
          return Ok, tries, start;
        }
      }
      return ErrNumOfTries, tries, start;
    }

    /** One try of AlxSd_ReadBlock: CMD18, the blocks, CMD12. `transfer` are the
        write-transfer of the block transfer. */
    method ReadTry(numOfBlocks: nat, addr: U32, data: array<U8>)
      returns (status: Status, ghost before: seq<Xfer>, ghost transfer: seq<Xfer>, ghost blocks: seq<seq<U8>>)
      requires data.Length == numOfBlocks * BLOCK_LEN
      modifies spi, data
      ensures status == Ok || status == Err
      ensures !spi.cs
      ensures status == Ok ==> spi.sent == old(spi.sent) + ReadFrames(addr)
      ensures status == Ok ==> |old(spi.received) + before + transfer| <= |spi.received|
      ensures status == Ok ==> spi.received[..|old(spi.received) + before + transfer|] == old(spi.received) + before + transfer
      ensures status == Ok ==> |blocks| == numOfBlocks && data[..] == Flatten(blocks) && blocks == Blocks(transfer)
    {
      transfer, blocks := [], [];
      status, before := ExecuteCmd18(addr);
      if status != Ok { return Err, before, transfer, blocks; }
      status, transfer, blocks := ReadNumOfBlocks(numOfBlocks, data);
      if status != Ok { return Err, before, transfer, blocks; }
      ghost var r1 := spi.received;
      ghost var after;
      status, after := ExecuteCmd12();
      if status != Ok { return Err, before, transfer, blocks; }
      assert spi.received[..|r1|] == r1;
    }

    /** AlxSd_ReadBlock: up to `numOfTries` tries of CMD18, the block read and
        CMD12. On success `data` holds the blocks the last try received, in
        order; ErrNumOfTries follows `numOfTries` failed tries. */
    method ReadBlock(numOfBlocks: nat, addr: U32, data: array<U8>, numOfTries: U8)
      returns (status: Status, ghost tries: nat, ghost from: nat, ghost start: nat, ghost blocks: seq<seq<U8>>)
      requires wasCtorCalled && isInit
      requires numOfBlocks * BLOCK_LEN == data.Length
      modifies spi, data
      ensures status == Ok || status == ErrNumOfTries
      ensures !spi.cs || (status == ErrNumOfTries && numOfTries == 0 && spi.cs == old(spi.cs))
      ensures tries <= numOfTries as nat
      ensures status == Ok ==> 1 <= tries
      ensures status == ErrNumOfTries ==> tries == numOfTries as nat
      ensures status == Ok ==> start <= |spi.sent| && spi.sent[start..] == ReadFrames(addr)
      ensures status == Ok ==> |blocks| == numOfBlocks && data[..] == Flatten(blocks)
      ensures status == Ok ==> exists until :: from <= until <= |spi.received| && blocks == Blocks(spi.received[from..until])
    {
      tries, from, start, blocks := 0, 0, 0, [];
      var t: nat := 0;
      status := ErrNumOfTries;
      while t < numOfTries as nat
        invariant t == tries <= numOfTries as nat
        invariant t > 0 ==> !spi.cs
        invariant spi.cs == old(spi.cs) || t > 0
      {
        t := t + 1;
        tries := t;
        start := |spi.sent|;
        ghost var r0 := spi.received;
        ghost var before, transfer;
        status, before, transfer, blocks := ReadTry(numOfBlocks, addr, data);
        if status == Ok {
          from := |r0 + before|;
          ghost var until := |r0 + before + transfer|;
          assert spi.received[from..until] == transfer;
          return Ok, tries, from, start, blocks;
        }
      }
      return ErrNumOfTries, tries, from, start, blocks;
    }

    /** One try of AlxSd_WriteBlock: CMD55 + ACMD23 with the block count,
        CMD25, the blocks, CMD13. */
    method WriteTry(numOfBlocks: U32, n: nat, addr: U32, data: seq<U8>) returns (status: Status)
      requires n * BLOCK_LEN <= |data|
      modifies spi
      ensures status == Ok || status == Err
      ensures !spi.cs
      ensures status == Ok ==> spi.sent == old(spi.sent) + WriteBlockFrames(numOfBlocks, addr, data, n)
    {
      ghost var s0 := spi.sent;
      ghost var a := CmdFrames(CMD55) + CmdFrames(CmdFrame(23, numOfBlocks, 0x01));
      ghost var b := CmdFrames(CmdFrame(25, addr, 0x01));
      ghost var c := [SYNC] + WriteFrames(data, n) + [[0xFD], SYNC, SYNC];
      status := ExecuteAcmd23(numOfBlocks);
      if status != Ok { return Err; }
      assert spi.sent == s0 + a;
      ghost var polls;
      status, polls := ExecuteCmd25(addr);
      if status != Ok { return Err; }
      assert spi.sent == s0 + (a + b);
      status, polls := WriteNumOfBlocks(n, data);
      if status != Ok { return Err; }
      assert spi.sent == s0 + (a + b + c);
      status, polls := ExecuteCmd13();
      if status != Ok { return Err; }
      assert spi.sent == s0 + (a + b + c + CmdFrames(CMD13));
    }

    /** AlxSd_WriteBlock: up to `numOfTries` tries of ACMD23, CMD25, the block
        write and CMD13; ErrNumOfTries follows `numOfTries` failed tries. */
    method WriteBlock(numOfBlocks: U32, addr: U32, data: seq<U8>, numOfTries: U8)
      returns (status: Status, ghost tries: nat, ghost start: nat)
      requires wasCtorCalled && isInit
      requires numOfBlocks as nat * BLOCK_LEN == |data|
      modifies spi
      ensures status == Ok || status == ErrNumOfTries
      ensures !spi.cs || (status == ErrNumOfTries && numOfTries == 0 && spi.cs == old(spi.cs))
      ensures tries <= numOfTries as nat
      ensures status == Ok ==> 1 <= tries
      ensures status == ErrNumOfTries ==> tries == numOfTries as nat
      ensures status == Ok ==> start <= |spi.sent| && spi.sent[start..] == WriteBlockFrames(numOfBlocks, addr, data, numOfBlocks as nat)
    {
      tries, start := 0, 0;
      var n := numOfBlocks as nat;
      var t: nat := 0;
      status := ErrNumOfTries;
      while t < numOfTries as nat
        invariant t == tries <= numOfTries as nat
        invariant t > 0 ==> !spi.cs
        invariant spi.cs == old(spi.cs) || t > 0
      {
        t := t + 1;
        tries := t;
        start := |spi.sent|;
        status := WriteTry(numOfBlocks, n, addr, data);
        if status == Ok {
          return Ok, tries, start;
        }
      }
      return ErrNumOfTries, tries, start;
    }
  }
}
