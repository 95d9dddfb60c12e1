/**
 * The Epson A352 accelerometer over SPI: the register table with its
 * window, length and write-enable metadata, the register window cache,
 * the 16-bit command words, the pipelined multi-word read and the
 * identification and acceleration reads built on it. The SPI bus is a
 * log of the frames sent, with the outcome and the received word of
 * each transfer given by the caller, indexed by transfer number.
 */
module AlxA352 {
  import opened AlxCommon

  /** The registers of the register structure. */
  datatype Reg =
    | BURST | MODE_CTRL | DIAG_STAT | FLAG | COUNT | TEMP | ACCL
    | SIG_CTRL | MSC_CTRL | SMPL_CTRL | FILTER_CTRL | GLOB_CMD | BURST_CTRL
    | LONGFILT_CTRL | LONGFILT_TAP
    | XOFFSET_HIGH | XOFFSET_LOW | YOFFSET_HIGH | YOFFSET_LOW | ZOFFSET_HIGH | ZOFFSET_LOW
    | PROD_ID | VERSION | SERIAL_NUM | WIN_CTRL

  /** A register's address, window, length in 16-bit words and which bytes a write sends. */
  datatype RegMeta = RegMeta(addr: nat, win: W16, len: nat, wHigh: bool, wLow: bool)

  /** A register of the register structure: its metadata and its value words. */
  datatype RegState = RegState(meta: RegMeta, val: seq<W16>)

  const WIN_ADDR: nat := 0x7E

  /** The metadata RegStruct_Init assigns. */
  function Meta(r: Reg): RegMeta
  {
    match r
    case BURST => RegMeta(0x00, 0, 1, false, true)
    case MODE_CTRL => RegMeta(0x02, 0, 1, true, false)
    case DIAG_STAT => RegMeta(0x04, 0, 1, false, false)
    case FLAG => RegMeta(0x06, 0, 1, false, false)
    case COUNT => RegMeta(0x0A, 0, 1, false, false)
    case TEMP => RegMeta(0x0E, 0, 2, false, false)
    case ACCL => RegMeta(0x30, 0, 6, false, false)
    case SIG_CTRL => RegMeta(0x00, 1, 1, true, true)
    case MSC_CTRL => RegMeta(0x02, 1, 1, true, true)
    case SMPL_CTRL => RegMeta(0x04, 1, 1, true, false)
    case FILTER_CTRL => RegMeta(0x06, 1, 1, false, true)
    case GLOB_CMD => RegMeta(0x0A, 1, 1, false, true)
    case BURST_CTRL => RegMeta(0x0C, 1, 1, true, true)
    case LONGFILT_CTRL => RegMeta(0x1C, 1, 1, false, true)
    case LONGFILT_TAP => RegMeta(0x1E, 1, 1, false, true)
    case XOFFSET_HIGH => RegMeta(0x2C, 1, 1, true, true)
    case XOFFSET_LOW => RegMeta(0x2E, 1, 1, true, true)
    case YOFFSET_HIGH => RegMeta(0x30, 1, 1, true, true)
    case YOFFSET_LOW => RegMeta(0x32, 1, 1, true, true)
    case ZOFFSET_HIGH => RegMeta(0x34, 1, 1, true, true)
    case ZOFFSET_LOW => RegMeta(0x36, 1, 1, true, true)
    case PROD_ID => RegMeta(0x6A, 1, 4, false, false)
    case VERSION => RegMeta(0x72, 1, 1, false, false)
    case SERIAL_NUM => RegMeta(0x74, 1, 4, false, false)
    case WIN_CTRL => WIN_CTRL_META
  }

  /** WIN_CTRL: window 0, one word, only its low byte is written. */
  const WIN_CTRL_META := RegMeta(WIN_ADDR, 0, 1, false, true)

  /**
   * Every register spans one to six words, all below the 7-bit address
   * limit (so the address mask of a command word never wraps), in window
   * 0 or 1, and only WIN_CTRL sits at the window control address.
   */
  lemma RegisterTable(r: Reg)
    ensures 1 <= Meta(r).len <= 6 && Meta(r).win <= 1
    ensures Meta(r).addr + 2 * (Meta(r).len - 1) + 1 < 128
    ensures Meta(r).addr == WIN_ADDR <==> r == WIN_CTRL
  {
  }

  /** Two registers with the same address are in different windows. */
  lemma WindowsSeparateRegisters(r: Reg, q: Reg)
    requires r != q && Meta(r).addr == Meta(q).addr
    ensures Meta(r).win != Meta(q).win
  {
    RegAtMeta(r);
    RegAtMeta(q);
  }

  /** The register at an address in a window, if any. */
  function RegAt(addr: nat, win: W16): Option<Reg>
  {
    if win == 0 then
      if addr == 0x00 then Some(BURST) else if addr == 0x02 then Some(MODE_CTRL)
      else if addr == 0x04 then Some(DIAG_STAT) else if addr == 0x06 then Some(FLAG)
      else if addr == 0x0A then Some(COUNT) else if addr == 0x0E then Some(TEMP)
      else if addr == 0x30 then Some(ACCL) else if addr == 0x7E then Some(WIN_CTRL)
      else None
    else if win == 1 then
      if addr == 0x00 then Some(SIG_CTRL) else if addr == 0x02 then Some(MSC_CTRL)
      else if addr == 0x04 then Some(SMPL_CTRL) else if addr == 0x06 then Some(FILTER_CTRL)
      else if addr == 0x0A then Some(GLOB_CMD) else if addr == 0x0C then Some(BURST_CTRL)
      else if addr == 0x1C then Some(LONGFILT_CTRL) else if addr == 0x1E then Some(LONGFILT_TAP)
      else if addr == 0x2C then Some(XOFFSET_HIGH) else if addr == 0x2E then Some(XOFFSET_LOW)
      else if addr == 0x30 then Some(YOFFSET_HIGH) else if addr == 0x32 then Some(YOFFSET_LOW)
      else if addr == 0x34 then Some(ZOFFSET_HIGH) else if addr == 0x36 then Some(ZOFFSET_LOW)
      else if addr == 0x6A then Some(PROD_ID) else if addr == 0x72 then Some(VERSION)
      else if addr == 0x74 then Some(SERIAL_NUM)
      else None
    else None
  }

  /** Address and window identify a register. */
  lemma RegAtMeta(r: Reg)
    ensures RegAt(Meta(r).addr, Meta(r).win) == Some(r)
  {
  }

  /** A 16-bit word as a number. */
  type W16 = x: int | 0 <= x < 0x10000

  // Command words: bit 15 is the write flag, bits 8..14 the address, bits 0..7 the data.
  // The fields do not overlap, so the C code's OR of shifted fields is their sum.

  /** The word that addresses word `i` of a read starting at `addr` (write flag clear). */
  function ReadAddrWord(addr: nat, i: nat): W16
  {
    ((addr + 2 * i) % 128) * 256
  }

  /** The command that writes the low byte of `v` to `addr`. */
  function WriteLowWord(addr: nat, v: W16): W16
  {
    0x8000 + (addr % 128) * 256 + v % 256
  }

  /** The command that writes the high byte of `v` to `addr + 1`. */
  function WriteHighWord(addr: nat, v: W16): W16
  {
    0x8000 + ((addr + 1) % 128) * 256 + v / 256
  }

  /** A command word's write flag, address and data byte. */
  datatype Command = Command(write: bool, addr: nat, data: nat)

  function DecodeCommand(w: W16): Command
  {
    Command(w >= 0x8000, (w / 256) % 128, w % 256)
  }

  /** Decoding each command word gives back its flag, address and data byte. */
  lemma CommandWordsDecode(addr: nat, i: nat, v: W16)
    ensures DecodeCommand(ReadAddrWord(addr, i)) == Command(false, (addr + 2 * i) % 128, 0)
    ensures DecodeCommand(WriteLowWord(addr, v)) == Command(true, addr % 128, v % 256)
    ensures DecodeCommand(WriteHighWord(addr, v)) == Command(true, (addr + 1) % 128, v / 256)
  {
    DecodeFields((addr + 2 * i) % 128, 0);
    DecodeFields(0x80 + addr % 128, v % 256);
    DecodeFields(0x80 + (addr + 1) % 128, v / 256);
  }

  /** The fields of the word `hi * 256 + lo`. */
  lemma DecodeFields(hi: nat, lo: nat)
    requires hi < 256 && lo < 256
    ensures DecodeCommand(hi * 256 + lo) == Command(hi >= 0x80, hi % 128, lo)
  {
    Split256(hi, lo);
  }

  /** A word is its high byte times 256 plus its low byte. */
  lemma Split256(hi: nat, lo: nat)
    requires hi < 256 && lo < 256
    ensures (hi * 256 + lo) / 256 == hi && (hi * 256 + lo) % 256 == lo
  {
  }

  /** What is put on the bus in one transfer. */
  datatype Frame = Write(word: W16) | WriteRead(word: W16) | Read

  /** Every transfer numbered `t` .. `t + n - 1` succeeds. */
  predicate AllOk(t: nat, n: nat, spiOk: nat -> bool)
  {
    forall k :: t <= k < t + n ==> spiOk(k)
  }

  /** How many of `n` planned transfers from number `t` on are made: up to and including the first failure. */
  function Tried(t: nat, n: nat, spiOk: nat -> bool): (k: nat)
    ensures k <= n
    decreases n
  {
    if n == 0 then 0 else if spiOk(t) then 1 + Tried(t + 1, n - 1, spiOk) else 1
  }

  /** All transfers are made when all succeed; otherwise the last one made is the first that failed. */
  lemma {:induction false} TriedFirstFailure(t: nat, n: nat, spiOk: nat -> bool)
    ensures AllOk(t, n, spiOk) ==> Tried(t, n, spiOk) == n
    ensures !AllOk(t, n, spiOk) ==> (var k := Tried(t, n, spiOk);
              0 < k && AllOk(t, k - 1, spiOk) && !spiOk(t + k - 1))
    decreases n
  {
    if n > 0 && spiOk(t) {
      TriedFirstFailure(t + 1, n - 1, spiOk);
    }
  }

  /** The frames actually put on the bus when `planned` is sent from transfer number `t` on. */
  function Attempt(t: nat, planned: seq<Frame>, spiOk: nat -> bool): seq<Frame>
  {
    planned[..Tried(t, |planned|, spiOk)]
  }

  lemma AllOkAppend(t: nat, m: nat, n: nat, spiOk: nat -> bool)
    ensures AllOk(t, m + n, spiOk) <==> AllOk(t, m, spiOk) && AllOk(t + m, n, spiOk)
  {
  }

  lemma {:induction false} TriedAppend(t: nat, m: nat, n: nat, spiOk: nat -> bool)
    ensures Tried(t, m + n, spiOk) == if AllOk(t, m, spiOk) then m + Tried(t + m, n, spiOk) else Tried(t, m, spiOk)
    decreases m
  {
    if m > 0 {
      TriedAppend(t + 1, m - 1, n, spiOk);
      if spiOk(t) {
        assert Tried(t, m + n, spiOk) == 1 + Tried(t + 1, m - 1 + n, spiOk);
        assert Tried(t, m, spiOk) == 1 + Tried(t + 1, m - 1, spiOk);
        assert AllOk(t, m, spiOk) == AllOk(t + 1, m - 1, spiOk);
      } else {
        assert Tried(t, m + n, spiOk) == 1 == Tried(t, m, spiOk);
      }
    }
  }

  /** Sending `a` then `b` is sending `a + b`, where `b` is only reached when all of `a` succeeded. */
  lemma AttemptAppend(t: nat, a: seq<Frame>, b: seq<Frame>, spiOk: nat -> bool)
    ensures Attempt(t, a + b, spiOk)
         == if AllOk(t, |a|, spiOk) then a + Attempt(t + |a|, b, spiOk) else Attempt(t, a, spiOk)
    ensures AllOk(t, |a| + |b|, spiOk) <==> AllOk(t, |a|, spiOk) && AllOk(t + |a|, |b|, spiOk)
  {
    TriedAppend(t, |a|, |b|, spiOk);
    AllOkAppend(t, |a|, |b|, spiOk);
    if AllOk(t, |a|, spiOk) {
      assert (a + b)[..|a| + Tried(t + |a|, |b|, spiOk)] == a + b[..Tried(t + |a|, |b|, spiOk)];
    } else {
      assert (a + b)[..Tried(t, |a|, spiOk)] == a[..Tried(t, |a|, spiOk)];
    }
  }

  /** When transfer `i` is the first of `n` to fail, exactly `i + 1` transfers are made. */
  lemma {:induction false} TriedStopsAt(t: nat, n: nat, i: nat, spiOk: nat -> bool)
    requires i < n && AllOk(t, i, spiOk) && !spiOk(t + i)
    ensures Tried(t, n, spiOk) == i + 1
    decreases i
  {
    if i > 0 {
      TriedStopsAt(t + 1, n - 1, i - 1, spiOk);
    }
  }

  /** A planned sequence whose transfer `i` is the first to fail puts exactly its first `i + 1` frames on the bus. */
  lemma AttemptStopsAt(t: nat, planned: seq<Frame>, i: nat, spiOk: nat -> bool)
    requires i < |planned| && AllOk(t, i, spiOk) && !spiOk(t + i)
    ensures Attempt(t, planned, spiOk) == planned[..i + 1]
  {
    TriedStopsAt(t, |planned|, i, spiOk);
  }

  /** SetWindow's frame: the WIN_CTRL write, only when the cached window differs. */
  function WindowFramesFor(cached: W16, win: W16): seq<Frame>
  {
    if cached == win then [] else [Write(WriteLowWord(WIN_ADDR, win))]
  }

  /** The window selection that precedes an access to any register but WIN_CTRL. */
  function WindowFrames(cached: W16, m: RegMeta): seq<Frame>
  {
    if m.addr == WIN_ADDR then [] else WindowFramesFor(cached, m.win)
  }

  /** The cached window after the window selection starting at transfer `t`. */
  function WindowAfter(cached: W16, m: RegMeta, t: nat, spiOk: nat -> bool): W16
  {
    if WindowFrames(cached, m) == [] || !spiOk(t) then cached else m.win
  }

  /** After DeInit (cached window 0xFFFF) every access to another register selects its window again. */
  lemma WindowReselectedAfterReset(r: Reg)
    requires r != WIN_CTRL
    ensures |WindowFrames(0xFFFF, Meta(r))| == 1
    ensures DecodeCommand(WindowFrames(0xFFFF, Meta(r))[0].word) == Command(true, WIN_ADDR, Meta(r).win)
  {
    RegisterTable(r);
    WindowSelected(0xFFFF, Meta(r));
  }

  /** A register outside the cached window is reached by one WIN_CTRL write of its window. */
  lemma WindowSelected(cached: W16, m: RegMeta)
    requires m.addr != WIN_ADDR && m.win != cached && m.win < 256
    ensures WindowFrames(cached, m) == [Write(WriteLowWord(WIN_ADDR, m.win))]
    ensures DecodeCommand(WindowFrames(cached, m)[0].word) == Command(true, WIN_ADDR, m.win)
  {
    DecodeFields(0x80 + WIN_ADDR, m.win);
  }

  /**
   * The frames of a read of `len` words: the first address, then one
   * write-read per further word, each sending the next address while the
   * previous word comes back, and a final read for the last word.
   */
  function ReadFrames(addr: nat, len: nat): (fs: seq<Frame>)
    requires len >= 1
    ensures |fs| == len + 1
  {
    seq(len + 1, j requires 0 <= j <= len => ReadFrame(addr, len, j))
  }

  /** Sending the next planned frame extends the sent prefix by one. */
  lemma PrefixStep(s0: seq<Frame>, planned: seq<Frame>, j: nat)
    requires j < |planned|
    ensures s0 + planned[..j] + [planned[j]] == s0 + planned[..j + 1]
  {
    assert planned[..j] + [planned[j]] == planned[..j + 1];
  }

  /** Transfer `j` of a read of `len` words at `addr`. */
  function ReadFrame(addr: nat, len: nat, j: nat): Frame
  {
    if j == 0 then Write(ReadAddrWord(addr, 0))
    else if j < len then WriteRead(ReadAddrWord(addr, j))
    else Read
  }

  /** Word `k` of a read arrives in transfer `k + 1`, while address word `k + 1` is sent, or in the final read. */
  lemma ReadPipeline(addr: nat, len: nat, k: nat)
    requires 1 <= len && k < len
    ensures ReadFrames(addr, len)[0] == Write(ReadAddrWord(addr, 0))
    ensures k + 1 < len ==> ReadFrames(addr, len)[k + 1] == WriteRead(ReadAddrWord(addr, k + 1))
    ensures k + 1 < len ==> DecodeCommand(ReadFrames(addr, len)[k + 1].word).addr == (addr + 2 * (k + 1)) % 128
    ensures k + 1 == len ==> ReadFrames(addr, len)[k + 1] == Read
  {
    CommandWordsDecode(addr, k + 1, 0);
  }

  /** The words received by a read whose first address was transfer number `t`: word `k` in transfer `t + k + 1`. */
  function ReceivedWords(t: nat, len: nat, spiRx: nat -> W16): (ws: seq<W16>)
    ensures |ws| == len
    decreases len
  {
    if len == 0 then [] else ReceivedWords(t, len - 1, spiRx) + [spiRx(t + len)]
  }

  /** Word `k` of a read arrives in transfer `t + k + 1`. */
  lemma {:induction false} ReceivedWordAt(t: nat, len: nat, spiRx: nat -> W16, k: nat)
    requires k < len
    ensures ReceivedWords(t, len, spiRx)[k] == spiRx(t + k + 1)
    decreases len
  {
    if k < len - 1 {
      ReceivedWordAt(t, len - 1, spiRx, k);
    }
  }

  /** The frames of a write: the low byte, then the high byte, each only when enabled. */
  function WriteFrames(m: RegMeta, v: W16): (fs: seq<Frame>)
    ensures |fs| == (if m.wLow then 1 else 0) + (if m.wHigh then 1 else 0)
  {
    (if m.wLow then [Write(WriteLowWord(m.addr, v))] else [])
      + (if m.wHigh then [Write(WriteHighWord(m.addr, v))] else [])
  }

  /** The product ID the driver expects, "A352AD10". */
  const PROD_ID_EXPECTED: seq<nat> := [0x41, 0x33, 0x35, 0x32, 0x41, 0x44, 0x31, 0x30]

  /** The bytes of a word array as they lie in little-endian memory. */
  function WordBytes(ws: seq<W16>): (bs: seq<nat>)
    ensures |bs| == 2 * |ws|
    ensures forall k :: 0 <= k < |ws| ==> bs[2 * k] == ws[k] % 256 && bs[2 * k + 1] == ws[k] / 256
  {
    if ws == [] then [] else [ws[0] % 256, ws[0] / 256] + WordBytes(ws[1..])
  }

  /** An axis value: the 32-bit word HIGH:LOW read as a two's-complement integer. */
  function AxisRaw(high: W16, low: W16): (r: int)
    ensures -0x8000_0000 <= r < 0x8000_0000
    ensures r % 0x1_0000_0000 == high * 0x10000 + low
  {
    var u := high * 0x10000 + low;
    if u < 0x8000_0000 then u else u - 0x1_0000_0000
  }

  /** The high and low words are recovered from an axis value. */
  lemma AxisRawSplit(high: W16, low: W16)
    ensures (AxisRaw(high, low) % 0x1_0000_0000) / 0x10000 == high
    ensures AxisRaw(high, low) % 0x10000 == low
  {
    var r := AxisRaw(high, low);
    var m := r % 0x1_0000_0000;
    assert r == m || r == m - 0x1_0000_0000;
  }


  /** `v` with its first `n` words replaced by the words received from transfer `t + 1` on. */
  function Stored(v: seq<W16>, t: nat, n: nat, spiRx: nat -> W16): (ws: seq<W16>)
    requires n <= |v|
    ensures |ws| == |v|
  {
    ReceivedWords(t, n, spiRx) + v[n..]
  }

  /**
   * How many words of a `len`-word read from transfer `t` on reach the
   * register: all of them when every transfer succeeds, otherwise those
   * received by the write-reads before the one that failed.
   */
  function StoredCount(t: nat, len: nat, spiOk: nat -> bool): (n: nat)
    ensures n <= len
  {
    if AllOk(t, len + 1, spiOk) then len
    else var k := Tried(t, len + 1, spiOk); if k >= 2 then k - 2 else 0
  }

  /** A read that stores all words stores exactly the words received. */
  lemma StoredAllReceived(v: seq<W16>, t: nat, spiRx: nat -> W16)
    ensures Stored(v, t, |v|, spiRx) == ReceivedWords(t, |v|, spiRx)
  {
  }

  /** A read whose transfer `i` is the first to fail: what reaches the bus and how many words are stored. */
  lemma ReadFailsAt(t: nat, planned: seq<Frame>, len: nat, i: nat, spiOk: nat -> bool)
    requires |planned| == len + 1 && i <= len && AllOk(t, i, spiOk) && !spiOk(t + i)
    ensures Attempt(t, planned, spiOk) == planned[..i + 1]
    ensures !AllOk(t, len + 1, spiOk)
    ensures StoredCount(t, len, spiOk) == if i == 0 then 0 else i - 1
  {
    AttemptStopsAt(t, planned, i, spiOk);
    TriedStopsAt(t, len + 1, i, spiOk);
    AllOkAppend(t, i, len + 1 - i, spiOk);
  }

  /** A register map after RegStruct_Init: the table's metadata, WIN_CTRL at 0xFFFF, every other word 0. */
  function InitialRegs(): (m: map<Reg, RegState>)
    ensures forall r: Reg :: r in m && m[r].meta == Meta(r) && |m[r].val| == Meta(r).len
    ensures m[WIN_CTRL].val == [0xFFFF]
    ensures forall r: Reg :: r != WIN_CTRL ==> m[r].val == seq(Meta(r).len, _ => 0)
  {
    map r: Reg :: RegState(Meta(r), if r == WIN_CTRL then [0xFFFF] else seq(Meta(r).len, _ => 0))
  }

  /** Every register is present with as many words as its length; WIN_CTRL and ACCL have their table entries. */
  predicate RegsValid(regs: map<Reg, RegState>)
  {
    (forall r: Reg :: r in regs && 1 <= |regs[r].val| == regs[r].meta.len)
    && regs[WIN_CTRL].meta == WIN_CTRL_META && regs[ACCL].meta == Meta(ACCL)
  }

  /** The cached window, WIN_CTRL's WINDOW_ID. */
  function CachedWindow(regs: map<Reg, RegState>): W16
    requires RegsValid(regs)
  {
    regs[WIN_CTRL].val[0]
  }

  /** The register map with the cached window replaced by `w`. */
  function WithWindow(regs: map<Reg, RegState>, w: W16): (regs': map<Reg, RegState>)
    requires RegsValid(regs)
    ensures RegsValid(regs') && CachedWindow(regs') == w
  {
    regs[WIN_CTRL := RegState(WIN_CTRL_META, [w])]
  }

  /** Replacing the cached window by itself changes nothing. */
  lemma WithCachedWindow(regs: map<Reg, RegState>)
    requires RegsValid(regs)
    ensures WithWindow(regs, CachedWindow(regs)) == regs
  {
    assert regs[WIN_CTRL] == RegState(WIN_CTRL_META, [CachedWindow(regs)]);
  }

  /** The frames Reg_Read plans for register `r`: the window selection, then the pipelined read. */
  function ReadPlan(regs: map<Reg, RegState>, r: Reg): seq<Frame>
    requires RegsValid(regs)
  {
    WindowFrames(CachedWindow(regs), regs[r].meta) + ReadFrames(regs[r].meta.addr, regs[r].meta.len)
  }

  /**
   * The register map after Reg_Read of `r` from transfer `t` on: the
   * window cache follows the window write, and the words received before
   * the first failure replace the register's first words.
   */
  function AfterRead(regs: map<Reg, RegState>, r: Reg, t: nat, spiOk: nat -> bool, spiRx: nat -> W16): (regs': map<Reg, RegState>)
    requires RegsValid(regs)
    ensures RegsValid(regs')
  {
    var m := regs[r].meta;
    var w := |WindowFrames(CachedWindow(regs), m)|;
    if AllOk(t, w, spiOk) then WithRead(AfterWindow(regs, m, t, spiOk), r, t + w, spiOk, spiRx) else regs
  }

  /**
   * The register map after the pipelined read of `r` from transfer `t` on:
   * the words received before the first failure replace the register's
   * first words, and no other register changes.
   */
  function WithRead(regs: map<Reg, RegState>, r: Reg, t: nat, spiOk: nat -> bool, spiRx: nat -> W16): (regs': map<Reg, RegState>)
    requires RegsValid(regs)
    ensures RegsValid(regs')
    ensures forall q :: q != r ==> regs'[q] == regs[q]
    ensures regs'[r].meta == regs[r].meta
  {
    var m := regs[r].meta;
    regs[r := RegState(m, Stored(regs[r].val, t, StoredCount(t, m.len, spiOk), spiRx))]
  }

  /** The frames Reg_Write plans for register `r`: the window selection, then the enabled bytes of its value. */
  function WritePlan(regs: map<Reg, RegState>, r: Reg): seq<Frame>
    requires RegsValid(regs)
  {
    WindowFrames(CachedWindow(regs), regs[r].meta) + WriteFrames(regs[r].meta, regs[r].val[0])
  }

  /** The register map after Reg_Write of `r` from transfer `t` on: only the window cache can change. */
  function AfterWrite(regs: map<Reg, RegState>, r: Reg, t: nat, spiOk: nat -> bool): (regs': map<Reg, RegState>)
    requires RegsValid(regs)
    ensures RegsValid(regs')
    ensures forall q :: q != WIN_CTRL ==> regs'[q] == regs[q]
  {
    WithWindow(regs, WindowAfter(CachedWindow(regs), regs[r].meta, t, spiOk))
  }

  /** The window step of a register access: the map SetWindow leaves, or the map itself for WIN_CTRL. */
  function AfterWindow(regs: map<Reg, RegState>, m: RegMeta, t: nat, spiOk: nat -> bool): (regs': map<Reg, RegState>)
    requires RegsValid(regs)
    ensures RegsValid(regs')
  {
    WithWindow(regs, WindowAfter(CachedWindow(regs), m, t, spiOk))
  }


  /** The window step as SetWindow performs it: nothing for WIN_CTRL, otherwise the cache follows a successful write. */
  lemma AfterWindowStep(regs: map<Reg, RegState>, m: RegMeta, t: nat, spiOk: nat -> bool)
    requires RegsValid(regs)
    ensures m.addr == WIN_ADDR ==> AfterWindow(regs, m, t, spiOk) == regs
    ensures m.addr != WIN_ADDR ==>
              WindowFrames(CachedWindow(regs), m) == WindowFramesFor(CachedWindow(regs), m.win)
              && AfterWindow(regs, m, t, spiOk)
                 == WithWindow(regs, if CachedWindow(regs) != m.win && spiOk(t) then m.win else CachedWindow(regs))
  {
    WithCachedWindow(regs);
  }

  /** Reg_Read whose window write fails: nothing more is sent and the map is as it was. */
  lemma ReadWindowFailed(regs: map<Reg, RegState>, r: Reg, t: nat, spiOk: nat -> bool, spiRx: nat -> W16)
    requires RegsValid(regs)
    requires !AllOk(t, |WindowFrames(CachedWindow(regs), regs[r].meta)|, spiOk)
    ensures AfterRead(regs, r, t, spiOk, spiRx) == regs == AfterWindow(regs, regs[r].meta, t, spiOk)
    ensures Attempt(t, ReadPlan(regs, r), spiOk) == Attempt(t, WindowFrames(CachedWindow(regs), regs[r].meta), spiOk)
    ensures !AllOk(t, |ReadPlan(regs, r)|, spiOk)
  {
    var m := regs[r].meta;
    WithCachedWindow(regs);
    AttemptAppend(t, WindowFrames(CachedWindow(regs), m), ReadFrames(m.addr, m.len), spiOk);
  }

  /** The window step changes no register but WIN_CTRL, and WIN_CTRL's own access selects no window. */
  lemma AfterWindowKeeps(regs: map<Reg, RegState>, r: Reg, t: nat, spiOk: nat -> bool)
    requires RegsValid(regs)
    ensures AfterWindow(regs, regs[r].meta, t, spiOk)[r] == regs[r]
  {
    if r == WIN_CTRL {
      WithCachedWindow(regs);
    }
  }

  /** A window step whose transfers all succeed sends all its frames. */
  lemma WindowSent(regs: map<Reg, RegState>, m: RegMeta, t: nat, spiOk: nat -> bool)
    requires RegsValid(regs)
    requires AllOk(t, |WindowFrames(CachedWindow(regs), m)|, spiOk)
    ensures Attempt(t, WindowFrames(CachedWindow(regs), m), spiOk) == WindowFrames(CachedWindow(regs), m)
  {
    TriedFirstFailure(t, |WindowFrames(CachedWindow(regs), m)|, spiOk);
  }

  /** A successful window step followed by the pipelined read is Reg_Read's plan and state. */
  lemma ReadSteps(regs0: map<Reg, RegState>, s0: seq<Frame>, regs1: map<Reg, RegState>, s1: seq<Frame>,
                  regs2: map<Reg, RegState>, s2: seq<Frame>, r: Reg, spiOk: nat -> bool, spiRx: nat -> W16)
    requires RegsValid(regs0)
    requires AllOk(|s0|, |WindowFrames(CachedWindow(regs0), regs0[r].meta)|, spiOk)
    requires s1 == s0 + Attempt(|s0|, WindowFrames(CachedWindow(regs0), regs0[r].meta), spiOk)
    requires regs1 == AfterWindow(regs0, regs0[r].meta, |s0|, spiOk)
    requires s2 == s1 + Attempt(|s1|, ReadFrames(regs1[r].meta.addr, regs1[r].meta.len), spiOk)
    requires regs2 == WithRead(regs1, r, |s1|, spiOk, spiRx)
    ensures s2 == s0 + Attempt(|s0|, ReadPlan(regs0, r), spiOk)
    ensures regs2 == AfterRead(regs0, r, |s0|, spiOk, spiRx)
    ensures AllOk(|s0|, |ReadPlan(regs0, r)|, spiOk) <==> AllOk(|s1|, regs1[r].meta.len + 1, spiOk)
  {
    var m := regs0[r].meta;
    var wf := WindowFrames(CachedWindow(regs0), m);
    AfterWindowKeeps(regs0, r, |s0|, spiOk);
    WindowSent(regs0, m, |s0|, spiOk);
    AttemptAppend(|s0|, wf, ReadFrames(m.addr, m.len), spiOk);
    ConcatAssoc(s0, wf, Attempt(|s0| + |wf|, ReadFrames(m.addr, m.len), spiOk));
  }

  /** Reg_Write whose window write fails: nothing more is sent and the map is as it was. */
  lemma WriteWindowFailed(regs: map<Reg, RegState>, r: Reg, t: nat, spiOk: nat -> bool)
    requires RegsValid(regs)
    requires !AllOk(t, |WindowFrames(CachedWindow(regs), regs[r].meta)|, spiOk)
    ensures AfterWrite(regs, r, t, spiOk) == regs
    ensures Attempt(t, WritePlan(regs, r), spiOk) == Attempt(t, WindowFrames(CachedWindow(regs), regs[r].meta), spiOk)
    ensures !AllOk(t, |WritePlan(regs, r)|, spiOk)
  {
    var m := regs[r].meta;
    WithCachedWindow(regs);
    AttemptAppend(t, WindowFrames(CachedWindow(regs), m), WriteFrames(m, regs[r].val[0]), spiOk);
  }

  /** A successful window step followed by the byte writes is Reg_Write's plan and state. */
  lemma WriteSteps(regs0: map<Reg, RegState>, s0: seq<Frame>, regs1: map<Reg, RegState>, s1: seq<Frame>,
                   s2: seq<Frame>, r: Reg, spiOk: nat -> bool)
    requires RegsValid(regs0)
    requires AllOk(|s0|, |WindowFrames(CachedWindow(regs0), regs0[r].meta)|, spiOk)
    requires s1 == s0 + Attempt(|s0|, WindowFrames(CachedWindow(regs0), regs0[r].meta), spiOk)
    requires regs1 == AfterWindow(regs0, regs0[r].meta, |s0|, spiOk)
    requires s2 == s1 + Attempt(|s1|, WriteFrames(regs0[r].meta, regs0[r].val[0]), spiOk)
    ensures s2 == s0 + Attempt(|s0|, WritePlan(regs0, r), spiOk)
    ensures regs1 == AfterWrite(regs0, r, |s0|, spiOk)
    ensures AllOk(|s0|, |WritePlan(regs0, r)|, spiOk)
        <==> AllOk(|s1|, |WriteFrames(regs0[r].meta, regs0[r].val[0])|, spiOk)
  {
    var m := regs0[r].meta;
    var wf := WindowFrames(CachedWindow(regs0), m);
    var bf := WriteFrames(m, regs0[r].val[0]);
    WindowSent(regs0, m, |s0|, spiOk);
    assert s1 == s0 + wf;
    AttemptAppend(|s0|, wf, bf, spiOk);
    ConcatAssoc(s0, wf, Attempt(|s0| + |wf|, bf, spiOk));
  }

  /** ACCL keeps the six words its table entry gives it. */
  lemma AccLength(regs: map<Reg, RegState>)
    requires RegsValid(regs)
    ensures |regs[ACCL].val| == 6
  {
  }

  class A352 {
    /** The register structure: metadata and value words of every register. */
    var reg: map<Reg, RegState>
    /** Every SPI transfer made so far, in order. */
    var sent: seq<Frame>
    var csAsserted: bool
    var spiNumOfTries: nat
    var spiTimeout_ms: nat
    var wasCtorCalled: bool
    var isInit: bool

    /** The register structure is well formed and CS is released. */
    predicate Valid()
      reads this
    {
      RegsValid(reg) && !csAsserted
    }

    constructor (spiNumOfTries: nat, spiTimeout_ms: nat)
      ensures Valid()
      ensures reg == InitialRegs() && sent == []
      ensures this.spiNumOfTries == spiNumOfTries && this.spiTimeout_ms == spiTimeout_ms
      ensures wasCtorCalled && !isInit
    {
      this.spiNumOfTries := spiNumOfTries;
      this.spiTimeout_ms := spiTimeout_ms;
      reg := InitialRegs();
      sent := [];
      csAsserted := false;
      wasCtorCalled := true;
      isInit := false;
    }

    /** One SPI transfer of frame `f`: its outcome and received word are those the bus gives for its number. */
    method Transfer(f: Frame, spiOk: nat -> bool, spiRx: nat -> W16) returns (ok: bool, rx: W16)
      requires csAsserted
      modifies this`sent
      ensures sent == old(sent) + [f]
      ensures ok == spiOk(|old(sent)|) && rx == spiRx(|old(sent)|)
    {
      ok := spiOk(|sent|);
      rx := spiRx(|sent|);
      sent := sent + [f];
    }

    /** The write part of Reg_Write: CS asserted, the enabled bytes sent, CS released. */
    method WriteBytes(m: RegMeta, v: W16, spiOk: nat -> bool, spiRx: nat -> W16) returns (status: Status)
      requires !csAsserted
      modifies this`sent, this`csAsserted
      ensures sent == old(sent) + Attempt(|old(sent)|, WriteFrames(m, v), spiOk)
      ensures status == Ok <==> AllOk(|old(sent)|, |WriteFrames(m, v)|, spiOk)
      ensures status == Ok || status == Err
      ensures !csAsserted
    {
      var t := |sent|;
      ghost var planned := WriteFrames(m, v);
      csAsserted := true;
      var ok, rx;
      if m.wLow {
        ok, rx := Transfer(Write(WriteLowWord(m.addr, v)), spiOk, spiRx);
        if !ok {
          csAsserted := false;
          AttemptStopsAt(t, planned, 0, spiOk);
          return Err;
        }
      }
      ghost var i := |sent| - t;
      if m.wHigh {
        ok, rx := Transfer(Write(WriteHighWord(m.addr, v)), spiOk, spiRx);
        if !ok {
          csAsserted := false;
          AllOkAppend(t, i, 0, spiOk);
          AttemptStopsAt(t, planned, i, spiOk);
          return Err;
        }
      }
      csAsserted := false;
      AllOkAppend(t, i, |sent| - t - i, spiOk);
      TriedFirstFailure(t, |planned|, spiOk);
      status := Ok;
    }

    /**
     * SetWindow: when the cached window differs from `win`, WIN_CTRL is
     * written with it and the cache updated, and restored when the write
     * fails; otherwise nothing is sent.
     */
    method SetWindow(win: W16, spiOk: nat -> bool, spiRx: nat -> W16) returns (status: Status)
      requires Valid()
      modifies this`sent, this`reg, this`csAsserted
      ensures Valid()
      ensures sent == old(sent) + Attempt(|old(sent)|, WindowFramesFor(CachedWindow(old(reg)), win), spiOk)
      ensures status == Ok <==> AllOk(|old(sent)|, |WindowFramesFor(CachedWindow(old(reg)), win)|, spiOk)
      ensures status == Ok || status == Err
      ensures reg == WithWindow(old(reg), if CachedWindow(old(reg)) != win && spiOk(|old(sent)|) then win
                                          else CachedWindow(old(reg)))
    {
      var current := reg[WIN_CTRL].val[0];
      status := Ok;
      WithCachedWindow(reg);
      if current != win {
        reg := reg[WIN_CTRL := RegState(reg[WIN_CTRL].meta, [win])];
        status := WriteBytes(reg[WIN_CTRL].meta, reg[WIN_CTRL].val[0], spiOk, spiRx);
        if status != Ok {
          reg := reg[WIN_CTRL := RegState(reg[WIN_CTRL].meta, [current])];
        }
      }
    }

    /** The window step of Reg_Read and Reg_Write: SetWindow for every register but WIN_CTRL. */
    method SelectWindow(m: RegMeta, spiOk: nat -> bool, spiRx: nat -> W16) returns (status: Status)
      requires Valid()
      modifies this`sent, this`reg, this`csAsserted
      ensures Valid()
      ensures sent == old(sent) + Attempt(|old(sent)|, WindowFrames(CachedWindow(old(reg)), m), spiOk)
      ensures status == Ok <==> AllOk(|old(sent)|, |WindowFrames(CachedWindow(old(reg)), m)|, spiOk)
      ensures status == Ok || status == Err
      ensures reg == AfterWindow(old(reg), m, |old(sent)|, spiOk)
    {
      AfterWindowStep(reg, m, |sent|, spiOk);
      if m.addr != reg[WIN_CTRL].meta.addr {
        status := SetWindow(m.win, spiOk, spiRx);
      } else {
        status := Ok;
      }
    }

    /**
     * Reg_Read: selects the register's window unless it is WIN_CTRL, then
     * reads its words in one CS-framed pipeline.
     */
    method RegRead(r: Reg, spiOk: nat -> bool, spiRx: nat -> W16) returns (status: Status)
      requires Valid()
      modifies this`sent, this`reg, this`csAsserted
      ensures Valid()
      ensures sent == old(sent) + Attempt(|old(sent)|, ReadPlan(old(reg), r), spiOk)
      ensures status == Ok <==> AllOk(|old(sent)|, |ReadPlan(old(reg), r)|, spiOk)
      ensures status == Ok || status == Err
      ensures reg == AfterRead(old(reg), r, |old(sent)|, spiOk, spiRx)
    {
      ghost var regs0, t := reg, |sent|;
      var m := reg[r].meta;
      status := SelectWindow(m, spiOk, spiRx);
      if status != Ok {
        ReadWindowFailed(regs0, r, t, spiOk, spiRx);
        return;
      }
      ghost var regs1, s1 := reg, sent;
      var ok, ws := ReadRegWords(r, spiOk, spiRx);
      ReadSteps(regs0, old(sent), regs1, s1, reg, sent, r, spiOk, spiRx);
      status := if ok then Ok else Err;
    }

    /** CS asserted, the pipelined read of register `r`'s words stored into it, CS released. */
    method ReadRegWords(r: Reg, spiOk: nat -> bool, spiRx: nat -> W16) returns (ok: bool, ws: seq<W16>)
      requires Valid()
      modifies this`sent, this`reg, this`csAsserted
      ensures Valid()
      ensures var m := old(reg)[r].meta;
              sent == old(sent) + Attempt(|old(sent)|, ReadFrames(m.addr, m.len), spiOk)
      ensures ok <==> AllOk(|old(sent)|, old(reg)[r].meta.len + 1, spiOk)
      ensures reg == WithRead(old(reg), r, |old(sent)|, spiOk, spiRx)
    {
      var m := reg[r].meta;
      csAsserted := true;
      ok, ws := Pipeline(m.addr, reg[r].val, spiOk, spiRx);
      reg := reg[r := RegState(m, ws)];
      csAsserted := false;
    }

    /**
     * The frames of Reg_Read with CS asserted: the first address, a
     * write-read per further word and the final read, stopping at the first
     * failure; `v`'s words are replaced by those received before it.
     */
    method Pipeline(addr: nat, v: seq<W16>, spiOk: nat -> bool, spiRx: nat -> W16) returns (ok: bool, ws: seq<W16>)
      requires csAsserted && 1 <= |v|
      modifies this`sent
      ensures sent == old(sent) + Attempt(|old(sent)|, ReadFrames(addr, |v|), spiOk)
      ensures ok <==> AllOk(|old(sent)|, |v| + 1, spiOk)
      ensures ws == Stored(v, |old(sent)|, StoredCount(|old(sent)|, |v|, spiOk), spiRx)
    {
      var len := |v|;
      var got: seq<W16> := [];
      ghost var t := |sent|;
      ghost var s0 := sent;
      ghost var planned := ReadFrames(addr, len);
      ok := true;
      var j := 0;
      while ok && j <= len
        invariant j <= len + 1
        invariant ok ==> sent == s0 + planned[..j] && AllOk(t, j, spiOk)
        invariant !ok ==> j <= len && sent == s0 + planned[..j + 1] && AllOk(t, j, spiOk) && !spiOk(t + j)
        invariant got == ReceivedWords(t, if j == 0 then 0 else j - 1, spiRx)
        invariant csAsserted
      {
        var f := ReadFrame(addr, len, j);
        PrefixStep(s0, planned, j);
        var rx;
        ok, rx := Transfer(f, spiOk, spiRx);
        if ok {
          if j > 0 {
            got := got + [rx];
          }
          j := j + 1;
        }
      }
      if ok {
        TriedFirstFailure(t, len + 1, spiOk);
        assert planned[..j] == planned;
      } else {
        ReadFailsAt(t, planned, len, j, spiOk);
      }
      ws := got + v[|got|..];
    }

    /**
     * Reg_Write: selects the register's window unless it is WIN_CTRL, then
     * sends the enabled bytes of its first word.
     */
    method RegWrite(r: Reg, spiOk: nat -> bool, spiRx: nat -> W16) returns (status: Status)
      requires Valid()
      modifies this`sent, this`reg, this`csAsserted
      ensures Valid()
      ensures sent == old(sent) + Attempt(|old(sent)|, WritePlan(old(reg), r), spiOk)
      ensures status == Ok <==> AllOk(|old(sent)|, |WritePlan(old(reg), r)|, spiOk)
      ensures status == Ok || status == Err
      ensures reg == AfterWrite(old(reg), r, |old(sent)|, spiOk)
    {
      ghost var regs0, t := reg, |sent|;
      var m := reg[r].meta;
      var v := reg[r].val[0];
      status := SelectWindow(m, spiOk, spiRx);
      if status != Ok {
        WriteWindowFailed(regs0, r, t, spiOk);
        return;
      }
      ghost var regs1, s1 := reg, sent;
      status := WriteBytes(m, v, spiOk, spiRx);
      WriteSteps(regs0, old(sent), regs1, s1, sent, r, spiOk);
    }

    /**
     * GetProdId: reads PROD_ID and compares its eight bytes, as they lie
     * in memory, with "A352AD10". The read's status is overwritten by the
     * comparison, so a failed read of a register that already held the
     * expected bytes still reports Ok.
     */
    method GetProdId(spiOk: nat -> bool, spiRx: nat -> W16) returns (status: Status)
      requires Valid()
      modifies this`sent, this`reg, this`csAsserted
      ensures Valid()
      ensures sent == old(sent) + Attempt(|old(sent)|, ReadPlan(old(reg), PROD_ID), spiOk)
      ensures reg == AfterRead(old(reg), PROD_ID, |old(sent)|, spiOk, spiRx)
      ensures status == Ok <==> WordBytes(reg[PROD_ID].val) == PROD_ID_EXPECTED
      ensures status == Ok || status == Err
    {
      status := RegRead(PROD_ID, spiOk, spiRx);
      var prodId := WordBytes(reg[PROD_ID].val);
      status := if prodId == PROD_ID_EXPECTED then Ok else Err;
    }

    /**
     * GetAccData: reads ACCL and forms each axis value from its HIGH and
     * LOW words; the read's status is returned.
     */
    method GetAccData(spiOk: nat -> bool, spiRx: nat -> W16) returns (status: Status, x: int, y: int, z: int)
      requires Valid()
      modifies this`sent, this`reg, this`csAsserted
      ensures Valid()
      ensures sent == old(sent) + Attempt(|old(sent)|, ReadPlan(old(reg), ACCL), spiOk)
      ensures reg == AfterRead(old(reg), ACCL, |old(sent)|, spiOk, spiRx)
      ensures status == Ok <==> AllOk(|old(sent)|, |ReadPlan(old(reg), ACCL)|, spiOk)
      ensures |reg[ACCL].val| == 6
      ensures x == AxisRaw(reg[ACCL].val[0], reg[ACCL].val[1])
      ensures y == AxisRaw(reg[ACCL].val[2], reg[ACCL].val[3])
      ensures z == AxisRaw(reg[ACCL].val[4], reg[ACCL].val[5])
    {
      status := RegRead(ACCL, spiOk, spiRx);
      AccLength(reg);
      var w := reg[ACCL].val;
      x := AxisRaw(w[0], w[1]);
      y := AxisRaw(w[2], w[3]);
      z := AxisRaw(w[4], w[5]);
    }

    /**
     * DeInit: when the SPI de-initialisation succeeds, the cached window is
     * set to 0xFFFF, so that the next access selects its window again, and
     * isInit is cleared; otherwise the SPI status is returned and nothing
     * changes.
     */
    method DeInit(spiDeInitOk: bool) returns (status: Status)
      requires Valid() && wasCtorCalled && isInit
      modifies this`reg, this`isInit
      ensures Valid()
      ensures status == Ok <==> spiDeInitOk
      ensures status == Ok || status == Err
      ensures spiDeInitOk ==> reg == WithWindow(old(reg), 0xFFFF) && !isInit
      ensures !spiDeInitOk ==> reg == old(reg) && isInit
    {
      if !spiDeInitOk {
        return Err;
      }
      reg := reg[WIN_CTRL := RegState(reg[WIN_CTRL].meta, [0xFFFF])];
      isInit := false;
      status := Ok;
    }
  }
}
