/** LIN master/slave frame handling of alxLin.c: the protected identifier,
    the enhanced checksum, the data length implied by an identifier, the frame
    a master publishes and the checks a received frame must pass.
    The serial port is an oracle: per try, whether each call succeeded and what
    the receive FIFO held. */
module AlxLin {
  import opened AlxCommon

  /** Exclusive or of two bits written as booleans. */
  predicate Xor(a: bool, b: bool) { a != b }

  /** Data length implied by a frame identifier (LIN 1.3 length coding, carried
      by identifier bits 5 and 4). */
  function DataLenFromId(id: U8): (len: nat)
    requires id <= 0x3F
    ensures !Bit(id, 5) ==> len == 2
    ensures Bit(id, 5) && !Bit(id, 4) ==> len == 4
    ensures Bit(id, 5) && Bit(id, 4) ==> len == 8
  {
    if id <= 0x1F then 2
    else if id <= 0x2F then 4
    else 8
  }

  /** Protected identifier: the six identifier bits plus the two parity bits
      P0 = ID0^ID1^ID2^ID4 and P1 = !(ID1^ID3^ID4^ID5) (LIN 2.2A, 2.3.1.3). */
  function ProtectedId(id: U8): (pid: U8)
    ensures pid & 0x3F == id & 0x3F
    ensures Bit(pid, 6) == Xor(Xor(Bit(id, 0), Bit(id, 1)), Xor(Bit(id, 2), Bit(id, 4)))
    ensures Bit(pid, 7) == !Xor(Xor(Bit(id, 1), Bit(id, 3)), Xor(Bit(id, 4), Bit(id, 5)))
  {
    var b6 := (id ^ (id >> 1) ^ (id >> 2) ^ (id >> 4)) & 0x01;
    var b7 := (!((id >> 1) ^ (id >> 3) ^ (id >> 4) ^ (id >> 5))) & 0x01;
    (id & 0x3F) | (b6 << 6) | (b7 << 7)
  }

  /** The slave's header check: a received byte is a protected identifier
      exactly when recomputing the parity from its low six bits gives it back. */
  predicate IsValidPid(b: U8)
  {
    b == ProtectedId(b & 0x3F)
  }

  lemma ProtectedIdIsValid(id: U8)
    ensures IsValidPid(ProtectedId(id))
    ensures ProtectedId(id) & 0x3F == id & 0x3F
  {
  }

  lemma ProtectedIdInjective(a: U8, b: U8)
    requires a <= 0x3F && b <= 0x3F
    ensures ProtectedId(a) == ProtectedId(b) <==> a == b
  {
    assert ProtectedId(a) & 0x3F == a;
    assert ProtectedId(b) & 0x3F == b;
  }

  /** A corrupted parity bit is always detected: flipping bit 6 or bit 7 of a
      protected identifier yields a byte the slave rejects. */
  lemma ParityFlipDetected(id: U8, k: nat)
    requires k == 6 || k == 7
    ensures !IsValidPid(ProtectedId(id) ^ (1 << k))
  {
  }

  // ---------------------------------------------------------------------------
  // Enhanced checksum (LIN 2.2A, 2.3.1.5)
  // ---------------------------------------------------------------------------

  function SumBytes(s: seq<U8>): nat
  {
    if s == [] then 0 else SumBytes(s[..|s| - 1]) + s[|s| - 1] as int
  }

  /** The value of an eight-bit sum with carry: the total reduced modulo 255
      into 1..255, except that a total of 0 stays 0. */
  function CarrySum(total: nat): (s: nat)
    ensures s <= 255
    ensures s == 0 <==> total == 0
  {
    if total == 0 then 0 else (total - 1) % 255 + 1
  }

  /** Enhanced checksum over the protected identifier and the data bytes:
      the inverted eight-bit sum with carry. */
  function EnhancedChecksum(pid: U8, data: seq<U8>): (cs: U8)
  {
    Invert8(CarrySum(pid as int + SumBytes(data)))
  }

  /** The low byte of `~sum` for a sum in 0..255. */
  function Invert8(sum: nat): (r: U8)
    requires sum <= 255
  {
    (255 - sum) as U8
  }

  /** One step of the running sum: adding a byte to a carry sum and subtracting
      255 when it reaches 256 is the carry sum of the larger total. */
  lemma CarrySumStep(total: nat, d: nat)
    requires d <= 255
    ensures var s := CarrySum(total) + d;
            CarrySum(total + d) == if s >= 256 then s - 255 else s
  {
    if total > 0 {
      var r := (total - 1) % 255;
      var q := (total - 1) / 255;
      assert total - 1 == q * 255 + r;
      if r + d >= 255 {
        assert total + d - 1 == (q + 1) * 255 + (r + d - 255);
      } else {
        assert total + d - 1 == q * 255 + (r + d);
      }
    }
  }

  /** The running sum of the checksum loop after the bytes `s`: it starts at
      the protected identifier and drops by 255 whenever it reaches 256. */
  function RunningSum(pid: U8, s: seq<U8>): (sum: nat)
    ensures sum <= 255
  {
    if s == [] then pid as int
    else
      var t := RunningSum(pid, s[..|s| - 1]) + s[|s| - 1] as int;
      if t >= 256 then t - 255 else t
  }

  /** The running sum is the eight-bit sum with carry of the identifier and the bytes. */
  /** A total that fits in a byte is its own sum with carry. */
  lemma CarrySumSmall(total: nat)
    requires total <= 255
    ensures CarrySum(total) == total
  {
  }

  lemma {:induction false} RunningSumIsCarrySum(pid: U8, s: seq<U8>)
    ensures RunningSum(pid, s) == CarrySum(pid as int + SumBytes(s))
  {
    if s != [] {
      var init, d := s[..|s| - 1], s[|s| - 1] as int;
      var total := pid as int + SumBytes(init);
      RunningSumIsCarrySum(pid, init);
      CarrySumStep(total, d);
      assert RunningSum(pid, s) == if CarrySum(total) + d >= 256 then CarrySum(total) + d - 255 else CarrySum(total) + d;
      assert pid as int + SumBytes(s) == total + d;
    } else {
      CarrySumSmall(pid as int);
    }
  }

  /** AlxLin_CalcEnhancedChecksum: the running sum starts at the protected
      identifier, drops by 255 whenever it reaches 256 and is inverted at the end. */
  method CalcEnhancedChecksum(pid: U8, data: seq<U8>) returns (cs: U8)
    ensures cs == EnhancedChecksum(pid, data)
  {
    // uint32_t in the source; it never exceeds 510, so it never wraps.
    var sum: nat := pid as int;
    var i := 0;
    while i < |data|
      invariant 0 <= i <= |data|
      invariant sum == RunningSum(pid, data[..i])
    {
      assert data[..i + 1][..i] == data[..i];
      sum := sum + data[i] as int;
      if sum >= 256 {
        sum := sum - 255;
      }
      i := i + 1;
    }
    assert data[..i] == data;
    RunningSumIsCarrySum(pid, data);
    cs := Invert8(sum);
  }


  // ---------------------------------------------------------------------------
  // Master publishing a frame (AlxLin_Master_Write)
  // ---------------------------------------------------------------------------

  /** SYNC, protected identifier, data, enhanced checksum. */
  function MasterFrame(id: U8, data: seq<U8>): seq<U8>
  {
    [0x55, ProtectedId(id)] + data + [EnhancedChecksum(ProtectedId(id), data)]
  }

  lemma MasterFrameLayout(id: U8, data: seq<U8>)
    ensures var f := MasterFrame(id, data);
      |f| == |data| + 3 && f[0] == 0x55 && f[1] == ProtectedId(id) &&
      f[2..|f| - 1] == data && f[|f| - 1] == EnhancedChecksum(f[1], f[2..|f| - 1])
  {
    var f := MasterFrame(id, data);
    assert f[2..|f| - 1] == data;
  }

  /** AlxLin_Master_Write. With a break pin, the serial port is de-initialised,
      the break is driven on the pin and the port is re-initialised; either
      serial call failing returns its status before anything is sent. The frame
      length is a uint8_t, so only (len + 3) mod 256 bytes are handed to the port. */
  method MasterWrite(id: U8, data: seq<U8>, variableLen: bool, buffLen: nat,
                     hasBreakPin: bool, deInitStatus: Status, initStatus: Status,
                     writeStatus: Status)
    returns (status: Status, sent: seq<U8>)
    requires id <= 0x3F
    requires variableLen ==> 0 < |data| <= buffLen
    requires !variableLen ==> |data| == DataLenFromId(id)
    ensures hasBreakPin && deInitStatus != Ok ==> status == deInitStatus && sent == []
    ensures hasBreakPin && deInitStatus == Ok && initStatus != Ok ==> status == initStatus && sent == []
    ensures (!hasBreakPin || (deInitStatus == Ok && initStatus == Ok)) ==>
      status == writeStatus && sent == MasterFrame(id, data)[..(|data| + 3) % 256]
  {
    var pid := ProtectedId(id);
    var cs := CalcEnhancedChecksum(pid, data);
    if hasBreakPin {
      if deInitStatus != Ok {
        return deInitStatus, [];
      }
      if initStatus != Ok {
        return initStatus, [];
      }
    }
    var frame := [0x55, pid] + data + [cs];
    var frameLen := (2 + |data| + 1) % 256;
    sent := frame[..frameLen];
    status := writeStatus;
  }

  /** A compliant frame (at most 252 data bytes) is handed to the port whole. */
  lemma MasterWriteSendsWholeFrame(id: U8, data: seq<U8>)
    requires |data| <= 252
    ensures MasterFrame(id, data)[..(|data| + 3) % 256] == MasterFrame(id, data)
  {
    assert |MasterFrame(id, data)| == |data| + 3;
  }

  // ---------------------------------------------------------------------------
  // Master subscribing to a frame (AlxLin_Master_Read)
  // ---------------------------------------------------------------------------

  /** Oracle of one try: whether the header write succeeded, the receive FIFO
      contents after the wait (break, SYNC, identifier, data, checksum) and
      whether reading them out succeeded. */
  datatype MasterTry = MasterTry(writeOk: bool, fifo: seq<U8>, readOk: bool)

  /** rxFrameLen - 4 in uint32_t arithmetic: a short FIFO wraps to a huge value. */
  function RxDataLen(entries: nat): nat
  {
    if entries >= 4 then entries - 4 else entries + 0x1_0000_0000 - 4
  }

  /** The length check of a try: exactly `len` data bytes for a fixed-length
      frame, at most `maxLen` for a variable-length one. */
  predicate MasterLenOk(dataLen: nat, len: nat, variableLen: bool, maxLen: nat)
  {
    if variableLen then dataLen <= maxLen else dataLen == len
  }

  /** Identifier echo and checksum check of a received frame. */
  predicate MasterFrameOk(pid: U8, fifo: seq<U8>)
    requires |fifo| >= 4
  {
    fifo[2] == pid && fifo[|fifo| - 1] == EnhancedChecksum(pid, fifo[3..|fifo| - 1])
  }

  predicate MasterTryAccepted(pid: U8, len: nat, variableLen: bool, maxLen: nat, t: MasterTry)
    requires maxLen < 0x1_0000_0000 - 4
  {
    t.writeOk && MasterLenOk(RxDataLen(|t.fifo|), len, variableLen, maxLen) &&
    t.readOk && |t.fifo| >= 4 && MasterFrameOk(pid, t.fifo)
  }

  /** A wrapped length never passes the length check, so every accepted frame
      really holds break, SYNC, identifier and checksum. */
  lemma ShortFifoRejected(entries: nat, len: nat, variableLen: bool, maxLen: nat)
    requires entries < 4 && len <= 8 && maxLen < 0x1_0000_0000 - 4
    ensures !MasterLenOk(RxDataLen(entries), len, variableLen, maxLen)
  {
  }

  /** One try of AlxLin_Master_Read after the header went out: the length
      check, the read-out, the identifier echo check and the checksum check. */
  method MasterTryRun(pid: U8, len: nat, variableLen: bool, maxLen: nat, tr: MasterTry)
    returns (ok: bool, data: seq<U8>)
    requires len <= 8 && maxLen < 0x1_0000_0000 - 4
    ensures ok == MasterTryAccepted(pid, len, variableLen, maxLen, tr)
    ensures ok ==> data == tr.fifo[3..|tr.fifo| - 1]
  {
    data := [];
    if !tr.writeOk {
      return false, [];
    }
    var dataLen := RxDataLen(|tr.fifo|);
    if !MasterLenOk(dataLen, len, variableLen, maxLen) {
      return false, [];
    }
    if !tr.readOk {
      return false, [];
    }
    if |tr.fifo| < 4 {
      ShortFifoRejected(|tr.fifo|, len, variableLen, maxLen);
      assert false;
    }
    if tr.fifo[2] != pid {
      return false, [];
    }
    var cs := CalcEnhancedChecksum(pid, tr.fifo[3..3 + dataLen]);
    if tr.fifo[3 + dataLen] != cs {
      return false, [];
    }
    return true, tr.fifo[3..3 + dataLen];
  }

  /** AlxLin_Master_Read: the header SYNC + protected identifier is sent on every
      try; the first try whose frame passes the length, identifier and checksum
      checks yields its data; after `numOfTries` failed tries the result is
      Alx_ErrNumOfTries. `sent` lists the headers written, one per try. */
  method MasterRead(id: U8, len: nat, variableLen: bool, maxLen: nat, buffLen: nat,
                    numOfTries: nat, tries: seq<MasterTry>)
    returns (status: Status, data: seq<U8>, sent: seq<seq<U8>>)
    requires id <= 0x3F
    requires buffLen < 0x1_0000_0000 - 4
    requires variableLen ==> len == 0 && 0 < maxLen <= buffLen
    requires !variableLen ==> len == DataLenFromId(id) && maxLen == 0
    requires |tries| >= numOfTries
    ensures status == Ok || status == ErrNumOfTries
    ensures forall f :: f in sent ==> f == [0x55, ProtectedId(id)]
    ensures status == Ok <==>
      exists k :: 0 <= k < numOfTries && MasterTryAccepted(ProtectedId(id), len, variableLen, maxLen, tries[k])
    ensures status == Ok ==>
      exists k :: 0 <= k < numOfTries && |sent| == k + 1 &&
        MasterTryAccepted(ProtectedId(id), len, variableLen, maxLen, tries[k]) &&
        (forall j :: 0 <= j < k ==> !MasterTryAccepted(ProtectedId(id), len, variableLen, maxLen, tries[j])) &&
        data == tries[k].fifo[3..|tries[k].fifo| - 1]
    ensures status != Ok ==> |sent| == numOfTries && data == []
    ensures variableLen && status == Ok ==> |data| <= maxLen
    ensures !variableLen && status == Ok ==> |data| == len
  {
    var pid := ProtectedId(id);
    status := Err;
    data := [];
    sent := [];
    var n := numOfTries;
    var t := 0;
    var done := false;
    while t < n && !done
      invariant 0 <= t <= n
      invariant |sent| == t
      invariant forall f :: f in sent ==> f == [0x55, pid]
      invariant !done ==> status != Ok && data == []
      invariant !done ==> forall j :: 0 <= j < t ==> !MasterTryAccepted(pid, len, variableLen, maxLen, tries[j])
      invariant done ==> status == Ok && 0 < t
      invariant done ==> MasterTryAccepted(pid, len, variableLen, maxLen, tries[t - 1])
      invariant done ==> forall j :: 0 <= j < t - 1 ==> !MasterTryAccepted(pid, len, variableLen, maxLen, tries[j])
      invariant done ==> data == tries[t - 1].fifo[3..|tries[t - 1].fifo| - 1]
    {
      sent := sent + [[0x55, pid]];
      var ok, d := MasterTryRun(pid, len, variableLen, maxLen, tries[t]);
      t := t + 1;
      if ok {
        status, data, done := Ok, d, true;
      }
    }
    if status != Ok {
      return ErrNumOfTries, [], sent;
    }
    assert MasterTryAccepted(pid, len, variableLen, maxLen, tries[t - 1]);
  }

  /** A master frame echoed on the bus behind a break byte, as the master's
      own receiver sees it, passes every check of a fixed-length read. */
  lemma MasterReadAcceptsPublishedFrame(id: U8, brk: U8, data: seq<U8>)
    requires id <= 0x3F && |data| == DataLenFromId(id)
    ensures MasterTryAccepted(ProtectedId(id), |data|, false, 0,
                              MasterTry(true, [brk] + MasterFrame(id, data), true))
  {
    var f := [brk] + MasterFrame(id, data);
    assert f[3..|f| - 1] == data;
  }

  // ---------------------------------------------------------------------------
  // Slave receiving a frame (AlxLin_Slave_ReadLen)
  // ---------------------------------------------------------------------------

  /** Bytes the slave waits for: identifier only, or identifier, data and
      checksum, each preceded by break and SYNC when the slave handles those. */
  function SlaveExpectedLen(len: nat, handleBreakSync: bool): (n: nat)
    ensures len == 0 ==> n == (if handleBreakSync then 3 else 1)
    ensures len > 0 ==> n == (if handleBreakSync then len + 4 else len + 2)
  {
    (if handleBreakSync then 3 else 1) + (if len == 0 then 0 else len + 1)
  }

  /** Oracle of one try: the successive FIFO entry counts seen while polling,
      the timer expiring after the last of them, whether reading the frame out
      succeeded and the bytes read. */
  datatype SlaveTry = SlaveTry(polls: seq<nat>, readOk: bool, rx: seq<U8>)

  /** Index of the protected identifier in the received frame. */
  function PidPos(handleBreakSync: bool): nat { if handleBreakSync then 2 else 0 }

  /** Identifier and data the slave returns from an accepted frame. */
  function SlaveId(handleBreakSync: bool, rx: seq<U8>): U8
    requires |rx| > PidPos(handleBreakSync)
  {
    rx[PidPos(handleBreakSync)] & 0x3F
  }

  function SlaveData(len: nat, handleBreakSync: bool, rx: seq<U8>): seq<U8>
    requires |rx| >= PidPos(handleBreakSync) + 1 + len
  {
    rx[PidPos(handleBreakSync) + 1..PidPos(handleBreakSync) + 1 + len]
  }

  predicate SlaveFrameOk(len: nat, handleBreakSync: bool, rx: seq<U8>)
    requires |rx| == SlaveExpectedLen(len, handleBreakSync)
  {
    var p := PidPos(handleBreakSync);
    IsValidPid(rx[p]) &&
    (|rx| >= (if handleBreakSync then 5 else 3) ==>
      rx[p + 1 + len] == EnhancedChecksum(rx[p], SlaveData(len, handleBreakSync, rx)))
  }

  predicate SlaveTryAccepted(len: nat, handleBreakSync: bool, t: SlaveTry)
    requires |t.rx| == SlaveExpectedLen(len, handleBreakSync)
  {
    SlaveExpectedLen(len, handleBreakSync) in t.polls && t.readOk && SlaveFrameOk(len, handleBreakSync, t.rx)
  }

  /** The polling loop of one try: succeeds on the first poll that sees the
      expected number of entries, and fails when the timer expires first. */
  method WaitForEntries(polls: seq<nat>, expected: nat) returns (ok: bool)
    ensures ok <==> expected in polls
  {
    var i := 0;
    ok := false;
    while i < |polls|
      invariant 0 <= i <= |polls|
      invariant expected !in polls[..i]
    {
      if polls[i] == expected {
        ok := true;
        return;
      }
      i := i + 1;
    }
    assert polls[..i] == polls;
  }

  /** One try of AlxLin_Slave_ReadLen: wait for the frame, read it out, check
      the protected identifier and, when the frame is long enough to hold data,
      the checksum. */
  method SlaveTryRun(len: nat, handleBreakSync: bool, tr: SlaveTry)
    returns (ok: bool, id: U8, data: seq<U8>)
    requires |tr.rx| == SlaveExpectedLen(len, handleBreakSync)
    ensures ok == SlaveTryAccepted(len, handleBreakSync, tr)
    ensures ok ==> id == SlaveId(handleBreakSync, tr.rx) && data == SlaveData(len, handleBreakSync, tr.rx)
  {
    var expected := SlaveExpectedLen(len, handleBreakSync);
    var p := PidPos(handleBreakSync);
    id, data := 0, [];
    var arrived := WaitForEntries(tr.polls, expected);
    if !arrived || !tr.readOk {
      return false, 0, [];
    }
    var pidActual := tr.rx[p];
    var idActual := SlaveId(handleBreakSync, tr.rx);
    if pidActual != ProtectedId(idActual) {
      assert !IsValidPid(tr.rx[p]);
      return false, 0, [];
    }
    var payload := SlaveData(len, handleBreakSync, tr.rx);
    if |tr.rx| >= (if handleBreakSync then 5 else 3) {
      var cs := CalcEnhancedChecksum(pidActual, payload);
      if tr.rx[p + 1 + len] != cs {
        return false, 0, [];
      }
    }
    return true, idActual, payload;
  }

  /** AlxLin_Slave_ReadLen: the first try whose frame arrives in time, is read
      out, carries a valid protected identifier and (when data is expected) a
      matching checksum gives the identifier and the data; after `numOfTries`
      failed tries the result is Alx_ErrNumOfTries. */
  method SlaveReadLen(len: nat, handleBreakSync: bool, buffLen: nat, numOfTries: nat,
                      tries: seq<SlaveTry>)
    returns (status: Status, id: U8, data: seq<U8>)
    requires len <= buffLen
    requires |tries| >= numOfTries
    requires forall k :: 0 <= k < |tries| ==> |tries[k].rx| == SlaveExpectedLen(len, handleBreakSync)
    ensures status == Ok || status == ErrNumOfTries
    ensures status == Ok <==>
      exists k :: 0 <= k < numOfTries && SlaveTryAccepted(len, handleBreakSync, tries[k])
    ensures status == Ok ==>
      exists k :: 0 <= k < numOfTries && SlaveTryAccepted(len, handleBreakSync, tries[k]) &&
        (forall j :: 0 <= j < k ==> !SlaveTryAccepted(len, handleBreakSync, tries[j])) &&
        id == SlaveId(handleBreakSync, tries[k].rx) && data == SlaveData(len, handleBreakSync, tries[k].rx)
    ensures status == Ok ==> id <= 0x3F && |data| == len
  {
    status := Err;
    id := 0;
    data := [];
    var n := numOfTries;
    var t := 0;
    var done := false;
    while t < n && !done
      invariant 0 <= t <= n
      invariant !done ==> status != Ok
      invariant !done ==> forall j :: 0 <= j < t ==> !SlaveTryAccepted(len, handleBreakSync, tries[j])
      invariant done ==> status == Ok && 0 < t
      invariant done ==> SlaveTryAccepted(len, handleBreakSync, tries[t - 1])
      invariant done ==> forall j :: 0 <= j < t - 1 ==> !SlaveTryAccepted(len, handleBreakSync, tries[j])
      invariant done ==> id == SlaveId(handleBreakSync, tries[t - 1].rx)
      invariant done ==> data == SlaveData(len, handleBreakSync, tries[t - 1].rx)
    {
      var ok, i, d := SlaveTryRun(len, handleBreakSync, tries[t]);
      t := t + 1;
      if ok {
        status, id, data, done := Ok, i, d, true;
      }
    }
    if status != Ok {
      return ErrNumOfTries, 0, [];
    }
    assert SlaveTryAccepted(len, handleBreakSync, tries[t - 1]);
  }

  /** The checksum is checked exactly when data is expected. */
  lemma SlaveChecksumCheckedIffData(len: nat, handleBreakSync: bool)
    ensures SlaveExpectedLen(len, handleBreakSync) >= (if handleBreakSync then 5 else 3) <==> len > 0
  {
  }

  /** Round trip: a frame published by a master, seen by a slave behind break
      and SYNC, is accepted with the master's identifier and data. */
  lemma SlaveAcceptsMasterFrame(id: U8, brk: U8, data: seq<U8>)
    requires id <= 0x3F && |data| > 0
    ensures var rx := [brk] + MasterFrame(id, data);
      |rx| == SlaveExpectedLen(|data|, true) &&
      SlaveFrameOk(|data|, true, rx) &&
      rx[2] & 0x3F == id && rx[3..3 + |data|] == data
  {
    var rx := [brk] + MasterFrame(id, data);
    ProtectedIdIsValid(id);
    assert rx[3..3 + |data|] == data;
  }

  /** The slave accepts a header-only frame exactly when its byte is a
      protected identifier, whether or not it handles break and SYNC. */
  lemma SlaveHeaderOnly(b: U8, brk: U8, sync: U8)
    ensures SlaveFrameOk(0, false, [b]) <==> b == ProtectedId(b & 0x3F)
    ensures SlaveFrameOk(0, true, [brk, sync, b]) <==> b == ProtectedId(b & 0x3F)
  {
  }
}
