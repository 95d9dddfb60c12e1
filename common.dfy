/** Types shared by every driver model: the library's status codes (alxGlobal.h)
    and the fixed-width unsigned integers of C, written as bit-vectors so that
    shifts, masks and wrap-around behave as they do in the firmware. */
module AlxCommon {

  type U8 = bv8
  type U16 = bv16
  type U32 = bv32
  type U64 = bv64

  /** Alx_Status, plus the file-system and SD specific codes the modules return. */
  datatype Status =
    | Ok
    | Err
    | ErrReInit
    | ErrNumOfTries
    | ErrOutOfRangeMin
    | ErrOutOfRangeMax
    | I2cErrNack
    | I2cErrTimeout
    | FifoErrFull
    | FifoErrEmpty
    | FifoErrNoDelim
    | ErrOutOfRangeLen
    | ErrBoundMin
    | ErrBoundMax
    | ErrBoundLen
    | FsErrNoDelim

  /** Low byte of a 16-bit word. */
  function Lo(w: U16): (b: U8)
    ensures b as U16 == w & 0xFF
  {
    (w & 0xFF) as U8
  }

  /** High byte of a 16-bit word. */
  function Hi(w: U16): (b: U8)
    ensures b as U16 == w >> 8
  {
    (w >> 8) as U8
  }

  /** The 16-bit word whose high byte is `h` and low byte is `l`. */
  function Word(h: U8, l: U8): (w: U16)
    ensures Hi(w) == h && Lo(w) == l
  {
    ((h as U16) << 8) | (l as U16)
  }

  /** A 16-bit word is its high byte followed by its low byte. */
  lemma WordOfBytes(w: U16)
    ensures Word(Hi(w), Lo(w)) == w
  {
  }

  /** Bit `k` of a byte. */
  predicate Bit(b: U8, k: nat)
    requires k < 8
  {
    b & (1 << k) != 0
  }

  /** Bit `k` of a 16-bit word. */
  predicate Bit16(w: U16, k: nat)
    requires k < 16
  {
    w & (1 << k) != 0
  }

  datatype Option<T> = None | Some(value: T)

  /** Concatenation of byte sequences, in order. */
  function Flatten(bs: seq<seq<U8>>): (r: seq<U8>)
  {
    if bs == [] then [] else Flatten(bs[..|bs| - 1]) + bs[|bs| - 1]
  }

  lemma FlattenSnoc(bs: seq<seq<U8>>, b: seq<U8>)
    ensures Flatten(bs + [b]) == Flatten(bs) + b
  {
    assert (bs + [b])[..|bs|] == bs;
  }

  /** Concatenation is associative; stated once so that proofs about logs of transfers need not rediscover it. */
  lemma ConcatAssoc<T>(a: seq<T>, b: seq<T>, c: seq<T>)
    ensures a + b + c == a + (b + c)
  {
  }

  /**
   * How many of `n` steps from number `t` are made when the sequence stops
   * at its first failure: up to and including that step. `st(n)` is
   * the status of step `n`.
   */
  function Tried(t: nat, n: nat, st: nat -> Status): (k: nat)
    ensures k <= n
    decreases n
  {
    if n == 0 then 0 else if st(t) != Ok then 1 else 1 + Tried(t + 1, n - 1, st)
  }

  /** The status a sequence of `n` steps returns: that of the first failure, or Ok. */
  function Outcome(t: nat, n: nat, st: nat -> Status): Status
    decreases n
  {
    if n == 0 then Ok else if st(t) != Ok then st(t) else Outcome(t + 1, n - 1, st)
  }

  /**
   * A sequence of steps succeeds exactly when each step does; then all of
   * them are made. Otherwise it stops at the first failure and
   * returns that failure's status.
   */
  lemma {:induction false} OutcomeOfSteps(t: nat, n: nat, st: nat -> Status)
    ensures Outcome(t, n, st) == Ok <==> forall i :: t <= i < t + n ==> st(i) == Ok
    ensures Outcome(t, n, st) == Ok ==> Tried(t, n, st) == n
    ensures Outcome(t, n, st) != Ok ==>
              var k := Tried(t, n, st);
              1 <= k && Outcome(t, n, st) == st(t + k - 1)
              && forall i :: t <= i < t + k - 1 ==> st(i) == Ok
    decreases n
  {
    if n > 0 {
      OutcomeOfSteps(t + 1, n - 1, st);
      if st(t) != Ok {
        assert t <= t < t + n;
      }
    }
  }

  /** Steps that all succeeded can be skipped: the rest decides the outcome and adds to the count. */
  lemma {:induction false} SkipOkSteps(t: nat, i: nat, n: nat, st: nat -> Status)
    requires i <= n
    requires forall j :: t <= j < t + i ==> st(j) == Ok
    ensures Outcome(t, n, st) == Outcome(t + i, n - i, st)
    ensures Tried(t, n, st) == i + Tried(t + i, n - i, st)
    decreases i
  {
    if i > 0 {
      assert st(t) == Ok;
      SkipOkSteps(t + 1, i - 1, n - 1, st);
    }
  }

  /** A sequence whose first `i` steps succeed and whose next one fails returns that failure after `i + 1` steps. */
  lemma StopsAt(t: nat, i: nat, n: nat, st: nat -> Status)
    requires i < n
    requires forall j :: t <= j < t + i ==> st(j) == Ok
    requires st(t + i) != Ok
    ensures Outcome(t, n, st) == st(t + i) && Tried(t, n, st) == i + 1
  {
    SkipOkSteps(t, i, n, st);
  }

  /** A sequence whose every step succeeds returns Ok after all of them. */
  lemma AllSucceed(t: nat, n: nat, st: nat -> Status)
    requires forall j :: t <= j < t + n ==> st(j) == Ok
    ensures Outcome(t, n, st) == Ok && Tried(t, n, st) == n
  {
    SkipOkSteps(t, n, n, st);
  }

  /** Two bytes with the same eight bits are equal. */
  lemma BitsDetermineByte(a: U8, b: U8)
    requires forall j :: 0 <= j < 8 ==> (Bit(a, j) <==> Bit(b, j))
    ensures a == b
  {
    assert Bit(a, 0) == Bit(b, 0) && Bit(a, 1) == Bit(b, 1) && Bit(a, 2) == Bit(b, 2) && Bit(a, 3) == Bit(b, 3);
    assert Bit(a, 4) == Bit(b, 4) && Bit(a, 5) == Bit(b, 5) && Bit(a, 6) == Bit(b, 6) && Bit(a, 7) == Bit(b, 7);
  }

  /** The low byte of the 32-bit mask `1 << k`, which is what a `uint8_t` register keeps of it. */
  function LowByteOfMask(k: nat): (r: U8)
    requires k < 32
    ensures k < 8 ==> r == 1 << k
    ensures 8 <= k ==> r == 0
  {
    (((1 as bv32) << k) & 0xFF) as U8
  }

  /** The four pin operations of the IO-expander drivers. */
  datatype PinOp = WriteOp(val: bool) | SetOp | ResetOp | ToggleOp

  /** A pin operation applied with mask `m`: `|=` to drive high, `&= ~` to drive low, `^=` to toggle. */
  function ApplyMask(b: U8, m: U8, op: PinOp): U8
  {
    match op
    case WriteOp(v) => if v then b | m else b & !m
    case SetOp => b | m
    case ResetOp => b & !m
    case ToggleOp => b ^ m
  }

  /** A pin operation on bit `k`: the other seven bits keep their value. */
  function ApplyPinOp(b: U8, k: nat, op: PinOp): (r: U8)
    requires k < 8
    ensures forall j :: 0 <= j < 8 && j != k ==> (Bit(r, j) <==> Bit(b, j))
    ensures op == SetOp || op == WriteOp(true) ==> Bit(r, k)
    ensures op == ResetOp || op == WriteOp(false) ==> !Bit(r, k)
    ensures op == ToggleOp ==> (Bit(r, k) <==> !Bit(b, k))
  {
    forall j | 0 <= j < 8 && j != k
      ensures Bit(ApplyMask(b, 1 << k, op), j) <==> Bit(b, j)
    {
      OtherBitKept(b, k, j, op);
    }
    OwnBit(b, k, op);
    ApplyMask(b, 1 << k, op)
  }

  /** What each operation does to bit `k` under the mask `1 << k`. */
  lemma OwnBit(b: U8, k: nat, op: PinOp)
    requires k < 8
    ensures op == SetOp || op == WriteOp(true) ==> Bit(ApplyMask(b, 1 << k, op), k)
    ensures op == ResetOp || op == WriteOp(false) ==> !Bit(ApplyMask(b, 1 << k, op), k)
    ensures op == ToggleOp ==> (Bit(ApplyMask(b, 1 << k, op), k) <==> !Bit(b, k))
  {
    var m: U8 := 1 << k;
    assert m != 0;
  }

  /** The mask `1 << k` does not reach any other bit `j`. */
  lemma OtherBitKept(b: U8, k: nat, j: nat, op: PinOp)
    requires k < 8 && j < 8 && j != k
    ensures Bit(ApplyMask(b, 1 << k, op), j) <==> Bit(b, j)
  {
    var m: U8 := 1 << k;
    var n: U8 := 1 << j;
    assert m & n == 0;
  }

  /** An empty mask leaves the register as it was, whatever the operation. */
  lemma EmptyMaskIsNoop(b: U8, op: PinOp)
    ensures ApplyMask(b, 0, op) == b
  {
  }

  /** Toggling the same bit twice restores the register. */
  lemma ToggleTwice(b: U8, k: nat)
    requires k < 8
    ensures ApplyPinOp(ApplyPinOp(b, k, ToggleOp), k, ToggleOp) == b
  {
    var t := ApplyPinOp(ApplyPinOp(b, k, ToggleOp), k, ToggleOp);
    BitsDetermineByte(t, b);
  }

  /** Driving a pin high or low is the same as setting or resetting it. */
  lemma WriteIsSetOrReset(b: U8, k: nat, v: bool)
    requires k < 8
    ensures ApplyPinOp(b, k, WriteOp(v)) == ApplyPinOp(b, k, if v then SetOp else ResetOp)
  {
  }
}
