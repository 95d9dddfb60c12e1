/** Parameter items (alxParamItem.c): a typed value with a default, a range
    and a policy for values outside the range. The integer types are modelled
    on mathematical integers with the range of their C type; the C union
    holding the value becomes a datatype with one variant per kind of content.
    AlxRange_Check* and AlxBound_* are not part of this model; they are given
    the contracts their names and status codes describe (see `RangeCheck`,
    `Clamp`, `BoundStatus`, `StrRangeCheck`). */
module AlxParamItem {
  import opened AlxCommon

  /** AlxParamItem_Type without the floating-point kinds. */
  datatype Kind = Uint8 | Uint16 | Uint32 | Uint64 | Int8 | Int16 | Int32 | Int64 | Bool | Arr | Str

  predicate IsInteger(k: Kind)
  {
    !(k.Bool? || k.Arr? || k.Str?)
  }

  /** The least value of an integer kind. */
  function MinOf(k: Kind): int
    requires IsInteger(k)
  {
    match k
    case Uint8 => 0
    case Uint16 => 0
    case Uint32 => 0
    case Uint64 => 0
    case Int8 => -0x80
    case Int16 => -0x8000
    case Int32 => -0x8000_0000
    case Int64 => -0x8000_0000_0000_0000
  }

  /** The greatest value of an integer kind. */
  function MaxOf(k: Kind): int
    requires IsInteger(k)
  {
    match k
    case Uint8 => 0xFF
    case Uint16 => 0xFFFF
    case Uint32 => 0xFFFF_FFFF
    case Uint64 => 0xFFFF_FFFF_FFFF_FFFF
    case Int8 => 0x7F
    case Int16 => 0x7FFF
    case Int32 => 0x7FFF_FFFF
    case Int64 => 0x7FFF_FFFF_FFFF_FFFF
  }

  predicate Fits(k: Kind, v: int)
    requires IsInteger(k)
  {
    MinOf(k) <= v <= MaxOf(k)
  }

  /** AlxParamItem_Val: what the union holds for each kind. */
  datatype Val = Num(n: int) | Flag(b: bool) | Bytes(bs: seq<U8>) | Text(s: string)

  /** AlxParamItem_ValOutOfRangeHandle; `Other` is any value outside the enum,
      which reaches the `default` branch of the setters. */
  datatype Handle = Assert | Ignore | Bound | Other(code: nat)

  // ---------------------------------------------------------------------------
  // The range helpers the setters call
  // ---------------------------------------------------------------------------

  /** AlxRange_Check*: Alx_Ok inside [min, max], otherwise the side that is
      violated. */
  function RangeCheck(v: int, min: int, max: int): (s: Status)
    ensures s == Ok <==> min <= v <= max
    ensures s == Ok || s == ErrOutOfRangeMin || s == ErrOutOfRangeMax
  {
    if v < min then ErrOutOfRangeMin else if v > max then ErrOutOfRangeMax else Ok
  }

  /** AlxBound_*: the value clamped into [min, max]. */
  function Clamp(v: int, min: int, max: int): (r: int)
    ensures min <= max ==> min <= r <= max
    ensures min <= v <= max ==> r == v
    ensures v < min ==> r == min
  {
    if v < min then min else if v > max then max else v
  }

  /** The status AlxBound_* returns: Alx_Ok when nothing was clamped. */
  function BoundStatus(v: int, min: int, max: int): (s: Status)
    ensures s == Ok <==> min <= v <= max
  {
    if v < min then ErrBoundMin else if v > max then ErrBoundMax else Ok
  }

  /** Clamping twice is clamping once, and a clamp preserves the C type's range. */
  lemma BoundIdempotent(k: Kind, v: int, min: int, max: int)
    requires IsInteger(k) && Fits(k, v) && Fits(k, min) && Fits(k, max) && min <= max
    ensures Clamp(Clamp(v, min, max), min, max) == Clamp(v, min, max)
    ensures Fits(k, Clamp(v, min, max))
  {
  }

  /** AlxRange_CheckStr: a string fits when it has at most `maxLen` characters. */
  function StrRangeCheck(s: string, maxLen: nat): (r: Status)
    ensures r == Ok <==> |s| <= maxLen
  {
    if |s| <= maxLen then Ok else ErrOutOfRangeLen
  }

  /** AlxBound_Str: the string cut to `maxLen` characters. */
  function BoundStr(s: string, maxLen: nat): (r: string)
    ensures |r| <= maxLen
    ensures |s| <= maxLen ==> r == s
    ensures r == s[..|r|]
  {
    if |s| <= maxLen then s else s[..maxLen]
  }

  // ---------------------------------------------------------------------------
  // AlxParamItem_SetValToDef, as written
  // ---------------------------------------------------------------------------

  /** The branch of SetValToDef's if-chain taken for each kind. */
  datatype ToDefBranch = CopyValue | CopyPointer | CopyString | AssertFalse

  /** The if-chain as written: the branches meant for Arr and Str both test
      Uint16, which an earlier branch already catches, so Arr and Str items
      fall to the final `ALX_PARAM_ITEM_ASSERT(false)` and keep their value. */
  function ToDefBranchAsWritten(k: Kind): (b: ToDefBranch)
  {
    if IsInteger(k) || k == Bool then CopyValue
    else if k == Uint16 then CopyPointer
    else if k == Uint16 then CopyString
    else AssertFalse
  }

  /** The branch the chain evidently intended: one per kind. */
  function ToDefBranchIntended(k: Kind): (b: ToDefBranch)
    ensures b != AssertFalse
  {
    if k == Arr then CopyPointer else if k == Str then CopyString else CopyValue
  }

  /** No item ever reaches the Arr or Str branch; every other kind takes the
      branch intended for it. */
  lemma ToDefArrStrUnreachable(k: Kind)
    ensures ToDefBranchAsWritten(k) != CopyPointer && ToDefBranchAsWritten(k) != CopyString
    ensures ToDefBranchAsWritten(k) == AssertFalse <==> k == Arr || k == Str
    ensures k != Arr && k != Str ==> ToDefBranchAsWritten(k) == ToDefBranchIntended(k)
  {
  }

  // ---------------------------------------------------------------------------
  // AlxParamItem_CtorStr's guard
  // ---------------------------------------------------------------------------

  /** The assertion AlxParamItem_CtorStr makes: it measures the default-value
      buffer before the default string is copied into it. */
  predicate CtorStrGuardAsWritten(valDefBuffBefore: string, valDef: string, strMaxLen: nat)
  {
    |valDefBuffBefore| <= strMaxLen
  }

  /** The guard evidently intended: the default string itself fits. */
  predicate CtorStrGuard(valDef: string, strMaxLen: nat)
  {
    |valDef| <= strMaxLen
  }

  /** A zero-initialised default buffer lets an over-long default through. */
  lemma CtorStrGuardAdmitsOverlong()
    ensures CtorStrGuardAsWritten("", "abc", 2) && !CtorStrGuard("abc", 2)
  {
  }

  // ---------------------------------------------------------------------------
  // The item
  // ---------------------------------------------------------------------------

  class ParamItem {
    var kind: Kind
    var name: string
    var id: U32
    var groupId: U32
    var valDef: Val
    var valMin: Val
    var valMax: Val
    var valLen: nat
    var handle: Handle
    var val: Val
    var wasCtorCalled: bool

    /** The value, default and range hold what the union holds for the kind. */
    predicate Valid()
      reads this
    {
      wasCtorCalled &&
      match kind
      case Bool => val.Flag? && valDef.Flag?
      case Arr => val.Bytes? && valDef.Bytes? && |val.bs| == valLen && |valDef.bs| == valLen
      case Str => val.Text? && valDef.Text? && |val.s| <= valLen && |valDef.s| <= valLen
      case _ =>
        val.Num? && valDef.Num? && valMin.Num? && valMax.Num? &&
        Fits(kind, val.n) && Fits(kind, valDef.n) && Fits(kind, valMin.n) && Fits(kind, valMax.n)
    }

    /** AlxParamItem_CtorUint8 ... AlxParamItem_CtorInt64. */
    constructor CtorNum(kind: Kind, name: string, id: U32, groupId: U32, valDef: int, valMin: int, valMax: int, handle: Handle)
      requires IsInteger(kind) && Fits(kind, valDef) && Fits(kind, valMin) && Fits(kind, valMax)
      ensures Valid()
      ensures this.kind == kind && this.name == name && this.id == id && this.groupId == groupId
      ensures this.valDef == Num(valDef) && this.valMin == Num(valMin) && this.valMax == Num(valMax)
      ensures this.handle == handle && val == Num(valDef)
    {
      this.kind := kind;
      this.name := name;
      this.id := id;
      this.groupId := groupId;
      this.valDef := Num(valDef);
      this.valMin := Num(valMin);
      this.valMax := Num(valMax);
      valLen := Width(kind);
      this.handle := handle;
      val := Num(valDef);
      wasCtorCalled := true;
    }

    /** `sizeof` of an integer kind. */
    static function Width(k: Kind): (n: nat)
      requires IsInteger(k)
    {
      match k
      case Uint8 => 1
      case Int8 => 1
      case Uint16 => 2
      case Int16 => 2
      case Uint32 => 4
      case Int32 => 4
      case _ => 8
    }

    /** AlxParamItem_CtorBool: no range; the handle field is zero (Assert). */
    constructor CtorBool(name: string, id: U32, groupId: U32, valDef: bool)
      ensures Valid()
      ensures kind == Bool && this.name == name && this.id == id && this.groupId == groupId
      ensures this.valDef == Flag(valDef) && val == Flag(valDef) && handle == Assert
    {
      kind := Bool;
      this.name := name;
      this.id := id;
      this.groupId := groupId;
      this.valDef := Flag(valDef);
      valMin := Flag(false);
      valMax := Flag(false);
      valLen := 1;
      handle := Assert;
      val := Flag(valDef);
      wasCtorCalled := true;
    }

    /** AlxParamItem_CtorArr: `valBuffLen` bytes of the default are copied to
        the default buffer and from there to the value buffer. */
    constructor CtorArr(name: string, id: U32, groupId: U32, valDef: seq<U8>, valBuffLen: nat, handle: Handle)
      requires valBuffLen <= |valDef|
      ensures Valid()
      ensures kind == Arr && this.name == name && this.id == id && this.groupId == groupId
      ensures valLen == valBuffLen && this.handle == handle
      ensures this.valDef == Bytes(valDef[..valBuffLen]) && val == this.valDef
    {
      kind := Arr;
      this.name := name;
      this.id := id;
      this.groupId := groupId;
      this.valDef := Bytes(valDef[..valBuffLen]);
      valMin := Bytes([]);
      valMax := Bytes([]);
      valLen := valBuffLen;
      this.handle := handle;
      val := Bytes(valDef[..valBuffLen]);
      wasCtorCalled := true;
    }

    /** AlxParamItem_CtorStr with the guard on the default string itself;
        `CtorStrGuardAsWritten` is the guard the source makes. */
    constructor CtorStr(name: string, id: U32, groupId: U32, valDef: string, strMaxLen: nat, handle: Handle)
      requires CtorStrGuard(valDef, strMaxLen)
      ensures Valid()
      ensures kind == Str && this.name == name && this.id == id && this.groupId == groupId
      ensures valLen == strMaxLen && this.handle == handle
      ensures this.valDef == Text(valDef) && val == Text(valDef)
    {
      kind := Str;
      this.name := name;
      this.id := id;
      this.groupId := groupId;
      this.valDef := Text(valDef);
      valMin := Text("");
      valMax := Text("");
      valLen := strMaxLen;
      this.handle := handle;
      val := Text(valDef);
      wasCtorCalled := true;
    }

    /** AlxParamItem_SetValToDef with one branch per kind, as
        `ToDefBranchIntended` gives it: every kind gets its default back.
        For arrays the intended branch assigns the default's pointer
        (`val.voidPtr = valDef.voidPtr`), so the item would then share the
        default's buffer; values here have no identity, and the model takes
        the content reading, as the string branch's `strcpy` does. */
    method SetValToDef()
      requires Valid()
      modifies this`val
      ensures Valid() && val == valDef
    {
      val := valDef;
    }

    /** AlxParamItem_SetValUint8 ... AlxParamItem_SetValInt64: the eight
        functions differ only in the C type of the value. */
    method SetValNum(v: int) returns (status: Status)
      requires Valid() && IsInteger(kind) && Fits(kind, v)
      modifies this`val
      ensures Valid()
      ensures status == Ok ==> valMin.n <= v <= valMax.n && val == Num(v)
      ensures handle == Assert ==>
        (if valMin.n <= v <= valMax.n then status == Ok else status == Err && val == old(val))
      ensures handle == Ignore ==>
        status == RangeCheck(v, valMin.n, valMax.n) && (status != Ok ==> val == old(val))
      ensures handle == Bound ==>
        val == Num(Clamp(v, valMin.n, valMax.n)) && status == BoundStatus(v, valMin.n, valMax.n)
      ensures handle.Other? ==> status == Err && val == old(val)
    {
      match handle
      case Assert =>
        status := RangeCheck(v, valMin.n, valMax.n);
        if status == Ok {
          val := Num(v);
        } else {
          status := Err;
        }
      case Ignore =>
        status := RangeCheck(v, valMin.n, valMax.n);
        if status == Ok {
          val := Num(v);
        }
      case Bound =>
        status := BoundStatus(v, valMin.n, valMax.n);
        val := Num(Clamp(v, valMin.n, valMax.n));
      case Other(_) =>
        status := Err;
    }

    /** AlxParamItem_SetValBool: always stored. */
    method SetValBool(v: bool) returns (status: Status)
      requires Valid() && kind == Bool
      modifies this`val
      ensures Valid() && status == Ok && val == Flag(v)
    {
      val := Flag(v);
      return Ok;
    }

    /** AlxParamItem_SetValArr: `valLen` bytes copied in. */
    method SetValArr(v: seq<U8>)
      requires Valid() && kind == Arr && valLen <= |v|
      modifies this`val
      ensures Valid() && val == Bytes(v[..valLen])
    {
      val := Bytes(v[..valLen]);
    }

    /** AlxParamItem_SetValStr: the same three policies, on the length. */
    method SetValStr(v: string) returns (status: Status)
      requires Valid() && kind == Str
      modifies this`val
      ensures Valid()
      ensures status == Ok ==> val == Text(v) && |v| <= valLen
      ensures handle == Assert ==> (if |v| <= valLen then status == Ok else status == Err && val == old(val))
      ensures handle == Ignore ==> status == StrRangeCheck(v, valLen) && (status != Ok ==> val == old(val))
      ensures handle == Bound ==> val == Text(BoundStr(v, valLen)) && (status == Ok <==> |v| <= valLen)
      ensures handle.Other? ==> status == Err && val == old(val)
    {
      match handle
      case Assert =>
        status := StrRangeCheck(v, valLen);
        if status == Ok {
          val := Text(v);
        } else {
          status := Err;
        }
      case Ignore =>
        status := StrRangeCheck(v, valLen);
        if status == Ok {
          val := Text(v);
        }
      case Bound =>
        status := if |v| <= valLen then Ok else ErrBoundLen;
        val := Text(BoundStr(v, valLen));
      case Other(_) =>
        status := Err;
    }
  }
}
