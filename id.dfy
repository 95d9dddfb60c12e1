/** Firmware and hardware identity (alxId.c): the 64-bit version word packed
    from major, minor, patch and date, the release binary name, the
    acceptance of the bootloader's ID record read from flash, and the
    hardware ID read from tri-state pins as a base-3 number and looked up in
    the known and supported instance tables. The build constants
    (ALX_BUILD_*), the boot ID magic number and version, the flash contents
    at the boot ID address and the pin readings are parameters. */
module AlxId {
  import opened AlxCommon

  // ---------------------------------------------------------------------------
  // Version packing
  // ---------------------------------------------------------------------------

  /** `(uint64_t)major << 56 | (uint64_t)minor << 48 | (uint64_t)patch << 32 |
      (uint64_t)date`, the packing used for the firmware, PCB and BOM versions. */
  function PackVer(major: U8, minor: U8, patch: U8, date: U32): U64
  {
    ((major as U64) << 56) | ((minor as U64) << 48) | ((patch as U64) << 32) | (date as U64)
  }

  /** Every field can be read back from the packed word, and bits 40..47 stay zero. */
  lemma PackVerFields(major: U8, minor: U8, patch: U8, date: U32)
    ensures var v := PackVer(major, minor, patch, date);
      (v >> 56) as U8 == major && ((v >> 48) & 0xFF) as U8 == minor &&
      ((v >> 32) & 0xFF) as U8 == patch && (v & 0xFFFF_FFFF) as U32 == date &&
      (v >> 40) & 0xFF == 0
  {
  }

  /** Distinct versions pack to distinct words. */
  lemma PackVerInjective(a: (U8, U8, U8, U32), b: (U8, U8, U8, U32))
    requires PackVer(a.0, a.1, a.2, a.3) == PackVer(b.0, b.1, b.2, b.3)
    ensures a == b
  {
    PackVerFields(a.0, a.1, a.2, a.3);
    PackVerFields(b.0, b.1, b.2, b.3);
  }

  /** Versions compare as their numbers do: major first, then minor, patch and date. */
  lemma PackVerOrder(major: U8, minor: U8, patch: U8, date: U32, major': U8, minor': U8, patch': U8, date': U32)
    requires major < major'
    ensures PackVer(major, minor, patch, date) < PackVer(major', minor', patch', date')
  {
  }

  // ---------------------------------------------------------------------------
  // Decimal strings (`%u`, `%lu`)
  // ---------------------------------------------------------------------------

  predicate IsDigit(c: char)
  {
    '0' <= c <= '9'
  }

  /** The decimal digits of `n`, without leading zeros, as `%u` prints them. */
  function DecStr(n: nat): (s: string)
    ensures |s| >= 1
    ensures forall k :: 0 <= k < |s| ==> IsDigit(s[k])
    decreases n
  {
    if n < 10 then [('0' as int + n) as char]
    else DecStr(n / 10) + [('0' as int + n % 10) as char]
  }

  function DigitVal(c: char): nat
    requires IsDigit(c)
  {
    c as int - '0' as int
  }

  /** The number a string of decimal digits stands for. */
  function ParseDec(s: string): nat
    requires forall k :: 0 <= k < |s| ==> IsDigit(s[k])
  {
    if s == [] then 0 else 10 * ParseDec(s[..|s| - 1]) + DigitVal(s[|s| - 1])
  }

  /** Printing a number and reading it back gives the number. */
  lemma {:induction false} DecStrRoundTrip(n: nat)
    ensures ParseDec(DecStr(n)) == n
    decreases n
  {
    var s := DecStr(n);
    if n >= 10 {
      DecStrRoundTrip(n / 10);
      assert s[..|s| - 1] == DecStr(n / 10);
    }
  }

  /** The first position of `c` in `s`, or `|s|` when there is none. */
  function IndexOf(s: string, c: char): (k: nat)
    ensures k <= |s|
    ensures forall j :: 0 <= j < k ==> s[j] != c
    ensures k < |s| ==> s[k] == c
  {
    if s == [] then 0 else if s[0] == c then 0 else 1 + IndexOf(s[1..], c)
  }

  lemma IndexOfAfterDigits(d: string, rest: string, c: char)
    requires forall k :: 0 <= k < |d| ==> IsDigit(d[k])
    requires !IsDigit(c)
    ensures IndexOf(d + [c] + rest, c) == |d|
  {
    if d != [] {
      assert (d + [c] + rest)[1..] == d[1..] + [c] + rest;
      IndexOfAfterDigits(d[1..], rest, c);
    }
  }

  // ---------------------------------------------------------------------------
  // Firmware records
  // ---------------------------------------------------------------------------

  /** AlxId_Build: the values the build job bakes into the image (ALX_BUILD_*). */
  datatype Build = Build(name: string, date: U32, dateComp: U32, num: U32, hash: string, hashShort: string, rev: U32)

  /** AlxId_Fw: the parameters of a firmware image and the values derived from them. */
  datatype Fw = Fw(
    build: Build, artf: string, name: string,
    verMajor: U8, verMinor: U8, verPatch: U8, isBuildJobUsed: bool,
    verDate: U32, ver: U64, verStr: string, binStr: string)

  /** The date part of the version: the build job's date when a build job
      produced the image, the compile date otherwise. */
  function VerDate(isBuildJobUsed: bool, build: Build): (d: U32)
    ensures d == build.date || d == build.dateComp
    ensures isBuildJobUsed ==> d == build.date
    ensures !isBuildJobUsed ==> d == build.dateComp
  {
    if isBuildJobUsed then build.date else build.dateComp
  }

  /** `"%u.%u.%u.%lu"` of major, minor, patch and date. */
  function VerNumStr(major: U8, minor: U8, patch: U8, date: U32): string
  {
    DecStr(major as nat) + "." + DecStr(minor as nat) + "." + DecStr(patch as nat) + "." + DecStr(date as nat)
  }

  /** `"%u.%u.%u.%lu.%s"` of major, minor, patch, date and build hash. */
  function VerStr(fw: Fw, date: U32): string
  {
    VerNumStr(fw.verMajor, fw.verMinor, fw.verPatch, date) + "." + fw.build.hash
  }

  /** `"%lu_%s_%s_V%u-%u-%u_%s.bin"` of date, artefact, name, major, minor,
      patch and short hash: the name of the release binary. */
  function BinStr(date: U32, artf: string, name: string, major: U8, minor: U8, patch: U8, hashShort: string): string
  {
    DecStr(date as nat) + "_" + BinStrTail(artf, name, major, minor, patch, hashShort)
  }

  /** What follows the date and its `_` in the binary name. */
  function BinStrTail(artf: string, name: string, major: U8, minor: U8, patch: U8, hashShort: string): string
  {
    artf + "_" + name + "_V" + DecStr(major as nat) + "-" + DecStr(minor as nat) + "-" + DecStr(patch as nat) +
    "_" + hashShort + ".bin"
  }

  /** The binary name starts with the date, which ends at the first `_` and
      reads back as the date, and ends in `.bin`. */
  lemma BinStrDate(date: U32, artf: string, name: string, major: U8, minor: U8, patch: U8, hashShort: string)
    ensures var s := BinStr(date, artf, name, major, minor, patch, hashShort);
      var k := IndexOf(s, '_');
      k == |DecStr(date as nat)| && ParseDec(s[..k]) == date as nat &&
      |s| >= 4 && s[|s| - 4..] == ".bin"
  {
    var d := DecStr(date as nat);
    var rest := BinStrTail(artf, name, major, minor, patch, hashShort);
    var s := BinStr(date, artf, name, major, minor, patch, hashShort);
    assert s == d + ['_'] + rest;
    IndexOfAfterDigits(d, rest, '_');
    assert s[..|d|] == d;
    DecStrRoundTrip(date as nat);
    var front := artf + "_" + name + "_V" + DecStr(major as nat) + "-" + DecStr(minor as nat) + "-" +
      DecStr(patch as nat) + "_" + hashShort;
    assert rest == front + ".bin";
    assert s == (d + ['_'] + front) + ".bin";
  }

  /** The values AlxId_Ctor derives from a firmware record's parameters:
      the version date, the packed version and the two strings. */
  function Derive(fw: Fw): (r: Fw)
    ensures r.build == fw.build && r.artf == fw.artf && r.name == fw.name
    ensures r.verMajor == fw.verMajor && r.verMinor == fw.verMinor && r.verPatch == fw.verPatch
    ensures r.isBuildJobUsed == fw.isBuildJobUsed
  {
    var date := VerDate(fw.isBuildJobUsed, fw.build);
    fw.(verDate := date,
        ver := PackVer(fw.verMajor, fw.verMinor, fw.verPatch, date),
        verStr := VerStr(fw, date),
        binStr := BinStr(date, fw.artf, fw.name, fw.verMajor, fw.verMinor, fw.verPatch, fw.build.hashShort))
  }

  /** The derived fields depend only on the parameters, so deriving twice
      changes nothing, and the version word carries the version date. */
  lemma DeriveIdempotent(fw: Fw)
    ensures Derive(Derive(fw)) == Derive(fw)
    ensures (Derive(fw).ver & 0xFFFF_FFFF) as U32 == VerDate(fw.isBuildJobUsed, fw.build)
    ensures (Derive(fw).ver >> 56) as U8 == fw.verMajor
  {
    PackVerFields(fw.verMajor, fw.verMinor, fw.verPatch, VerDate(fw.isBuildJobUsed, fw.build));
  }

  /** The bootloader's ID record as it sits in flash. */
  datatype BootId = BootId(magicNum: U32, ver: U32, fw: Fw)

  /** The record AlxId_Ctor keeps of the bootloader: the bytes it copied from
      flash, with the derived fields filled in only when both the magic number
      and the record version are the expected ones. */
  function AcceptBootId(flash: BootId, magicNum: U32, ver: U32): (r: BootId)
    ensures r.magicNum == flash.magicNum && r.ver == flash.ver
    ensures flash.magicNum == magicNum && flash.ver == ver ==> r.fw == Derive(flash.fw)
    ensures flash.magicNum != magicNum || flash.ver != ver ==> r == flash
  {
    if flash.magicNum != magicNum then flash
    else if flash.ver != ver then flash
    else flash.(fw := Derive(flash.fw))
  }

  /** A record that was accepted is accepted again unchanged. */
  lemma AcceptBootIdIdempotent(flash: BootId, magicNum: U32, ver: U32)
    ensures AcceptBootId(AcceptBootId(flash, magicNum, ver), magicNum, ver) == AcceptBootId(flash, magicNum, ver)
  {
    DeriveIdempotent(flash.fw);
  }

  // ---------------------------------------------------------------------------
  // Hardware instances and the base-3 hardware ID
  // ---------------------------------------------------------------------------

  /** A `uint8_t` hardware ID, kept as a number because it is only summed and compared. */
  type HwId = n: nat | n < 256

  /** AlxId_HwInstance. */
  datatype HwInstance = HwInstance(
    id: HwId,
    pcbArtf: string, pcbName: string, pcbVerMajor: U8, pcbVerMinor: U8, pcbVerPatch: U8, pcbVerDate: U32, pcbVer: U64,
    pcbVerStr: string,
    bomArtf: string, bomName: string, bomVerMajor: U8, bomVerMinor: U8, bomVerPatch: U8, bomVerDate: U32, bomVer: U64,
    bomVerStr: string)

  /** The state a hardware ID pin array entry holds: a reading 0..2
      (floating, high, low) or AlxIoPin_TriState_Undefined before Init. */
  datatype TriState = Digit(d: nat) | Undefined

  /** Capacity of the pin state array (ALX_ID_HW_ID_IO_PIN_ARR_MAX_LEN). */
  const HW_ID_IO_PIN_ARR_MAX_LEN: nat := 5

  function Pow3(i: nat): (p: nat)
    ensures p >= 1
  {
    if i == 0 then 1 else 3 * Pow3(i - 1)
  }

  predicate AreDigits(states: seq<nat>)
  {
    forall k :: 0 <= k < |states| ==> states[k] < 3
  }

  /** Σ states[i]·3^i: the pin readings as a base-3 number, least significant pin first. */
  function Base3(states: seq<nat>): nat
  {
    if states == [] then 0 else Base3(states[..|states| - 1]) + states[|states| - 1] * Pow3(|states| - 1)
  }

  /** Peeling off the first pin: its reading is the lowest digit. */
  lemma {:induction false} Base3Cons(states: seq<nat>)
    requires states != []
    ensures Base3(states) == states[0] + 3 * Base3(states[1..])
    decreases |states|
  {
    var n := |states|;
    if n > 1 {
      Base3Cons(states[..n - 1]);
      assert states[..n - 1][1..] == states[1..][..n - 2];
      assert states[..n - 1][0] == states[0];
    } else {
      assert states[1..] == [];
    }
  }

  /** With digits 0..2, n pins give an ID below 3^n. */
  lemma {:induction false} Base3Bound(states: seq<nat>)
    requires AreDigits(states)
    ensures Base3(states) < Pow3(|states|)
    decreases |states|
  {
    if states != [] {
      var n := |states|;
      var prefix := states[..n - 1];
      Base3Bound(prefix);
      assert states[n - 1] <= 2;
      assert Term(states[n - 1], n - 1) <= 2 * Pow3(n - 1) by {
        TermBound(states[n - 1], n - 1);
      }
      assert Base3(states) == Base3(prefix) + Term(states[n - 1], n - 1);
    }
  }

  /** The pin readings can be recovered from the ID: two readings of the same
      length with the same ID are the same readings. */
  lemma {:induction false} Base3Injective(s: seq<nat>, t: seq<nat>)
    requires AreDigits(s) && AreDigits(t) && |s| == |t|
    requires Base3(s) == Base3(t)
    ensures s == t
    decreases |s|
  {
    if s != [] {
      Base3Cons(s);
      Base3Cons(t);
      assert s[0] < 3 && t[0] < 3;
      assert s[0] == t[0];
      Base3Injective(s[1..], t[1..]);
      assert s == [s[0]] + s[1..];
      assert t == [t[0]] + t[1..];
    }
  }

  /** Up to five pins never overflow the `uint8_t` ID: 2·(1+3+9+27+81) = 242. */
  lemma Base3FitsByte(states: seq<nat>)
    requires AreDigits(states) && |states| <= HW_ID_IO_PIN_ARR_MAX_LEN
    ensures Base3(states) < 243
    ensures HwIdOf(states) == Base3(states)
  {
    Base3Bound(states);
    assert Pow3(5) == 243;
    if |states| < 5 { Pow3Monotone(|states|, 5); }
  }

  lemma {:induction false} Pow3Monotone(i: nat, j: nat)
    requires i <= j
    ensures Pow3(i) <= Pow3(j)
    decreases j
  {
    if i < j { Pow3Monotone(i, j - 1); }
  }

  /** `(uint32_t)state * (uint32_t)powf(3, i)`, which is exact for small i. */
  function Term(d: nat, i: nat): nat
  {
    d * Pow3(i)
  }

  lemma TermBound(d: nat, i: nat)
    requires d <= 2
    ensures Term(d, i) <= 2 * Pow3(i)
  {
  }

  lemma Base3Snoc(states: seq<nat>, i: nat)
    requires i < |states|
    ensures Base3(states[..i + 1]) == Base3(states[..i]) + Term(states[i], i)
  {
    assert states[..i + 1][..i] == states[..i];
  }

  lemma ModAdd(a: nat, b: nat)
    ensures (a % 256 + b) % 256 == (a + b) % 256
  {
  }

  /** The `uint8_t` hardware ID the pins give. */
  function HwIdOf(states: seq<nat>): HwId
  {
    Base3(states) % 256
  }

  /** The first index of a known instance with ID `id`, or `|known|`. */
  function FirstKnown(known: seq<HwInstance>, id: HwId): (k: nat)
    ensures k <= |known|
    ensures forall j :: 0 <= j < k ==> known[j].id != id
    ensures k < |known| ==> known[k].id == id
  {
    if known == [] then 0 else if known[0].id == id then 0 else 1 + FirstKnown(known[1..], id)
  }

  /** The PCB and BOM versions packed and printed the way the firmware
      version is; nothing else of the instance changes. */
  function WithPackedVers(inst: HwInstance): (r: HwInstance)
    ensures r.(pcbVer := inst.pcbVer, pcbVerStr := inst.pcbVerStr, bomVer := inst.bomVer, bomVerStr := inst.bomVerStr) == inst
  {
    inst.(pcbVer := PackVer(inst.pcbVerMajor, inst.pcbVerMinor, inst.pcbVerPatch, inst.pcbVerDate),
          pcbVerStr := VerNumStr(inst.pcbVerMajor, inst.pcbVerMinor, inst.pcbVerPatch, inst.pcbVerDate),
          bomVer := PackVer(inst.bomVerMajor, inst.bomVerMinor, inst.bomVerPatch, inst.bomVerDate),
          bomVerStr := VerNumStr(inst.bomVerMajor, inst.bomVerMinor, inst.bomVerPatch, inst.bomVerDate))
  }

  /** The packed PCB and BOM words carry their fields, and packing again changes nothing. */
  lemma WithPackedVersFields(inst: HwInstance)
    ensures var r := WithPackedVers(inst);
      (r.pcbVer >> 56) as U8 == inst.pcbVerMajor && ((r.pcbVer >> 48) & 0xFF) as U8 == inst.pcbVerMinor &&
      ((r.pcbVer >> 32) & 0xFF) as U8 == inst.pcbVerPatch && (r.pcbVer & 0xFFFF_FFFF) as U32 == inst.pcbVerDate &&
      (r.bomVer >> 56) as U8 == inst.bomVerMajor && ((r.bomVer >> 48) & 0xFF) as U8 == inst.bomVerMinor &&
      ((r.bomVer >> 32) & 0xFF) as U8 == inst.bomVerPatch && (r.bomVer & 0xFFFF_FFFF) as U32 == inst.bomVerDate &&
      WithPackedVers(r) == r
  {
    PackVerFields(inst.pcbVerMajor, inst.pcbVerMinor, inst.pcbVerPatch, inst.pcbVerDate);
    PackVerFields(inst.bomVerMajor, inst.bomVerMinor, inst.bomVerPatch, inst.bomVerDate);
  }

  /** What AlxId_Init makes of the computed ID `id`: whether the instance is
      accepted, and the instance it settles on before the versions are packed.
      An empty known table keeps the previous instance with the new ID; an
      empty supported table accepts every instance. */
  function Resolve(known: seq<HwInstance>, supported: seq<HwId>, prev: HwInstance, id: HwId): (r: (bool, HwInstance))
  {
    var k := FirstKnown(known, id);
    var inst := if k < |known| then known[k] else prev.(id := id);
    ((known == [] || k < |known|) && (supported == [] || inst.id in supported), inst)
  }

  /** An accepted instance carries the computed ID, is the first known entry
      with that ID and is supported; and when both tables are non-empty,
      acceptance means exactly that such an entry exists and is supported. */
  lemma ResolveAccepts(known: seq<HwInstance>, supported: seq<HwId>, prev: HwInstance, id: HwId)
    ensures var r := Resolve(known, supported, prev, id);
      (r.0 ==> r.1.id == id && (supported != [] ==> id in supported)) &&
      (r.0 && known != [] ==> r.1 in known && forall j :: 0 <= j < |known| && known[j] == r.1 ==> FirstKnown(known, id) <= j) &&
      (known != [] && supported != [] ==>
        (r.0 <==> (exists j :: 0 <= j < |known| && known[j].id == id) && id in supported))
  {
    var k := FirstKnown(known, id);
    if known != [] && supported != [] && (exists j :: 0 <= j < |known| && known[j].id == id) {
      assert k < |known|;
    }
  }

  // ---------------------------------------------------------------------------
  // The identity object
  // ---------------------------------------------------------------------------

  class Id {
    var fw: Fw
    var fwIsBootUsed: bool
    var fwBootIdAddr: U32
    var fwBootId: BootId
    var hwInstanceKnown: seq<HwInstance>
    var hwInstanceHwIdSupported: seq<HwId>
    var hwIdIoPinCount: nat
    var hwMcuName: string
    var hwInstance: HwInstance
    var hwIdIoPinState: seq<TriState>
    var wasCtorCalled: bool
    var isInit: bool
    var isHwIdUsed: bool

    /** AlxId_Ctor. `build` stands for the ALX_BUILD_* constants, `bootFlash`
        for the record at `fwBootIdAddr`, and `bootMagicNum`/`bootVer` for
        ALX_ID_BOOT_ID_MAGIC_NUM and ALX_ID_BOOT_ID_VER. The boot record is
        the zero-initialised static object when no bootloader is used. */
    constructor Ctor(
      build: Build, fwArtf: string, fwName: string, fwVerMajor: U8, fwVerMinor: U8, fwVerPatch: U8,
      fwIsBuildJobUsed: bool, fwIsBootUsed: bool, fwBootIdAddr: U32, bootFlash: BootId, bootMagicNum: U32, bootVer: U32,
      hwInstanceKnown: seq<HwInstance>, hwInstanceHwIdSupported: seq<HwId>, hwIdIoPinCount: nat, hwMcuName: string,
      zeroBootId: BootId)
      ensures fw == Derive(Fw(build, fwArtf, fwName, fwVerMajor, fwVerMinor, fwVerPatch, fwIsBuildJobUsed, 0, 0, "", ""))
      ensures fw.verDate == VerDate(fwIsBuildJobUsed, build)
      ensures fw.ver == PackVer(fwVerMajor, fwVerMinor, fwVerPatch, fw.verDate)
      ensures fw.binStr == BinStr(fw.verDate, fwArtf, fwName, fwVerMajor, fwVerMinor, fwVerPatch, build.hashShort)
      ensures this.fwIsBootUsed == fwIsBootUsed && this.fwBootIdAddr == fwBootIdAddr
      ensures fwIsBootUsed ==> fwBootId == AcceptBootId(bootFlash, bootMagicNum, bootVer)
      ensures !fwIsBootUsed ==> fwBootId == zeroBootId
      ensures this.hwInstanceKnown == hwInstanceKnown && this.hwInstanceHwIdSupported == hwInstanceHwIdSupported
      ensures this.hwIdIoPinCount == hwIdIoPinCount && this.hwMcuName == hwMcuName
      ensures hwInstance.id == 255
      ensures hwIdIoPinState == seq(HW_ID_IO_PIN_ARR_MAX_LEN, _ => Undefined)
      ensures wasCtorCalled && !isInit && isHwIdUsed
    {
      fw := Derive(Fw(build, fwArtf, fwName, fwVerMajor, fwVerMinor, fwVerPatch, fwIsBuildJobUsed, 0, 0, "", ""));
      this.fwIsBootUsed := fwIsBootUsed;
      this.fwBootIdAddr := fwBootIdAddr;
      if fwIsBootUsed {
        fwBootId := AcceptBootId(bootFlash, bootMagicNum, bootVer);
      } else {
        fwBootId := zeroBootId;
      }
      this.hwInstanceKnown := hwInstanceKnown;
      this.hwInstanceHwIdSupported := hwInstanceHwIdSupported;
      this.hwIdIoPinCount := hwIdIoPinCount;
      this.hwMcuName := hwMcuName;
      hwInstance := HwInstance(255, "", "", 0, 0, 0, 0, 0, "", "", "", 0, 0, 0, 0, 0, "");
      hwIdIoPinState := seq(HW_ID_IO_PIN_ARR_MAX_LEN, _ => Undefined);
      wasCtorCalled := true;
      isInit := false;
      isHwIdUsed := true;
    }

    /** AlxId_Ctor_NoHwId: no tables and no pins; the instance is given. */
    constructor CtorNoHwId(
      build: Build, fwArtf: string, fwName: string, fwVerMajor: U8, fwVerMinor: U8, fwVerPatch: U8,
      fwIsBuildJobUsed: bool, fwIsBootUsed: bool, fwBootIdAddr: U32, bootFlash: BootId, bootMagicNum: U32, bootVer: U32,
      hwInstance: HwInstance, hwMcuName: string, zeroBootId: BootId)
      ensures fw == Derive(Fw(build, fwArtf, fwName, fwVerMajor, fwVerMinor, fwVerPatch, fwIsBuildJobUsed, 0, 0, "", ""))
      ensures fwIsBootUsed ==> fwBootId == AcceptBootId(bootFlash, bootMagicNum, bootVer)
      ensures !fwIsBootUsed ==> fwBootId == zeroBootId
      ensures hwInstanceKnown == [] && hwInstanceHwIdSupported == [] && hwIdIoPinCount == 0
      ensures this.hwInstance == hwInstance && this.hwMcuName == hwMcuName
      ensures wasCtorCalled && !isInit && !isHwIdUsed
    {
      fw := Derive(Fw(build, fwArtf, fwName, fwVerMajor, fwVerMinor, fwVerPatch, fwIsBuildJobUsed, 0, 0, "", ""));
      this.fwIsBootUsed := fwIsBootUsed;
      this.fwBootIdAddr := fwBootIdAddr;
      if fwIsBootUsed {
        fwBootId := AcceptBootId(bootFlash, bootMagicNum, bootVer);
      } else {
        fwBootId := zeroBootId;
      }
      hwInstanceKnown := [];
      hwInstanceHwIdSupported := [];
      hwIdIoPinCount := 0;
      this.hwMcuName := hwMcuName;
      this.hwInstance := hwInstance;
      hwIdIoPinState := seq(HW_ID_IO_PIN_ARR_MAX_LEN, _ => Undefined);
      wasCtorCalled := true;
      isInit := false;
      isHwIdUsed := false;
    }

    /** The hardware ID loop of AlxId_Init: starting from 0, add state·3^i
        for every pin, the sum truncated to the `uint8_t` ID at each step. */
    static method CalcHwId(states: seq<nat>) returns (id: HwId)
      requires AreDigits(states)
      ensures id == HwIdOf(states)
      ensures |states| <= HW_ID_IO_PIN_ARR_MAX_LEN ==> id == Base3(states)
    {
      var acc: HwId := 0;
      var i := 0;
      while i < |states|
        invariant 0 <= i <= |states|
        invariant acc == Base3(states[..i]) % 256
      {
        var term := Term(states[i], i);
        Base3Snoc(states, i);
        ModAdd(Base3(states[..i]), term);
        acc := (acc + term) % 256;
        i := i + 1;
      }
      assert states[..|states|] == states;
      assert acc == HwIdOf(states);
      id := acc;
      if |states| <= HW_ID_IO_PIN_ARR_MAX_LEN {
        Base3FitsByte(states);
      }
    }

    /** The known-instance loop of AlxId_Init: the first entry whose ID
        matches, found or not. */
    static method FindKnown(known: seq<HwInstance>, id: HwId) returns (found: bool, k: nat)
      ensures found <==> exists j :: 0 <= j < |known| && known[j].id == id
      ensures found ==> k == FirstKnown(known, id) && k < |known|
    {
      found := false;
      k := 0;
      var i := 0;
      while i < |known|
        invariant 0 <= i <= |known|
        invariant forall j :: 0 <= j < i ==> known[j].id != id
      {
        if known[i].id == id {
          found := true;
          k := i;
          FirstKnownIs(known, id, i);
          return;
        }
        i := i + 1;
      }
    }

    static lemma {:induction false} FirstKnownIs(known: seq<HwInstance>, id: HwId, i: nat)
      requires i < |known| && known[i].id == id
      requires forall j :: 0 <= j < i ==> known[j].id != id
      ensures FirstKnown(known, id) == i
      decreases i
    {
      if i > 0 {
        FirstKnownIs(known[1..], id, i - 1);
      }
    }

    /** The supported-ID loop of AlxId_Init. */
    static method IsSupported(supported: seq<HwId>, id: HwId) returns (ok: bool)
      ensures ok <==> id in supported
    {
      var i := 0;
      while i < |supported|
        invariant 0 <= i <= |supported|
        invariant forall j :: 0 <= j < i ==> supported[j] != id
      {
        if supported[i] == id {
          return true;
        }
        i := i + 1;
      }
      return false;
    }

    /** The lookup and support check of AlxId_Init: the instance is the given
        one with the new ID, replaced by the first known entry with that ID. */
    static method SelectInstance(known: seq<HwInstance>, supported: seq<HwId>, prev: HwInstance, id: HwId)
      returns (ok: bool, inst: HwInstance)
      ensures (ok, inst) == Resolve(known, supported, prev, id)
    {
      inst := prev.(id := id);
      if known != [] {
        var found, k := FindKnown(known, id);
        if !found {
          return false, inst;
        }
        inst := known[k];
      }
      if supported != [] {
        ok := IsSupported(supported, inst.id);
        if !ok {
          return;
        }
      }
      ok := true;
    }

    /** AlxId_Init. `pinStates` are the tri-state readings of the ID pins.
        An ID found in no known entry, or in no supported entry, ends Init
        early with `isInit` false; an empty table checks nothing. */
    method Init(pinStates: seq<nat>)
      requires wasCtorCalled && !isInit
      requires isHwIdUsed ==> |pinStates| == hwIdIoPinCount && AreDigits(pinStates)
      modifies this`hwIdIoPinState, this`hwInstance, this`isInit
      ensures !isHwIdUsed ==> isInit && hwInstance == WithPackedVers(old(hwInstance))
      ensures !isHwIdUsed ==> hwIdIoPinState == old(hwIdIoPinState)
      ensures isHwIdUsed ==>
        var r := Resolve(hwInstanceKnown, hwInstanceHwIdSupported, old(hwInstance), HwIdOf(pinStates));
        (isInit <==> r.0) && hwInstance == (if r.0 then WithPackedVers(r.1) else r.1)
      ensures isHwIdUsed ==> |hwIdIoPinState| >= |pinStates|
      ensures isHwIdUsed ==> forall i :: 0 <= i < |pinStates| ==> hwIdIoPinState[i] == Digit(pinStates[i])
      ensures isHwIdUsed ==> hwIdIoPinState == StoreStates(old(hwIdIoPinState), pinStates)
    {
      if isHwIdUsed {
        hwIdIoPinState := StoreStates(hwIdIoPinState, pinStates);
        var id := CalcHwId(pinStates);
        var ok, inst := SelectInstance(hwInstanceKnown, hwInstanceHwIdSupported, hwInstance, id);
        hwInstance := inst;
        if !ok {
          return;
        }
      }
      hwInstance := WithPackedVers(hwInstance);
      isInit := true;
    }

    /** The pin-reading loop: entry i holds the reading of pin i. */
    static function StoreStates(prev: seq<TriState>, states: seq<nat>): (r: seq<TriState>)
      ensures |r| == if |states| <= |prev| then |prev| else |states|
      ensures forall i :: 0 <= i < |states| ==> r[i] == Digit(states[i])
      ensures forall i :: |states| <= i < |prev| ==> r[i] == prev[i]
    {
      var n := if |states| <= |prev| then |prev| else |states|;
      seq(n, i requires 0 <= i < n => if i < |states| then Digit(states[i]) else prev[i])
    }
  }
}
