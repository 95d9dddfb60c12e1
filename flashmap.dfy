/** MCUboot flash-area backend (flash_map_backend.c): the static table of
    flash areas (bootloader, primary and secondary image), the lookup by area
    ID, the checks in front of read, write and erase, the sector enumeration,
    the slot-to-area mapping and the STM32F4 sector arithmetic of the erase.
    Build-time constants (device ID, sector size, area offsets and sizes, the
    MCUboot area-ID macros) are the fields of a `Layout`; the memory-mapped
    flash is a function from address to byte, and each HAL call's result is a
    parameter. Addresses are 32-bit: `Wrap32` writes out the uint32
    arithmetic wherever the source can wrap. */
module AlxFlashMap {
  import opened AlxCommon

  const TWO32: nat := 0x1_0000_0000
  type Uint32 = n: nat | n < 0x1_0000_0000
  type AreaId = n: nat | n < 256

  /** uint32 arithmetic: the value modulo 2^32. */
  function Wrap32(x: int): (r: Uint32)
    ensures 0 <= x < TWO32 ==> r == x
  {
    x % TWO32
  }

  /** Conversion of an `int` argument to the `uint8_t` parameter of the lookup. */
  function Wrap8(x: int): (r: AreaId)
    ensures 0 <= x < 256 ==> r == x
  {
    x % 256
  }

  /** struct flash_area. */
  datatype FlashArea = FlashArea(id: AreaId, deviceId: nat, off: Uint32, size: Uint32)

  /** struct flash_sector: offset relative to the area, and size. */
  datatype Sector = Sector(off: nat, size: nat)

  /** The build configuration the backend is compiled with. */
  datatype Layout = Layout(
    deviceId: nat,          // ALX_MCU_BOOT_FLASH_DEVICE_ID
    sectorSize: Uint32,     // ALX_MCU_BOOT_FLASH_SECTOR_SIZE
    flashBase: Uint32,      // FLASH_BASE
    bootOff: Uint32,        // ALX_MCU_BOOT_BOOTLOADER_OFFSET
    bootSize: Uint32,       // ALX_MCU_BOOT_BOOTLOADER_SIZE
    primaryId: AreaId,      // PRIMARY_ID
    primaryOff: Uint32,     // ALX_MCU_BOOT_IMAGE_PRIMARY_OFFSET
    secondaryId: AreaId,    // SECONDARY_ID
    secondaryOff: Uint32,   // ALX_MCU_BOOT_IMAGE_SECONDARY_OFFSET
    imageSize: Uint32)      // ALX_MCU_BOOT_IMAGE_SIZE

  /** The bootloader's own area ID. */
  const BOOTLOADER_ID: AreaId := 255

  /** s_flash_areas, in table order. */
  function Areas(l: Layout): (r: seq<FlashArea>)
  {
    [FlashArea(BOOTLOADER_ID, l.deviceId, l.bootOff, l.bootSize),
     FlashArea(l.primaryId, l.deviceId, l.primaryOff, l.imageSize),
     FlashArea(l.secondaryId, l.deviceId, l.secondaryOff, l.imageSize)]
  }

  // ---------------------------------------------------------------------------
  // Lookup and open
  // ---------------------------------------------------------------------------

  /** The first entry of a table carrying the ID, if any. */
  function Lookup(areas: seq<FlashArea>, id: AreaId): (r: Option<FlashArea>)
    ensures r.Some? ==> r.value in areas && r.value.id == id
    ensures r.None? <==> forall i :: 0 <= i < |areas| ==> areas[i].id != id
  {
    if areas == [] then None
    else if areas[0].id == id then Some(areas[0])
    else Lookup(areas[1..], id)
  }

  /** Lookup returns the FIRST matching entry: every entry before it carries
      another ID. */
  lemma {:induction false} LookupFirst(areas: seq<FlashArea>, id: AreaId)
    requires Lookup(areas, id).Some?
    ensures exists i :: (0 <= i < |areas| && areas[i] == Lookup(areas, id).value &&
      forall j :: 0 <= j < i ==> areas[j].id != id)
  {
    if areas[0].id != id {
      LookupFirst(areas[1..], id);
      var i :| 0 <= i < |areas[1..]| && areas[1..][i] == Lookup(areas[1..], id).value &&
        forall j :: 0 <= j < i ==> areas[1..][j].id != id;
      assert areas[i + 1] == Lookup(areas, id).value;
      assert forall j :: 0 <= j < i + 1 ==> areas[j].id != id by {
        forall j | 0 <= j < i + 1 ensures areas[j].id != id {
          if j > 0 { assert areas[j] == areas[1..][j - 1]; }
        }
      }
    } else {
      assert areas[0] == Lookup(areas, id).value;
    }
  }

  /** prv_lookup_flash_area: a linear search of the table. */
  method LookupArea(areas: seq<FlashArea>, id: AreaId) returns (r: Option<FlashArea>)
    ensures r == Lookup(areas, id)
  {
    var i := 0;
    while i < |areas|
      invariant 0 <= i <= |areas|
      invariant Lookup(areas[i..], id) == Lookup(areas, id)
    {
      if id == areas[i].id {
        return Some(areas[i]);
      }
      assert areas[i..][1..] == areas[i + 1..];
      i := i + 1;
    }
    return None;
  }

  /** flash_area_open: 0 and the area with that ID, or -1 and no area. */
  method Open(l: Layout, id: AreaId) returns (rc: int, fa: Option<FlashArea>)
    ensures rc == 0 || rc == -1
    ensures rc == 0 <==> fa.Some?
    ensures fa.Some? <==> id == BOOTLOADER_ID || id == l.primaryId || id == l.secondaryId
    ensures fa.Some? ==> fa.value in Areas(l) && fa.value.id == id
    ensures fa == Lookup(Areas(l), id)
  {
    var area := LookupArea(Areas(l), id);
    assert Areas(l)[1..][1..] == [Areas(l)[2]];
    fa := area;
    rc := if area.Some? then 0 else -1;
  }

  // ---------------------------------------------------------------------------
  // Read, write and erase checks
  // ---------------------------------------------------------------------------

  /** The bounds check read and write apply: `end_offset = off + len` is a
      uint32, so a large offset wraps around and passes. */
  predicate InBoundsAsWritten(fa: FlashArea, off: Uint32, len: Uint32)
  {
    Wrap32(off + len) <= fa.size
  }

  /** The bounds check the backend evidently intends: the access lies inside
      the area. */
  predicate InBounds(fa: FlashArea, off: Uint32, len: Uint32)
  {
    off + len <= fa.size
  }

  /** The two checks differ only when off + len overflows 32 bits. */
  lemma InBoundsAsWrittenAgrees(fa: FlashArea, off: Uint32, len: Uint32)
    ensures off + len < TWO32 ==> (InBoundsAsWritten(fa, off, len) <==> InBounds(fa, off, len))
    ensures InBounds(fa, off, len) ==> InBoundsAsWritten(fa, off, len)
  {
  }

  /** An offset of 0xFFFFFFFF with length 1 passes the check as written and
      reads the byte just below the area. */
  lemma InBoundsAsWrittenWraps()
    ensures var fa := FlashArea(1, 0, 0x0802_0000, 0x0002_0000);
      InBoundsAsWritten(fa, 0xFFFF_FFFF, 1) && !InBounds(fa, 0xFFFF_FFFF, 1) &&
      Wrap32(fa.off + 0xFFFF_FFFF) == fa.off - 1
  {
  }

  /** An area that does not run past the end of the 32-bit address space. */
  predicate AreaFits(fa: FlashArea)
  {
    fa.off + fa.size <= TWO32
  }

  /** With the intended check, every accessed address lies inside the area and
      `fa_off + off` does not wrap. */
  lemma InBoundsAddresses(fa: FlashArea, off: Uint32, len: Uint32, k: nat)
    requires AreaFits(fa) && InBounds(fa, off, len) && k < len
    ensures Wrap32(fa.off + off) == fa.off + off
    ensures fa.off <= Wrap32(fa.off + off) + k < fa.off + fa.size
  {
  }

  /** The checks shared by read and write: the area is on the backend's
      device and the access is within it. */
  predicate AccessOk(l: Layout, fa: FlashArea, off: Uint32, len: Uint32)
  {
    fa.deviceId == l.deviceId && InBounds(fa, off, len)
  }

  /** flash_area_read: -1 on another device or out of bounds, otherwise 0 and
      the `len` bytes of memory-mapped flash from fa_off + off. */
  function Read(l: Layout, fa: FlashArea, off: Uint32, len: Uint32, mem: nat -> U8): (r: (int, seq<U8>))
    ensures r.0 == 0 || r.0 == -1
    ensures r.0 == 0 <==> AccessOk(l, fa, off, len)
    ensures r.0 == -1 ==> r.1 == []
    ensures r.0 == 0 ==> (|r.1| == len &&
      forall k :: 0 <= k < len ==> r.1[k] == mem(Wrap32(fa.off + off) + k))
  {
    if fa.deviceId != l.deviceId then (-1, [])
    else if !InBounds(fa, off, len) then (-1, [])
    else
      var addr := Wrap32(fa.off + off);
      (0, seq(len, k requires 0 <= k < len => mem(addr + k)))
  }

  /** HAL_FLASH_PROGRAM_LEN on STM32F4: one 32-bit word per program step. */
  const PROGRAM_LEN: nat := 4

  /** flash_area_align: the smallest write unit. */
  function Align(fa: FlashArea): (r: nat)
    ensures r == PROGRAM_LEN && r > 0
  {
    PROGRAM_LEN
  }

  /** flash_area_erased_val: erased flash reads as 0xFF. */
  function ErasedVal(fa: FlashArea): (r: U8)
    ensures r == 0xFF
  {
    0xFF
  }

  /** One HAL_FLASH_Program call: the target address and the four source
      bytes copied into its data word. */
  datatype Program = Program(addr: nat, data: seq<U8>)

  /** Number of program steps `for (i = 0; i < len; i += 4)` makes. */
  function WordCount(len: nat): nat
  {
    (len + PROGRAM_LEN - 1) / PROGRAM_LEN
  }

  /** The first `n` program steps of a write of `src` at `addr`. */
  function WordOps(addr: nat, src: seq<U8>, n: nat): (r: seq<Program>)
    requires 4 * n <= |src|
    ensures |r| == n
    ensures forall k :: 0 <= k < n ==> r[k] == Program(addr + 4 * k, src[4 * k .. 4 * k + 4])
  {
    if n == 0 then []
    else WordOps(addr, src, n - 1) + [Program(addr + 4 * (n - 1), src[4 * (n - 1) .. 4 * n])]
  }

  /** Every HAL write of a `len` byte request covers the whole request with
      whole words. */
  lemma WordCountCovers(len: nat)
    ensures PROGRAM_LEN * WordCount(len) >= len
    ensures PROGRAM_LEN * WordCount(len) < len + PROGRAM_LEN
    ensures len % PROGRAM_LEN == 0 ==> PROGRAM_LEN * WordCount(len) == len
  {
  }

  /** prv_flash_write: programs consecutive words at addr, addr+4, ... and
      stops at the first HAL failure. `programOk[k]` is the status of the k-th
      HAL_FLASH_Program call. The source copies four bytes per step, so the
      buffer must hold the rounded-up length. */
  method ProgramWords(addr: nat, src: seq<U8>, len: nat, programOk: seq<bool>)
    returns (ok: bool, ops: seq<Program>)
    requires 4 * WordCount(len) <= |src|
    requires WordCount(len) <= |programOk|
    ensures ok <==> forall k :: 0 <= k < WordCount(len) ==> programOk[k]
    ensures ok ==> ops == WordOps(addr, src, WordCount(len))
    ensures !ok ==> (1 <= |ops| <= WordCount(len) && ops == WordOps(addr, src, |ops|) &&
      !programOk[|ops| - 1] && forall k :: 0 <= k < |ops| - 1 ==> programOk[k])
  {
    var i := 0;
    var n := 0;
    ops := [];
    while i < len
      invariant i == 4 * n && n <= WordCount(len)
      invariant i < len ==> n < WordCount(len)
      invariant i >= len ==> n == WordCount(len)
      invariant ops == WordOps(addr, src, n)
      invariant forall k :: 0 <= k < n ==> programOk[k]
    {
      var data := src[i .. i + 4];
      ops := ops + [Program(addr + i, data)];
      if !programOk[n] {
        return false, ops;
      }
      i := i + 4;
      n := n + 1;
    }
    ok := true;
  }

  /** flash_area_write: the read checks, then the word loop at fa_off + off. */
  method Write(l: Layout, fa: FlashArea, off: Uint32, src: seq<U8>, len: Uint32, programOk: seq<bool>)
    returns (rc: int, ops: seq<Program>)
    requires 4 * WordCount(len) <= |src|
    requires WordCount(len) <= |programOk|
    ensures rc == 0 || rc == -1
    ensures !AccessOk(l, fa, off, len) ==> rc == -1 && ops == []
    ensures AccessOk(l, fa, off, len) ==>
      ((rc == 0 <==> forall k :: 0 <= k < WordCount(len) ==> programOk[k]) &&
      |ops| <= WordCount(len) && ops == WordOps(Wrap32(fa.off + off), src, |ops|))
    ensures rc == 0 ==> ops == WordOps(Wrap32(fa.off + off), src, WordCount(len))
  {
    if fa.deviceId != l.deviceId {
      return -1, [];
    }
    if !InBounds(fa, off, len) {
      return -1, [];
    }
    var addr := Wrap32(fa.off + off);
    var ok;
    ok, ops := ProgramWords(addr, src, len, programOk);
    rc := if ok then 0 else -1;
  }

  /** flash_area_erase accepts only sector-aligned offset and length. */
  predicate SectorAligned(l: Layout, off: Uint32, len: Uint32)
    requires l.sectorSize > 0
  {
    len % l.sectorSize == 0 && off % l.sectorSize == 0
  }

  /** The HAL_FLASHEx_Erase request: first sector and number of sectors. */
  datatype SectorRange = SectorRange(first: Uint32, count: Uint32)

  /** First address of the second flash bank of the STM32F4. */
  const BANK2_ADDR: nat := 0x0810_0000

  /** prv_get_flash_page: index of the sector-sized page holding `addr`. */
  function Page(l: Layout, addr: Uint32): Uint32
    requires l.sectorSize > 0
  {
    Wrap32(addr - l.flashBase) / l.sectorSize
  }

  /** The STM32F4 branch of prv_flash_erase: the page of the first and last
      byte, shifted by 4 in bank 1 and by 8 in bank 2, and the count
      last - first + 1, all in uint32. */
  function F4EraseRange(l: Layout, addr: Uint32, len: Uint32): SectorRange
    requires l.sectorSize > 0
  {
    var shift := if addr < BANK2_ADDR then 4 else 8;
    var first := Wrap32(Page(l, addr) + shift);
    var last := Wrap32(Page(l, Wrap32(addr + len - 1)) + shift);
    SectorRange(first, Wrap32(last - first + 1))
  }

  /** Multiplication by a natural number is monotone. */
  lemma {:induction false} MulMonotone(a: nat, b: nat, d: nat)
    requires a <= b
    ensures a * d <= b * d
    decreases b - a
  {
    if a < b {
      MulMonotone(a, b - 1, d);
      assert b * d == (b - 1) * d + d;
    }
  }

  /** x == q * d + r with 0 <= r < d determines the quotient. */
  lemma DivUnique(x: nat, d: nat, q: nat, r: nat)
    requires d > 0 && 0 <= r < d && x == q * d + r
    ensures x / d == q
  {
    var q' := x / d;
    assert x == q' * d + x % d;
    if q' > q {
      MulMonotone(q + 1, q', d);
    } else if q' < q {
      MulMonotone(q' + 1, q, d);
    }
  }

  /** The page of the last byte of `c` whole pages starting at page `p`. */
  lemma LastPage(x: nat, s: nat, p: nat, c: nat)
    requires s > 0 && c >= 1 && x == p * s + c * s - 1
    ensures x / s == p + c - 1
  {
    assert x == (p + c - 1) * s + (s - 1) by {
      assert (p + c - 1) * s == p * s + c * s - s;
    }
    DivUnique(x, s, p + c - 1, s - 1);
  }

  /** Pages of at least 8 bytes number fewer than 2^29. */
  lemma PageBound(x: nat, s: nat)
    requires 8 <= s && x < TWO32
    ensures x / s < TWO32 / 8
  {
    var q := x / s;
    assert x == q * s + x % s;
    MulMonotone(8, s, q);
  }

  /** For an aligned erase of at least one sector inside flash, the request
      starts at the area's page plus the bank shift and covers exactly
      len / sector-size sectors. */
  lemma F4EraseRangeAligned(l: Layout, addr: Uint32, len: Uint32)
    requires l.sectorSize >= 8
    requires l.flashBase <= addr && (addr - l.flashBase) % l.sectorSize == 0
    requires len > 0 && len % l.sectorSize == 0 && addr + len <= TWO32
    ensures F4EraseRange(l, addr, len).first ==
      (addr - l.flashBase) / l.sectorSize + (if addr < BANK2_ADDR then 4 else 8)
    ensures F4EraseRange(l, addr, len).count == len / l.sectorSize
  {
    var s := l.sectorSize;
    var p := (addr - l.flashBase) / s;
    var c := len / s;
    assert addr - l.flashBase == p * s;
    assert len == c * s;
    var lastByte := addr + len - 1;
    assert Wrap32(lastByte) == lastByte;
    assert Wrap32(addr - l.flashBase) == addr - l.flashBase;
    LastPage(lastByte - l.flashBase, s, p, c);
    PageBound(lastByte - l.flashBase, s);
    assert Page(l, addr) == p;
    assert Page(l, lastByte) == p + c - 1;
  }

  /** prv_flash_erase on STM32F4: the sector request, sent to the HAL, whose
      result is `halOk`. */
  method FlashErase(l: Layout, addr: Uint32, len: Uint32, halOk: bool) returns (ok: bool, req: SectorRange)
    requires l.sectorSize > 0
    ensures req == F4EraseRange(l, addr, len)
    ensures ok == halOk
  {
    var firstSector: Uint32;
    var lastSector: Uint32;
    if addr < BANK2_ADDR {
      firstSector := Wrap32(Page(l, addr) + 4);
      lastSector := Wrap32(Page(l, Wrap32(addr + len - 1)) + 4);
    } else {
      firstSector := Wrap32(Page(l, addr) + 8);
      lastSector := Wrap32(Page(l, Wrap32(addr + len - 1)) + 8);
    }
    req := SectorRange(firstSector, Wrap32(lastSector - firstSector + 1));
    ok := halOk;
  }

  /** The blank check after an erase: whether every byte of the range reads
      as the erased value. The source only raises its debug assertion on a
      non-blank byte; the return code does not depend on it. */
  method BlankCheck(addr: nat, len: nat, mem: nat -> U8) returns (blank: bool)
    ensures blank <==> forall a :: addr <= a < addr + len ==> mem(a) == 0xFF
  {
    blank := true;
    var i := 0;
    while i < len
      invariant 0 <= i <= len
      invariant blank <==> forall a :: addr <= a < addr + i ==> mem(a) == 0xFF
    {
      if mem(addr + i) != 0xFF {
        blank := false;
      }
      i := i + 1;
    }
  }

  /** flash_area_erase: -1 on another device or a misaligned request, -1 when
      the HAL erase fails, otherwise 0. The erase is not bounded by the area
      size. `mem` is the flash content after the erase. */
  method Erase(l: Layout, fa: FlashArea, off: Uint32, len: Uint32, halOk: bool, mem: nat -> U8)
    returns (rc: int, req: Option<SectorRange>, blank: bool)
    requires l.sectorSize > 0
    ensures rc == 0 || rc == -1
    ensures req.Some? <==> fa.deviceId == l.deviceId && SectorAligned(l, off, len)
    ensures req.Some? ==> req.value == F4EraseRange(l, Wrap32(fa.off + off), len)
    ensures rc == 0 <==> req.Some? && halOk
    ensures rc == 0 ==> (blank <==> forall a :: Wrap32(fa.off + off) <= a < Wrap32(fa.off + off) + len ==> mem(a) == ErasedVal(fa))
  {
    blank := false;
    if fa.deviceId != l.deviceId {
      return -1, None, blank;
    }
    if len % l.sectorSize != 0 || off % l.sectorSize != 0 {
      return -1, None, blank;
    }
    var addr := Wrap32(fa.off + off);
    var ok, r := FlashErase(l, addr, len, halOk);
    req := Some(r);
    if !ok {
      return -1, req, blank;
    }
    blank := BlankCheck(addr, len, mem);
    rc := 0;
  }

  // ---------------------------------------------------------------------------
  // Sectors
  // ---------------------------------------------------------------------------

  /** ⌈n / d⌉. */
  function CeilDiv(n: nat, d: nat): nat
    requires d > 0
  {
    (n + d - 1) / d
  }

  /** ⌈n / d⌉ is the least c with c * d >= n. */
  lemma CeilDivUnique(n: nat, d: nat, c: nat)
    requires d > 0 && c * d >= n && (c == 0 || (c - 1) * d < n)
    ensures c == CeilDiv(n, d)
  {
    if c == 0 {
      assert n == 0;
      DivUnique(n + d - 1, d, 0, d - 1);
    } else {
      var r := n + d - 1 - c * d;
      assert (c - 1) * d == c * d - d;
      assert 0 <= r < d;
      DivUnique(n + d - 1, d, c, r);
    }
  }

  /** Every offset of the area falls in exactly the sector with index
      off / S, and that index is among the enumerated sectors. */
  lemma SectorsCover(size: nat, s: nat, x: nat)
    requires s > 0 && x < size
    ensures x / s < CeilDiv(size, s)
    ensures (x / s) * s <= x < (x / s) * s + s
    ensures forall i :: 0 <= i < CeilDiv(size, s) && i * s <= x < i * s + s ==> i == x / s
  {
    var q := x / s;
    assert x == q * s + x % s;
    var c := CeilDiv(size, s);
    assert size + s - 1 == c * s + (size + s - 1) % s;
    forall i | 0 <= i < c && i * s <= x < i * s + s
      ensures i == q
    {
      DivUnique(x, s, i, x - i * s);
    }
  }

  /** The loop of flash_area_get_sectors: sector i at offset i * s, for
      every offset below `size`. */
  method FillSectors(size: nat, s: nat, sectors: array<Sector>) returns (count: nat)
    requires s > 0 && sectors.Length >= CeilDiv(size, s)
    modifies sectors
    ensures count == CeilDiv(size, s)
    ensures forall i :: 0 <= i < count ==> sectors[i] == Sector(i * s, s)
    ensures forall i :: count <= i < sectors.Length ==> sectors[i] == old(sectors[i])
  {
    count := 0;
    var off := 0;
    while off < size
      invariant off == count * s
      invariant count == 0 || (count - 1) * s < size
      invariant count <= CeilDiv(size, s)
      invariant forall i :: 0 <= i < count ==> sectors[i] == Sector(i * s, s)
      invariant forall i :: count <= i < sectors.Length ==> sectors[i] == old(sectors[i])
    {
      NextSectorFits(size, s, count);
      sectors[count] := Sector(off, s);
      count := count + 1;
      off := off + s;
    }
    CeilDivUnique(size, s, count);
  }

  /** A sector starting below the end of the area is one of the ⌈size/s⌉. */
  lemma NextSectorFits(size: nat, s: nat, count: nat)
    requires s > 0 && count * s < size
    ensures count < CeilDiv(size, s)
  {
    SectorsCover(size, s, count * s);
    DivUnique(count * s, s, count, 0);
  }

  /** flash_area_get_sectors: sector i starts at i * S and is S long, for
      ⌈fa_size / S⌉ sectors. The area ID is converted to uint8 by the lookup,
      whose result the source dereferences without a NULL check. */
  method GetSectors(l: Layout, faId: int, sectors: array<Sector>) returns (rc: int, count: nat)
    requires l.sectorSize > 0
    requires Lookup(Areas(l), Wrap8(faId)).Some?
    requires sectors.Length >= CeilDiv(Lookup(Areas(l), Wrap8(faId)).value.size, l.sectorSize)
    modifies sectors
    ensures rc == 0
    ensures count == CeilDiv(Lookup(Areas(l), Wrap8(faId)).value.size, l.sectorSize)
    ensures forall i :: 0 <= i < count ==> sectors[i] == Sector(i * l.sectorSize, l.sectorSize)
    ensures forall i :: count <= i < sectors.Length ==> sectors[i] == old(sectors[i])
  {
    count := 0;
    var fa := LookupArea(Areas(l), Wrap8(faId));
    if fa.value.deviceId != l.deviceId {
      return -1, count;
    }
    count := FillSectors(fa.value.size, l.sectorSize, sectors);
    rc := 0;
  }

  // ---------------------------------------------------------------------------
  // Slots
  // ---------------------------------------------------------------------------

  /** FLASH_AREA_IMAGE_PRIMARY(image) and FLASH_AREA_IMAGE_SECONDARY(image),
      evaluated for one image. FLASH_AREA_IMAGE_SCRATCH does not depend on
      the image and is passed on its own. */
  datatype SlotIds = SlotIds(primary: int, secondary: int)

  /** flash_area_id_from_multi_image_slot: slot 0 and 1 to the primary and
      secondary area of the image, slot 2 to the scratch area shared by all
      images; -1 for any other slot. */
  function IdFromMultiImageSlot(imageIds: int -> SlotIds, scratch: int, imageIndex: int, slot: int): int
  {
    if slot == 0 then imageIds(imageIndex).primary
    else if slot == 1 then imageIds(imageIndex).secondary
    else if slot == 2 then scratch
    else -1
  }

  /** flash_area_id_from_image_slot: the slot of image 0. */
  function IdFromImageSlot(imageIds: int -> SlotIds, scratch: int, slot: int): int
  {
    IdFromMultiImageSlot(imageIds, scratch, 0, slot)
  }

  /** With distinct, non-negative area IDs for an image, a slot is mapped iff
      it is 0, 1 or 2, and different slots name different areas; the scratch
      slot names the same area whatever the image. */
  lemma SlotMapInjective(imageIds: int -> SlotIds, scratch: int, imageIndex: int, otherImage: int, s1: int, s2: int)
    requires var ids := imageIds(imageIndex);
      ids.primary >= 0 && ids.secondary >= 0 && scratch >= 0 &&
      ids.primary != ids.secondary && ids.primary != scratch && ids.secondary != scratch
    ensures IdFromMultiImageSlot(imageIds, scratch, imageIndex, s1) != -1 <==> 0 <= s1 <= 2
    ensures (IdFromMultiImageSlot(imageIds, scratch, imageIndex, s1) != -1 &&
      IdFromMultiImageSlot(imageIds, scratch, imageIndex, s1) == IdFromMultiImageSlot(imageIds, scratch, imageIndex, s2)) ==> s1 == s2
    ensures IdFromMultiImageSlot(imageIds, scratch, imageIndex, 2) == IdFromMultiImageSlot(imageIds, scratch, otherImage, 2)
    ensures IdFromImageSlot(imageIds, scratch, s1) == IdFromMultiImageSlot(imageIds, scratch, 0, s1)
  {
  }

  /** flash_area_id_to_multi_image_slot is not implemented: it returns -1
      for every argument (after a debug assertion). */
  function IdToMultiImageSlot(imageIndex: int, areaId: int): (r: int)
    ensures r == -1
  {
    -1
  }
}
