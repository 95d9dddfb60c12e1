/** File-system front end (alxFs.c): the mount state, the translation of
    `fopen`-style mode strings into FatFs and littlefs open flags, the
    delimiter-bounded string read, the chunked read loop and the hex dump
    of the trace callback. The file-system libraries are oracles: mount,
    unmount, format, open, size and close take their result as a parameter,
    and a file is its contents, a read position and the offset from which
    the medium fails. */
module AlxFs {
  import opened AlxCommon

  /** AlxFs_Config: which library on which medium. */
  datatype Config = FatfsMmc | FatfsUsb | LfsFlashInt | LfsMmc

  predicate IsFatfs(c: Config)
  {
    c == FatfsMmc || c == FatfsUsb
  }

  // ---------------------------------------------------------------------------
  // Open modes
  // ---------------------------------------------------------------------------

  /** What an `fopen` mode asks for. */
  datatype Intent = Intent(read: bool, write: bool, create: bool, truncate: bool, append: bool)

  /** The six mode strings AlxFs_File_Open accepts. */
  function ParseMode(mode: string): (r: Option<Intent>)
  {
    if mode == "r" then Some(Intent(true, false, false, false, false))
    else if mode == "w" then Some(Intent(false, true, true, true, false))
    else if mode == "a" then Some(Intent(false, true, true, false, true))
    else if mode == "r+" then Some(Intent(true, true, false, false, false))
    else if mode == "w+" then Some(Intent(true, true, true, true, false))
    else if mode == "a+" then Some(Intent(true, true, true, false, true))
    else None
  }

  /** The C library's meaning of a mode (ISO C, section 7.21.5.3): `r` reads
      an existing file, `w` truncates or creates, `a` appends or creates, and
      `+` adds the other direction. */
  lemma ParseModeMeaning(mode: string)
    ensures ParseMode(mode).Some? <==> mode in {"r", "w", "a", "r+", "w+", "a+"}
    ensures ParseMode(mode).Some? ==>
      var i := ParseMode(mode).value;
      (i.read <==> mode[0] == 'r' || |mode| == 2) &&
      (i.write <==> mode[0] != 'r' || |mode| == 2) &&
      (i.create <==> mode[0] != 'r') &&
      (i.truncate <==> mode[0] == 'w') &&
      (i.append <==> mode[0] == 'a') &&
      (i.read || i.write)
  {
  }

  /** Different accepted strings ask for different things. */
  lemma ParseModeInjective(m1: string, m2: string)
    requires ParseMode(m1).Some? && ParseMode(m1) == ParseMode(m2)
    ensures m1 == m2
  {
  }

  /** littlefs access modes (LFS_O_RDONLY, LFS_O_WRONLY, LFS_O_RDWR). */
  datatype LfsAccess = RdOnly | WrOnly | RdWr

  /** A littlefs open mode: the access mode and the LFS_O_CREAT, LFS_O_TRUNC
      and LFS_O_APPEND flags. */
  datatype LfsMode = LfsMode(access: LfsAccess, creat: bool, trunc: bool, append: bool)

  /** A FatFs open mode: FA_READ, FA_WRITE, FA_CREATE_ALWAYS, FA_OPEN_APPEND. */
  datatype FatfsMode = FatfsMode(read: bool, write: bool, createAlways: bool, openAppend: bool)

  /** The littlefs branch of AlxFs_File_Open. */
  function LfsModeOf(mode: string): (r: Option<LfsMode>)
    ensures r.Some? <==> ParseMode(mode).Some?
  {
    if mode == "r" then Some(LfsMode(RdOnly, false, false, false))
    else if mode == "w" then Some(LfsMode(WrOnly, true, true, false))
    else if mode == "a" then Some(LfsMode(WrOnly, true, false, true))
    else if mode == "r+" then Some(LfsMode(RdWr, false, false, false))
    else if mode == "w+" then Some(LfsMode(RdWr, true, true, false))
    else if mode == "a+" then Some(LfsMode(RdWr, true, false, true))
    else None
  }

  /** The FatFs branch of AlxFs_File_Open. */
  function FatfsModeOf(mode: string): (r: Option<FatfsMode>)
    ensures r.Some? <==> ParseMode(mode).Some?
  {
    if mode == "r" then Some(FatfsMode(true, false, false, false))
    else if mode == "w" then Some(FatfsMode(false, true, true, false))
    else if mode == "a" then Some(FatfsMode(false, true, false, true))
    else if mode == "r+" then Some(FatfsMode(true, true, false, false))
    else if mode == "w+" then Some(FatfsMode(true, true, true, false))
    else if mode == "a+" then Some(FatfsMode(true, true, false, true))
    else None
  }

  /** Both libraries get what the mode asks for: littlefs's access mode is the
      read/write pair, CREAT/TRUNC/APPEND are create/truncate/append, and
      FatFs's CREATE_ALWAYS is create-and-truncate while OPEN_APPEND is append
      (which also creates). */
  lemma ModesAgree(mode: string)
    requires ParseMode(mode).Some?
    ensures var i := ParseMode(mode).value;
      var l := LfsModeOf(mode).value;
      var f := FatfsModeOf(mode).value;
      (l.access == RdOnly <==> i.read && !i.write) && (l.access == WrOnly <==> !i.read && i.write) &&
      (l.access == RdWr <==> i.read && i.write) &&
      l.creat == i.create && l.trunc == i.truncate && l.append == i.append &&
      f.read == i.read && f.write == i.write &&
      f.createAlways == (i.create && i.truncate) && f.openAppend == i.append &&
      (i.create <==> f.createAlways || f.openAppend)
  {
  }

  /** The mode handed to the library of the configuration. */
  datatype OpenMode = Fatfs(f: FatfsMode) | Lfs(l: LfsMode)

  // ---------------------------------------------------------------------------
  // Files
  // ---------------------------------------------------------------------------

  /** An open file: its contents, the read position, and the offset from
      which every read fails (a medium error). */
  class File {
    var data: seq<U8>
    var pos: nat
    const failFrom: nat

    predicate Valid()
      reads this
    {
      pos <= |data|
    }

    constructor (data: seq<U8>, failFrom: nat)
      ensures Valid() && this.data == data && pos == 0 && this.failFrom == failFrom
    {
      this.data := data;
      pos := 0;
      this.failFrom := failFrom;
    }

    /** AlxFs_File_Read: up to `len` bytes from the read position; an empty
        result on success means end of file. */
    method Read(len: nat) returns (status: Status, chunk: seq<U8>)
      requires Valid()
      modifies this
      ensures Valid() && data == old(data)
      ensures status == Ok || status == Err
      ensures status == Err <==> old(pos) >= failFrom
      ensures status == Err ==> chunk == [] && pos == old(pos)
      ensures status == Ok ==> |chunk| == Min(len, |data| - old(pos)) && pos == old(pos) + |chunk|
      ensures status == Ok ==> chunk == data[old(pos)..pos]
    {
      if pos >= failFrom {
        return Err, [];
      }
      var n := Min(len, |data| - pos);
      chunk := data[pos..pos + n];
      pos := pos + n;
      status := Ok;
    }
  }

  function Min(a: nat, b: nat): nat
  {
    if a <= b then a else b
  }

  // ---------------------------------------------------------------------------
  // Chunks and hex lines
  // ---------------------------------------------------------------------------

  /** The chunks a read loop with buffer length `n` takes a file in: full
      chunks and a last one of at most `n` bytes (empty for an empty file). */
  function Chunks(d: seq<U8>, n: nat): (cs: seq<seq<U8>>)
    requires n >= 1
    ensures |cs| >= 1
    decreases |d|
  {
    if |d| <= n then [d] else [d[..n]] + Chunks(d[n..], n)
  }

  /** The chunks are the file, in order; all but the last are full and the
      last is not longer than the buffer. */
  lemma {:induction false} ChunksProperties(d: seq<U8>, n: nat)
    requires n >= 1
    ensures Flatten(Chunks(d, n)) == d
    ensures forall k :: 0 <= k < |Chunks(d, n)| - 1 ==> |Chunks(d, n)[k]| == n
    ensures |Chunks(d, n)[|Chunks(d, n)| - 1]| <= n
    decreases |d|
  {
    if |d| > n {
      var rest := Chunks(d[n..], n);
      ChunksProperties(d[n..], n);
      FlattenCons(d[..n], rest);
      assert d[..n] + d[n..] == d;
    }
  }

  lemma {:induction false} FlattenCons(b: seq<U8>, bs: seq<seq<U8>>)
    ensures Flatten([b] + bs) == b + Flatten(bs)
    decreases |bs|
  {
    if bs != [] {
      var last := bs[|bs| - 1];
      var init := bs[..|bs| - 1];
      assert [b] + bs == ([b] + init) + [last];
      FlattenSnoc([b] + init, last);
      FlattenCons(b, init);
      assert bs == init + [last];
      FlattenSnoc(init, last);
    }
  }

  /** Bytes per line of the binary trace. */
  const TRACE_LINE_LEN: nat := 64

  /** The lines of the binary trace: 64 bytes each and a last, shorter one. */
  function Lines(d: seq<U8>): (ls: seq<seq<U8>>)
    decreases |d|
  {
    if d == [] then [] else if |d| <= TRACE_LINE_LEN then [d] else [d[..TRACE_LINE_LEN]] + Lines(d[TRACE_LINE_LEN..])
  }

  /** The lines are the chunk, in order; each holds 1 to 64 bytes and all
      but the last hold 64, so there are ⌈n/64⌉ of them. */
  lemma {:induction false} LinesProperties(d: seq<U8>)
    ensures Flatten(Lines(d)) == d
    ensures |Lines(d)| == (|d| + TRACE_LINE_LEN - 1) / TRACE_LINE_LEN
    ensures forall k :: 0 <= k < |Lines(d)| ==> 1 <= |Lines(d)[k]| <= TRACE_LINE_LEN
    ensures forall k :: 0 <= k < |Lines(d)| - 1 ==> |Lines(d)[k]| == TRACE_LINE_LEN
    decreases |d|
  {
    if |d| > TRACE_LINE_LEN {
      LinesProperties(d[TRACE_LINE_LEN..]);
      FlattenCons(d[..TRACE_LINE_LEN], Lines(d[TRACE_LINE_LEN..]));
      assert d[..TRACE_LINE_LEN] + d[TRACE_LINE_LEN..] == d;
    } else if d != [] {
      assert Flatten([d]) == Flatten([]) + d by { FlattenSnoc([], d); }
    }
  }

  /** AlxFs_File_Trace_ChunkRead_Callback in binary mode: the outer loop
      steps `i` by 64 and the line length is 64 or what is left. */
  method TraceLines(chunk: seq<U8>) returns (lines: seq<seq<U8>>)
    ensures lines == Lines(chunk)
  {
    lines := [];
    var i := 0;
    while i < |chunk|
      invariant 0 <= i <= |chunk|
      invariant lines + Lines(chunk[i..]) == Lines(chunk)
      decreases |chunk| - i
    {
      var lineLen := if |chunk| - i > TRACE_LINE_LEN then TRACE_LINE_LEN else |chunk| - i;
      LinesStep(chunk, i, lineLen);
      lines := lines + [chunk[i..i + lineLen]];
      i := i + lineLen;
    }
    assert chunk[|chunk|..] == [];
  }

  lemma LinesStep(d: seq<U8>, i: nat, lineLen: nat)
    requires i < |d| && lineLen == (if |d| - i > TRACE_LINE_LEN then TRACE_LINE_LEN else |d| - i)
    ensures Lines(d[i..]) == [d[i..i + lineLen]] + Lines(d[i + lineLen..])
  {
    if |d| - i > TRACE_LINE_LEN {
      assert d[i..][TRACE_LINE_LEN..] == d[i + TRACE_LINE_LEN..];
      assert d[i..][..TRACE_LINE_LEN] == d[i..i + TRACE_LINE_LEN];
    } else {
      assert d[i..] == d[i..i + lineLen];
      assert d[i + lineLen..] == [];
    }
  }

  // ---------------------------------------------------------------------------
  // The file system
  // ---------------------------------------------------------------------------

  class Fs {
    const config: Config
    var isMounted: bool
    var wasCtorCalled: bool

    constructor (config: Config)
      ensures this.config == config && !isMounted && wasCtorCalled
    {
      this.config := config;
      isMounted := false;
      wasCtorCalled := true;
    }

    /** AlxFs_Mount; `libOk` is whether f_mount or lfs_mount returned 0. */
    method Mount(libOk: bool) returns (status: Status)
      requires wasCtorCalled
      modifies this
      ensures wasCtorCalled
      ensures status == (if libOk then Ok else Err)
      ensures isMounted == (libOk || old(isMounted))
    {
      if !libOk {
        return Err;
      }
      isMounted := true;
      return Ok;
    }

    /** AlxFs_UnMount; `libOk` is whether f_unmount or lfs_unmount returned 0. */
    method UnMount(libOk: bool) returns (status: Status)
      requires wasCtorCalled
      modifies this
      ensures wasCtorCalled
      ensures status == (if libOk then Ok else Err)
      ensures isMounted == (!libOk && old(isMounted))
    {
      if !libOk {
        return Err;
      }
      isMounted := false;
      return Ok;
    }

    /** AlxFs_Format; `libOk` is whether f_mkfs or lfs_format returned 0. */
    method Format(libOk: bool) returns (status: Status)
      requires wasCtorCalled
      ensures status == (if libOk then Ok else Err)
    {
      if !libOk {
        return Err;
      }
      return Ok;
    }

    /** AlxFs_MountFormat: mount, and only if that fails, format and mount again. */
    method MountFormat(mountOk: bool, formatOk: bool, remountOk: bool) returns (status: Status, ghost formatted: bool)
      requires wasCtorCalled
      modifies this
      ensures wasCtorCalled
      ensures formatted <==> !mountOk
      ensures status == Ok <==> mountOk || (formatOk && remountOk)
      ensures status == Ok || status == Err
      ensures isMounted == (old(isMounted) || mountOk || (formatOk && remountOk))
    {
      formatted := false;
      status := Mount(mountOk);
      if status != Ok {
        formatted := true;
        status := Format(formatOk);
        if status != Ok {
          return;
        }
        status := Mount(remountOk);
        if status != Ok {
          return;
        }
      }
      return Ok, formatted;
    }

    /** AlxFs_File_Open: the mode string becomes the library's open mode;
        `libOk` is whether f_open or lfs_file_open returned 0. A mode other
        than the six accepted ones fails the module's assert. */
    method Open(mode: string, libOk: bool) returns (status: Status, openMode: OpenMode)
      requires wasCtorCalled && isMounted
      requires ParseMode(mode).Some?
      ensures status == (if libOk then Ok else Err)
      ensures IsFatfs(config) ==> openMode == Fatfs(FatfsModeOf(mode).value)
      ensures !IsFatfs(config) ==> openMode == Lfs(LfsModeOf(mode).value)
    {
      if IsFatfs(config) {
        openMode := Fatfs(FatfsModeOf(mode).value);
      } else {
        openMode := Lfs(LfsModeOf(mode).value);
      }
      status := if libOk then Ok else Err;
    }

    /** AlxFs_File_ReadStrUntil: read one character at a time into `str`
        until the delimiter (kept), end of file, a read error or `len - 1`
        characters, then terminate the string with NUL. */
    method ReadStrUntil(file: File, str: array<U8>, delim: U8, len: nat) returns (status: Status, lenActual: nat)
      requires wasCtorCalled && isMounted
      requires file.Valid()
      requires 1 <= len <= str.Length
      modifies str, file
      ensures file.Valid() && file.data == old(file.data)
      ensures status == Ok || status == FsErrNoDelim || status == Err
      ensures lenActual <= len - 1
      ensures file.pos == old(file.pos) + lenActual
      ensures str[..lenActual] == file.data[old(file.pos)..file.pos]
      ensures str[lenActual] == 0
      ensures forall j :: lenActual < j < str.Length ==> str[j] == old(str[j])
      ensures status == Ok <==> lenActual >= 1 && str[lenActual - 1] == delim
      ensures forall j :: 0 <= j < lenActual - 1 ==> str[j] != delim
      ensures status == FsErrNoDelim ==> lenActual == len - 1 || file.pos == |file.data|
      ensures status == Err ==> file.pos >= file.failFrom
    {
      status := FsErrNoDelim;
      lenActual := 0;
      ghost var pos0 := file.pos;
      while lenActual < len - 1
        invariant file.Valid() && file.data == old(file.data)
        invariant 0 <= lenActual <= len - 1
        invariant file.pos == pos0 + lenActual
        invariant str[..lenActual] == file.data[pos0..file.pos]
        invariant forall j :: lenActual <= j < str.Length ==> str[j] == old(str[j])
        invariant forall j :: 0 <= j < lenActual ==> str[j] != delim
      {
        var readStatus, ch := file.Read(1);
        if readStatus == Ok && |ch| == 0 {
          break;
        } else if readStatus != Ok {
          status := Err;
          break;
        }
        StoreChar(str, lenActual, ch[0], file.data, pos0);
        if ch[0] == delim {
          lenActual := lenActual + 1;
          status := Ok;
          break;
        }
        lenActual := lenActual + 1;
      }
      Terminate(str, lenActual);
    }

    /** `str[_lenActual] = 0`: the terminator after the characters read. */
    static method Terminate(str: array<U8>, k: nat)
      requires k < str.Length
      modifies str
      ensures str[..k] == old(str[..k]) && str[k] == 0
      ensures forall j :: 0 <= j < str.Length && j != k ==> str[j] == old(str[j])
    {
      str[k] := 0;
    }

    /** `str[_lenActual] = ch` for the character just read. */
    static method StoreChar(str: array<U8>, k: nat, c: U8, ghost data: seq<U8>, ghost pos0: nat)
      requires k < str.Length && pos0 + k < |data| && data[pos0 + k] == c
      requires str[..k] == data[pos0..pos0 + k]
      modifies str
      ensures str[..k + 1] == data[pos0..pos0 + k + 1]
      ensures str[..k] == old(str[..k]) && str[k] == c
      ensures forall j :: 0 <= j < str.Length && j != k ==> str[j] == old(str[j])
    {
      str[k] := c;
      assert data[pos0..pos0 + k + 1] == data[pos0..pos0 + k] + [c];
      assert str[..k + 1] == str[..k] + [c];
    }

    /** AlxFs_File_ReadInChunks: open, take the size, then read chunks of
        `chunkLen` bytes and hand each to `callback` until the bytes read
        reach the size; any failure closes the file and returns its status.
        `file` is the file at `path`, just opened for reading. */
    method ReadInChunks(file: File, chunkLen: nat, callback: seq<U8> -> Status, openOk: bool, sizeOk: bool, closeOk: bool)
      returns (status: Status, readLen: nat, ghost chunks: seq<seq<U8>>)
      requires wasCtorCalled && isMounted
      requires file.Valid() && file.pos == 0
      requires chunkLen >= 1
      modifies file
      ensures file.data == old(file.data)
      ensures chunks <= Chunks(file.data, chunkLen)
      ensures forall k :: 0 <= k < |chunks| - 1 ==> callback(chunks[k]) == Ok
      ensures status == Ok ==> openOk && sizeOk && closeOk
      ensures status == Ok ==> chunks == Chunks(file.data, chunkLen) && readLen == |file.data|
      ensures status == Ok ==> forall k :: 0 <= k < |chunks| ==> callback(chunks[k]) == Ok
      ensures !openOk || !sizeOk ==> status == Err && chunks == []
      ensures status != Ok ==> status == Err || (chunks != [] && status == callback(chunks[|chunks| - 1]))
    {
      chunks := [];
      readLen := 0;
      if !openOk || !sizeOk {
        return Err, 0, [];
      }
      status, readLen, chunks := ChunkLoop(file, chunkLen, callback);
      if status != Ok {
        return;
      }
      if !closeOk {
        return Err, readLen, chunks;
      }
    }

    /** The `while (true)` loop of AlxFs_File_ReadInChunks, from the start of
        the file to the stop at the size or at the first failure. */
    static method ChunkLoop(file: File, chunkLen: nat, callback: seq<U8> -> Status)
      returns (status: Status, readLen: nat, ghost chunks: seq<seq<U8>>)
      requires file.Valid() && file.pos == 0
      requires chunkLen >= 1
      modifies file
      ensures file.data == old(file.data)
      ensures chunks <= Chunks(file.data, chunkLen)
      ensures forall k :: 0 <= k < |chunks| - 1 ==> callback(chunks[k]) == Ok
      ensures status == Ok ==> chunks == Chunks(file.data, chunkLen) && readLen == |file.data|
      ensures status == Ok ==> forall k :: 0 <= k < |chunks| ==> callback(chunks[k]) == Ok
      ensures status != Ok ==> status == Err || (chunks != [] && status == callback(chunks[|chunks| - 1]))
    {
      chunks := [];
      var fileSize := |file.data|;
      var fileSizeRead := 0;
      readLen := 0;
      status := Ok;
      var done := false;
      while !done
        invariant file.Valid() && file.data == old(file.data)
        invariant fileSizeRead == file.pos
        invariant !done ==> file.pos < fileSize || (file.pos == 0 && fileSize == 0)
        invariant !done ==> chunks + Chunks(file.data[file.pos..], chunkLen) == Chunks(file.data, chunkLen)
        invariant done ==> chunks == Chunks(file.data, chunkLen) && file.pos == fileSize
        invariant forall k :: 0 <= k < |chunks| ==> callback(chunks[k]) == Ok
        invariant status == Ok
        decreases fileSize - file.pos, if done then 0 else 1
      {
        var readStatus: Status, chunk: seq<U8>;
        readStatus, chunk, chunks := ChunkTurn(file, chunkLen, chunks);
        if readStatus != Ok {
          return readStatus, readLen, chunks;
        }
        status := callback(chunk);
        if status != Ok {
          return status, readLen, chunks;
        }
        fileSizeRead := fileSizeRead + |chunk|;
        if fileSizeRead >= fileSize {
          done := true;
        }
      }
      readLen := fileSizeRead;
    }

    /** The read of one turn of the chunk loop: on success the chunk is the
        first of the chunks of what is left of the file. */
    static method ChunkTurn(file: File, chunkLen: nat, ghost chunks: seq<seq<U8>>)
      returns (status: Status, chunk: seq<U8>, ghost chunks': seq<seq<U8>>)
      requires file.Valid() && chunkLen >= 1
      requires file.pos < |file.data| || (file.pos == 0 && |file.data| == 0)
      requires chunks + Chunks(file.data[file.pos..], chunkLen) == Chunks(file.data, chunkLen)
      modifies file
      ensures file.Valid() && file.data == old(file.data)
      ensures chunks' <= Chunks(file.data, chunkLen)
      ensures status == Ok || status == Err
      ensures status == Err ==> chunks' == chunks
      ensures status == Ok ==> chunks' == chunks + [chunk] && file.pos == old(file.pos) + |chunk|
      ensures status == Ok && file.pos < |file.data| ==>
        chunks' + Chunks(file.data[file.pos..], chunkLen) == Chunks(file.data, chunkLen) && |chunk| >= 1
      ensures status == Ok && file.pos == |file.data| ==> chunks' == Chunks(file.data, chunkLen)
    {
      ghost var before := file.pos;
      ghost var rest := Chunks(file.data[before..], chunkLen);
      status, chunk := file.Read(chunkLen);
      if status != Ok {
        chunks' := chunks;
        assert chunks <= chunks + rest;
        return;
      }
      ChunkStep(file.data, before, chunkLen);
      ghost var next := if |file.data| - before <= chunkLen then [] else Chunks(file.data[before + chunkLen..], chunkLen);
      assert rest == [chunk] + next;
      chunks' := chunks + [chunk];
      assert chunks' + next == Chunks(file.data, chunkLen);
      assert chunks' <= chunks' + next;
    }

    /** One turn of the chunk loop: the chunk read is the first of the chunks
        of what is left. */
    static lemma ChunkStep(d: seq<U8>, p: nat, n: nat)
      requires n >= 1 && p <= |d|
      ensures Chunks(d[p..], n) == [d[p..p + Min(n, |d| - p)]] + (if |d| - p <= n then [] else Chunks(d[p + n..], n))
    {
      if |d| - p > n {
        assert d[p..][n..] == d[p + n..];
        assert d[p..][..n] == d[p..p + n];
      } else {
        assert d[p..] == d[p..p + Min(n, |d| - p)];
      }
    }
  }
}
