/**
 * The SD card front-end (sd_card.c): a static "initialised" flag that
 * gates every file operation, file names checked against the FAT long
 * file name limit and placed under the mount point, the `*size`
 * in/out parameter of reads and writes, the directory listing loop and
 * the bring-up with its error mapping.
 *
 * The disk and file system calls (`disk_access_*`, `fs_*`) are not part
 * of this model: each call is recorded in `calls`, and its result is a
 * parameter.  A directory is the list of `fs_readdir` results it yields;
 * past the end of that list a read returns the empty name that marks the
 * end of the directory.  File names are strings without a NUL, so
 * `strlen` is their length.
 */
module SdCard {
  import opened Wrappers
  import opened Errno

  type byte = bv8

  /** The prefix every file name is appended to. */
  const SD_ROOT_PATH: string := "/SD:/"

  /** The mount point, and the directory listed when no path is given. */
  const SD_ROOT_DIR: string := "/SD:"

  /** The path buffer holds this many characters and a NUL. */
  const PATH_MAX_LEN: nat := 260

  /** `CONFIG_FS_FATFS_MAX_LFN`: the longest file name accepted. */
  const MAX_LFN: nat := 255

  /** How `fs_open` is asked to open the file. */
  datatype OpenMode = CreateWriteAppend | ReadOnly

  /** The disk and file system calls, as they are made. */
  datatype FsCall =
    | OpenDir(path: string)
    | ReadDir
    | CloseDir
    | Open(path: string, mode: OpenMode)
    | SeekEnd
    | Write(data: seq<byte>)
    | Read(len: nat)
    | Close
    | DiskInit
    | GetSectorCount
    | GetSectorSize
    | Mount(point: string)

  /** One `fs_readdir` result: its return code and the entry it filled in. */
  datatype DirRead = DirRead(ret: int, name: string, isDir: bool)

  /** One line of the listing: `[DIR ]` or `[FILE]` and the entry's name. */
  datatype Listed = Listed(isDir: bool, name: string)

  /** The path a file operation opens: `strcat` of the name onto "/SD:/". */
  function AbsPath(name: string): (p: string)
    ensures |p| == |SD_ROOT_PATH| + |name|
    ensures p[..|SD_ROOT_PATH|] == SD_ROOT_PATH && p[|SD_ROOT_PATH|..] == name
  {
    SD_ROOT_PATH + name
  }

  /** Every name that passes the length check fits the path buffer with its NUL. */
  lemma AbsPathFits(name: string)
    requires |name| <= MAX_LFN
    ensures |AbsPath(name)| + 1 <= PATH_MAX_LEN + 1
  {
  }

  /** Different names open different paths. */
  lemma AbsPathInjective(a: string, b: string)
    requires AbsPath(a) == AbsPath(b)
    ensures a == b
  {
    assert a == AbsPath(a)[|SD_ROOT_PATH|..];
  }

  // ---------------------------------------------------------------------
  // sd_card_list_files

  /** What the `readdir` loop produced: its code, the lines listed and the number of reads. */
  datatype Scan = Scan(ret: int, listed: seq<Listed>, readCount: nat)

  /** The entry `fs_readdir` yields at position `i`: past the end, the empty name. */
  function EntryAt(entries: seq<DirRead>, i: nat): DirRead
  {
    if i < |entries| then entries[i] else DirRead(0, "", false)
  }

  /** The `readdir` loop from position `i`: stop at an error or at the empty name. */
  function ScanFrom(entries: seq<DirRead>, i: nat): (r: Scan)
    ensures r.readCount >= 1
    decreases |entries| - i
  {
    var e := EntryAt(entries, i);
    if e.ret != 0 then Scan(e.ret, [], 1)
    else if e.name == "" then Scan(0, [], 1)
    else
      var rest := ScanFrom(entries, i + 1);
      Scan(rest.ret, [Listed(e.isDir, e.name)] + rest.listed, rest.readCount + 1)
  }

  /** Whether the loop stops at the entry at position `i`. */
  predicate Stops(e: DirRead)
  {
    e.ret != 0 || e.name == ""
  }

  /** The listing lines of a run of entries. */
  function Lines(es: seq<DirRead>): (r: seq<Listed>)
    ensures |r| == |es|
  {
    if es == [] then [] else [Listed(es[0].isDir, es[0].name)] + Lines(es[1..])
  }

  /**
   * The loop reads up to and including the first entry `k` that is an
   * error or has an empty name (the end of the directory at the latest),
   * lists exactly the entries before it in order, and returns that
   * entry's code: a read error unchanged, 0 at the end.
   */
  lemma {:induction false} ScanStops(entries: seq<DirRead>, i: nat, k: nat)
    requires i <= k <= |entries|
    requires forall j | i <= j < k :: !Stops(entries[j])
    requires Stops(EntryAt(entries, k))
    ensures var r := ScanFrom(entries, i);
      r.ret == EntryAt(entries, k).ret
      && r.listed == Lines(entries[i..k])
      && r.readCount == k - i + 1
    decreases k - i
  {
    if i < k {
      assert !Stops(entries[i]) && EntryAt(entries, i) == entries[i];
      ScanStops(entries, i + 1, k);
      assert entries[i..k][0] == entries[i] && entries[i..k][1..] == entries[i + 1..k];
    } else {
      assert entries[i..k] == [];
    }
  }

  /** The loop always stops: at the first stopping entry, or at the end of the directory. */
  lemma {:induction false} ScanStopsSomewhere(entries: seq<DirRead>, i: nat) returns (k: nat)
    requires i <= |entries|
    ensures i <= k <= |entries|
    ensures forall j | i <= j < k :: !Stops(entries[j])
    ensures Stops(EntryAt(entries, k))
    decreases |entries| - i
  {
    if i == |entries| || Stops(entries[i]) {
      k := i;
    } else {
      k := ScanStopsSomewhere(entries, i + 1);
    }
  }

  /** The calls of a listing, once the directory is open. */
  function ReadDirs(n: nat): (r: seq<FsCall>)
    ensures |r| == n && forall c | c in r :: c == ReadDir
  {
    if n == 0 then [] else [ReadDir] + ReadDirs(n - 1)
  }

  /** What `sd_card_list_files` returns, the calls it makes and the lines it lists. */
  datatype ListOut = ListOut(ret: int, calls: seq<FsCall>, listed: seq<Listed>)

  /** The directory `list_files` opens: the root, or the path under it if its length is accepted. */
  function ListDir(path: Option<string>): Option<string>
  {
    match path
    case None => Some(SD_ROOT_DIR)
    case Some(p) => if |p| > MAX_LFN then None else Some(AbsPath(p))
  }

  /** `sd_card_list_files`. */
  function ListSpec(init: bool, path: Option<string>, openRet: int, entries: seq<DirRead>, closeRet: int): ListOut
  {
    if !init then ListOut(-ENODEV, [], [])
    else if ListDir(path).None? then ListOut(-FR_INVALID_NAME, [], [])
    else
      var openDir := [OpenDir(ListDir(path).value)];
      if openRet != 0 then ListOut(openRet, openDir, [])
      else
        var s := ScanFrom(entries, 0);
        var read := openDir + ReadDirs(s.readCount);
        if s.ret != 0 then ListOut(s.ret, read, s.listed)
        else ListOut(closeRet, read + [CloseDir], s.listed)
  }

  /**
   * `list_files` returns `-ENODEV` without a call unless the card is up,
   * rejects a too-long path with `-FR_INVALID_NAME` before opening
   * anything, and otherwise opens "/SD:" for no path and "/SD:/" + path
   * for a path.
   */
  lemma ListGuards(init: bool, path: Option<string>, openRet: int, entries: seq<DirRead>, closeRet: int)
    ensures var r := ListSpec(init, path, openRet, entries, closeRet);
      (!init ==> r == ListOut(-ENODEV, [], []))
      && (init && path.Some? && |path.value| > MAX_LFN ==> r == ListOut(-FR_INVALID_NAME, [], []))
      && (init && path.None? ==> r.calls[0] == OpenDir(SD_ROOT_DIR))
      && (init && path.Some? && |path.value| <= MAX_LFN ==> r.calls[0] == OpenDir(SD_ROOT_PATH + path.value))
      && (r.calls != [] ==> init)
  {
  }

  /**
   * Once the directory is open, `list_files` lists the entries up to the
   * first stopping one, returns a read error unchanged without closing
   * the directory, and otherwise closes it and returns the close result.
   */
  lemma ListOutcome(init: bool, path: Option<string>, openRet: int, entries: seq<DirRead>, closeRet: int, k: nat)
    requires init && ListDir(path).Some? && openRet == 0
    requires k <= |entries| && Stops(EntryAt(entries, k))
    requires forall j | 0 <= j < k :: !Stops(entries[j])
    ensures var r := ListSpec(init, path, openRet, entries, closeRet);
      r.listed == Lines(entries[..k])
      && |r.calls| >= k + 2 && r.calls[..k + 2] == [OpenDir(ListDir(path).value)] + ReadDirs(k + 1)
      && (EntryAt(entries, k).ret != 0 ==> r.ret == EntryAt(entries, k).ret && |r.calls| == k + 2)
      && (EntryAt(entries, k).ret == 0 ==> r.ret == closeRet && r.calls == [OpenDir(ListDir(path).value)] + ReadDirs(k + 1) + [CloseDir])
  {
    ScanStops(entries, 0, k);
    assert entries[0..k] == entries[..k];
  }

  // ---------------------------------------------------------------------
  // sd_card_write and sd_card_read

  /** The results of the calls of one write. */
  datatype WriteResults = WriteResults(openRet: int, seekRet: int, writeRet: int, closeRet: int)

  /** An operation's code, the new `*size` and the calls made. */
  datatype FileOut = FileOut(ret: int, size: nat, calls: seq<FsCall>)

  /** `sd_card_write`: append `*size` bytes of `data` to the file, creating it if needed. */
  function WriteSpec(init: bool, filename: string, data: seq<byte>, size: nat, r: WriteResults): FileOut
    requires size <= |data|
  {
    if !init then FileOut(-ENODEV, size, [])
    else if |filename| > MAX_LFN then FileOut(-FR_INVALID_NAME, size, [])
    else
      var c0 := [Open(AbsPath(filename), CreateWriteAppend)];
      if r.openRet != 0 then FileOut(r.openRet, size, c0)
      else
        var c1 := c0 + [SeekEnd];
        if r.seekRet != 0 then FileOut(r.seekRet, size, c1)
        else
          var c2 := c1 + [Write(data[..size])];
          if r.writeRet < 0 then FileOut(r.writeRet, size, c2)
          else
            var c3 := c2 + [Close];
            FileOut(r.closeRet, r.writeRet, c3)
  }

  /**
   * A write makes no call unless the card is up and the name is accepted;
   * it opens "/SD:/" + name for appending, seeks to the end and writes the
   * first `*size` bytes.  A write error is returned with `*size` kept and
   * the file left open; otherwise `*size` becomes the count written, even
   * when the close then fails.
   */
  lemma WriteOutcome(init: bool, filename: string, data: seq<byte>, size: nat, r: WriteResults)
    requires size <= |data|
    ensures var o := WriteSpec(init, filename, data, size, r);
      (!init ==> o == FileOut(-ENODEV, size, []))
      && (init && |filename| > MAX_LFN ==> o == FileOut(-FR_INVALID_NAME, size, []))
      && (o.calls != [] ==> init && |filename| <= MAX_LFN && o.calls[0] == Open(SD_ROOT_PATH + filename, CreateWriteAppend))
      && (o.ret == 0 ==>
            o.size == r.writeRet && o.calls == [Open(AbsPath(filename), CreateWriteAppend), SeekEnd, Write(data[..size]), Close])
      && (o.size != size ==> o.size == r.writeRet && Close in o.calls)
      && (init && |filename| <= MAX_LFN && r.openRet == 0 && r.seekRet == 0 && r.writeRet < 0 ==>
          o.ret == r.writeRet && o.size == size && Close !in o.calls)
  {
  }

  /** What `fs_read` does: fill in some bytes, or fail with a negative code. */
  datatype FsRead = Got(bytes: seq<byte>) | Failed(code: int)

  /** The results of the calls of one read. */
  datatype ReadResults = ReadResults(openRet: int, read: FsRead, closeRet: int)

  /** What `fs_read` may return: at most the bytes asked for, or a negative code. */
  predicate ReadResultsOk(size: nat, r: ReadResults)
  {
    match r.read
    case Got(bytes) => |bytes| <= size
    case Failed(code) => code < 0
  }

  /** `sd_card_read`: read up to `*size` bytes into the buffer; `bytes` is what was placed there. */
  function ReadSpec(init: bool, filename: string, size: nat, r: ReadResults): (FileOut, seq<byte>)
    requires ReadResultsOk(size, r)
  {
    if !init then (FileOut(-ENODEV, size, []), [])
    else if |filename| > MAX_LFN then (FileOut(-FR_INVALID_NAME, size, []), [])
    else
      var c0 := [Open(AbsPath(filename), ReadOnly)];
      if r.openRet != 0 then (FileOut(r.openRet, size, c0), [])
      else
        var c1 := c0 + [Read(size)];
        match r.read
        case Failed(code) => (FileOut(code, size, c1), [])
        case Got(bytes) => (FileOut(r.closeRet, |bytes|, c1 + [Close]), bytes)
  }

  /**
   * A read makes no call unless the card is up and the name is accepted;
   * it opens "/SD:/" + name read-only and asks for `*size` bytes.  A read
   * error is returned with `*size` kept and the file left open; otherwise
   * `*size` becomes the count read (an empty file included) and the file
   * is closed.
   */
  lemma ReadOutcome(init: bool, filename: string, size: nat, r: ReadResults)
    requires ReadResultsOk(size, r)
    ensures var (o, bytes) := ReadSpec(init, filename, size, r);
      (!init ==> o == FileOut(-ENODEV, size, []))
      && (init && |filename| > MAX_LFN ==> o == FileOut(-FR_INVALID_NAME, size, []))
      && (o.calls != [] ==> init && |filename| <= MAX_LFN && o.calls[0] == Open(SD_ROOT_PATH + filename, ReadOnly))
      && (o.ret == 0 ==>
            o.size == |bytes| <= size && o.calls == [Open(AbsPath(filename), ReadOnly), Read(size), Close])
      && (init && |filename| <= MAX_LFN && r.openRet == 0 && r.read == Got([]) && r.closeRet == 0 ==>
          o == FileOut(0, 0, [Open(AbsPath(filename), ReadOnly), Read(size), Close]))
      && (r.read.Failed? && o.calls != [] && r.openRet == 0 ==> o.ret == r.read.code < 0 && o.size == size && Close !in o.calls)
  {
  }

  // ---------------------------------------------------------------------
  // sd_card_init

  /** The results of the calls of `sd_card_init`. */
  datatype InitResults = InitResults(diskInit: int, sectorCount: int, sectorSize: int, mount: int)

  /** `sd_card_init`: the code, the new "initialised" flag and the calls made. */
  datatype InitOut = InitOut(ret: int, initialised: bool, calls: seq<FsCall>)

  function InitSpec(wasInit: bool, r: InitResults): InitOut
  {
    if r.diskInit != 0 then InitOut(-ENODEV, wasInit, [DiskInit])
    else if r.sectorCount != 0 then InitOut(r.sectorCount, wasInit, [DiskInit, GetSectorCount])
    else if r.sectorSize != 0 then InitOut(r.sectorSize, wasInit, [DiskInit, GetSectorCount, GetSectorSize])
    else
      var c := [DiskInit, GetSectorCount, GetSectorSize, Mount(SD_ROOT_DIR)];
      if r.mount != 0 then InitOut(r.mount, wasInit, c) else InitOut(0, true, c)
  }

  /**
   * Any `disk_access_init` failure becomes exactly `-ENODEV`; a later
   * failure is returned unchanged.  The flag is set (never cleared) exactly
   * when the mount succeeds, which is exactly when init returns 0.
   */
  lemma InitOutcome(wasInit: bool, r: InitResults)
    ensures var o := InitSpec(wasInit, r);
      (r.diskInit != 0 ==> o.ret == -ENODEV && o.calls == [DiskInit])
      && (o.ret == 0 <==> r.diskInit == 0 && r.sectorCount == 0 && r.sectorSize == 0 && r.mount == 0)
      && (o.initialised <==> wasInit || o.ret == 0)
      && (r.diskInit == 0 && o.ret != 0 ==> o.ret in {r.sectorCount, r.sectorSize, r.mount})
      && (o.ret == 0 ==> o.calls[|o.calls| - 1] == Mount(SD_ROOT_DIR))
  {
  }

  // ---------------------------------------------------------------------
  // The module state

  /** sd_card.c's static state, with the calls it has made and the lines it has listed. */
  class Card {
    var initialised: bool
    var calls: seq<FsCall>
    var listed: seq<Listed>

    /** Static storage starts zeroed: not initialised. */
    constructor ()
      ensures !initialised && calls == [] && listed == []
    {
      initialised, calls, listed := false, [], [];
    }

    /** The `readdir` loop of `sd_card_list_files`. */
    method ListEntries(entries: seq<DirRead>) returns (ret: int)
      modifies this`calls, this`listed
      ensures var s := ScanFrom(entries, 0);
        ret == s.ret && calls == old(calls) + ReadDirs(s.readCount) && listed == old(listed) + s.listed
    {
      var i := 0;
      ghost var acc: seq<Listed> := [];
      while true
        invariant i <= |entries|
        invariant listed == old(listed) + acc
        invariant calls == old(calls) + ReadDirs(i)
        invariant ScanFrom(entries, 0) ==
          var s := ScanFrom(entries, i); Scan(s.ret, acc + s.listed, i + s.readCount)
        decreases |entries| - i
      {
        var e := EntryAt(entries, i);
        calls := calls + [ReadDir];
        ReadDirsAppend(i);
        if e.ret != 0 {
          return e.ret;
        }
        if e.name == "" {
          break;
        }
        listed := listed + [Listed(e.isDir, e.name)];
        ConcatAssocListed(acc, [Listed(e.isDir, e.name)], ScanFrom(entries, i + 1).listed);
        acc := acc + [Listed(e.isDir, e.name)];
        i := i + 1;
      }
      assert acc + [] == acc;
      return 0;
    }

    /** `sd_card_list_files`; `path` is `None` for a NULL path. */
    method ListFiles(path: Option<string>, openRet: int, entries: seq<DirRead>, closeRet: int) returns (ret: int)
      modifies this`calls, this`listed
      ensures var r := ListSpec(old(initialised), path, openRet, entries, closeRet);
        ret == r.ret && calls == old(calls) + r.calls && listed == old(listed) + r.listed
    {
      if !initialised {
        return -ENODEV;
      }
      var dir: string;
      if path.None? {
        dir := SD_ROOT_DIR;
      } else {
        if |path.value| > MAX_LFN {
          return -FR_INVALID_NAME;
        }
        dir := AbsPath(path.value);
      }
      calls := calls + [OpenDir(dir)];
      if openRet != 0 {
        return openRet;
      }
      
      ret := ListEntries(entries);
      ConcatAssocCalls(old(calls), [OpenDir(dir)], ReadDirs(ScanFrom(entries, 0).readCount));
      if ret != 0 {
        return ret;
      }
      calls := calls + [CloseDir];
      ConcatAssocCalls(old(calls), [OpenDir(dir)] + ReadDirs(ScanFrom(entries, 0).readCount), [CloseDir]);
      return closeRet;
    }

    /** `sd_card_write`; the second result is the new `*size`. */
    method WriteFile(filename: string, data: seq<byte>, size: nat, r: WriteResults) returns (ret: int, sizeOut: nat)
      requires size <= |data|
      modifies this`calls
      ensures var o := WriteSpec(old(initialised), filename, data, size, r);
        ret == o.ret && sizeOut == o.size && calls == old(calls) + o.calls
    {
      sizeOut := size;
      if !initialised {
        return -ENODEV, sizeOut;
      }
      if |filename| > MAX_LFN {
        return -FR_INVALID_NAME, sizeOut;
      }
      var path := AbsPath(filename);
      calls := calls + [Open(path, CreateWriteAppend)];
      if r.openRet != 0 {
        return r.openRet, sizeOut;
      }
      calls := calls + [SeekEnd];
      if r.seekRet != 0 {
        return r.seekRet, sizeOut;
      }
      calls := calls + [Write(data[..size])];
      if r.writeRet < 0 {
        return r.writeRet, sizeOut;
      }
      sizeOut := r.writeRet;
      calls := calls + [Close];
      if r.closeRet != 0 {
        return r.closeRet, sizeOut;
      }
      return 0, sizeOut;
    }

    /** `sd_card_read` into `data`; the second result is the new `*size`. */
    method ReadFile(filename: string, data: array<byte>, size: nat, r: ReadResults) returns (ret: int, sizeOut: nat)
      requires size <= data.Length && ReadResultsOk(size, r)
      modifies this`calls, data
      ensures var (o, bytes) := ReadSpec(old(initialised), filename, size, r);
        ret == o.ret && sizeOut == o.size && calls == old(calls) + o.calls
        && data[..|bytes|] == bytes && data[|bytes|..] == old(data[|bytes|..])
    {
      sizeOut := size;
      if !initialised {
        return -ENODEV, sizeOut;
      }
      if |filename| > MAX_LFN {
        return -FR_INVALID_NAME, sizeOut;
      }
      var path := AbsPath(filename);
      calls := calls + [Open(path, ReadOnly)];
      if r.openRet != 0 {
        return r.openRet, sizeOut;
      }
      calls := calls + [Read(size)];
      if r.read.Failed? {
        return r.read.code, sizeOut;
      }
      var bytes := r.read.bytes;
      forall i | 0 <= i < |bytes| {
        data[i] := bytes[i];
      }
      sizeOut := |bytes|;
      calls := calls + [Close];
      if r.closeRet != 0 {
        return r.closeRet, sizeOut;
      }
      return 0, sizeOut;
    }

    /** `sd_card_init`. */
    method Init(r: InitResults) returns (ret: int)
      modifies this`initialised, this`calls
      ensures var o := InitSpec(old(initialised), r);
        ret == o.ret && initialised == o.initialised && calls == old(calls) + o.calls
    {
      calls := calls + [DiskInit];
      if r.diskInit != 0 {
        return -ENODEV;
      }
      calls := calls + [GetSectorCount];
      if r.sectorCount != 0 {
        return r.sectorCount;
      }
      calls := calls + [GetSectorSize];
      if r.sectorSize != 0 {
        return r.sectorSize;
      }
      calls := calls + [Mount(SD_ROOT_DIR)];
      if r.mount != 0 {
        return r.mount;
      }
      initialised := true;
      return 0;
    }
  }

  /** One more read at the end of `n` reads. */
  lemma {:induction false} ReadDirsAppend(n: nat)
    ensures ReadDirs(n) + [ReadDir] == ReadDirs(n + 1)
    decreases n
  {
    if n > 0 {
      ReadDirsAppend(n - 1);
      assert ReadDirs(n + 1) == [ReadDir] + ReadDirs(n);
      assert [ReadDir] + ReadDirs(n - 1) + [ReadDir] == [ReadDir] + (ReadDirs(n - 1) + [ReadDir]);
    }
  }

  lemma ConcatAssocListed(a: seq<Listed>, b: seq<Listed>, c: seq<Listed>)
    ensures a + b + c == a + (b + c)
  {
  }

  lemma ConcatAssocCalls(a: seq<FsCall>, b: seq<FsCall>, c: seq<FsCall>)
    ensures a + b + c == a + (b + c)
  {
  }
}
