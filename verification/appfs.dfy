/**
 * sys::Appfs helpers: applying install attributes to an application
 * header, writing an application image to the application filesystem in
 * page-sized chunks, recognising an installed application, and choosing
 * what the RAM clean-up deletes.
 *
 * The page size (APPFS_PAGE_SIZE) and the size of the application header
 * (sizeof(appfs_file_t)) are parameters. The device is represented by the
 * results it returns.
 */
module AppFs {
  import opened Wrappers

  /** 0777: read, write and execute for everyone. */
  const MODE_ALL: bv32 := 0x1FF
  /** 0666: read and write for everyone. */
  const MODE_RW: bv32 := 0x1B6
  /** 0111: the three execute bits (S_IXUSR | S_IXGRP | S_IXOTH). */
  const EXEC_BITS: bv32 := 0x49
  /** The smallest RAM size an application is given. */
  const MIN_RAM_SIZE: nat := 4096

  predicate Executable(mode: bv32) { mode & EXEC_BITS != 0 }

  /** The install attributes held by AppfsFileAttributes. */
  datatype Attributes = Attributes(name: string, id: string, version: nat, oFlags: nat, ramSize: nat)

  /** The fields of appfs_file_t that apply() writes. */
  class AppfsFile {
    var name: string
    var id: string
    var version: nat
    var mode: bv32
    var oFlags: nat
    var ramSize: nat

    constructor (ramSize: nat)
      ensures this.ramSize == ramSize
    {
      this.ramSize := ramSize;
    }
  }

  /** The RAM size apply() leaves: the attribute's if large enough, else the existing one if large enough, else the minimum. */
  function AppliedRamSize(attributeRam: nat, existingRam: nat): (r: nat)
    ensures r >= MIN_RAM_SIZE
    ensures r == attributeRam || r == existingRam || r == MIN_RAM_SIZE
    ensures attributeRam >= MIN_RAM_SIZE ==> r == attributeRam
    ensures attributeRam < MIN_RAM_SIZE && existingRam >= MIN_RAM_SIZE ==> r == existingRam
  {
    var r := if attributeRam >= MIN_RAM_SIZE then attributeRam else existingRam;
    if r < MIN_RAM_SIZE then MIN_RAM_SIZE else r
  }

  /** Applying the same attributes twice leaves the same RAM size as applying them once. */
  lemma ApplyIdempotent(attributeRam: nat, existingRam: nat)
    ensures AppliedRamSize(attributeRam, AppliedRamSize(attributeRam, existingRam))
            == AppliedRamSize(attributeRam, existingRam)
  {
  }

  /** AppfsFileAttributes::apply(dest). */
  method Apply(attr: Attributes, dest: AppfsFile)
    modifies dest
    ensures dest.name == attr.name && dest.id == attr.id && dest.version == attr.version
    ensures dest.oFlags == attr.oFlags && dest.mode == MODE_ALL
    ensures dest.ramSize == AppliedRamSize(attr.ramSize, old(dest.ramSize))
    ensures dest.ramSize >= MIN_RAM_SIZE
  {
    dest.name := attr.name;
    dest.id := attr.id;
    dest.version := attr.version;
    dest.oFlags := attr.oFlags;
    dest.mode := MODE_ALL;
    if attr.ramSize >= MIN_RAM_SIZE {
      dest.ramSize := attr.ramSize;
    }
    if dest.ramSize < MIN_RAM_SIZE {
      dest.ramSize := MIN_RAM_SIZE;
    }
    dest.oFlags := attr.oFlags;
  }

  /** One I_APPFS_CREATE request: where it writes and how many bytes. */
  datatype Chunk = Chunk(loc: nat, nbyte: nat)

  function Min(a: nat, b: nat): nat { if a <= b then a else b }

  /** The file create() installs: mount + "/flash/" + name. */
  function FlashPath(mount: string, name: string): string
  {
    mount + "/flash/" + name
  }

  /** The chunks after the first, starting at byte bw of a code_size-byte image. */
  function ChunksFrom(codeSize: nat, page: nat, bw: nat): seq<Chunk>
    requires page > 0
    decreases codeSize - bw
  {
    if bw >= codeSize then []
    else
      var n := Min(page, codeSize - bw);
      [Chunk(bw, n)] + ChunksFrom(codeSize, page, bw + n)
  }

  /**
   * The requests create() makes for a source of `size` bytes: the first
   * carries the header and as much of the source as fits in the page, each
   * later one a full page or what is left.
   */
  function Chunks(size: nat, header: nat, page: nat): seq<Chunk>
    requires header < page
  {
    var first := header + Min(page - header, size);
    [Chunk(0, first)] + ChunksFrom(size + header, page, first)
  }

  /** The number of bytes the chunks write. */
  function Written(chunks: seq<Chunk>): nat
  {
    if chunks == [] then 0 else Written(chunks[..|chunks| - 1]) + chunks[|chunks| - 1].nbyte
  }

  lemma WrittenAppend(a: seq<Chunk>, c: Chunk)
    ensures Written(a + [c]) == Written(a) + c.nbyte
  {
    assert (a + [c])[..|a|] == a;
  }

  lemma {:induction false} WrittenConcat(a: seq<Chunk>, b: seq<Chunk>)
    ensures Written(a + b) == Written(a) + Written(b)
    decreases |b|
  {
    if b == [] {
      assert a + b == a;
    } else {
      var init := b[..|b| - 1];
      WrittenConcat(a, init);
      assert a + b == (a + init) + [b[|b| - 1]];
      WrittenAppend(a + init, b[|b| - 1]);
      assert b == init + [b[|b| - 1]];
      WrittenAppend(init, b[|b| - 1]);
    }
  }

  /** Chunks that start at bw, each where the previous one ended, none larger than a page. */
  predicate Contiguous(chunks: seq<Chunk>, bw: nat, page: nat)
  {
    forall k :: 0 <= k < |chunks| ==> chunks[k].loc == bw + Written(chunks[..k]) && chunks[k].nbyte <= page
  }

  /** A chunk at bw followed by contiguous chunks from where it ends is contiguous from bw. */
  lemma ContiguousCons(c: Chunk, rest: seq<Chunk>, bw: nat, page: nat)
    requires c.loc == bw && c.nbyte <= page && Contiguous(rest, bw + c.nbyte, page)
    ensures Written([c] + rest) == c.nbyte + Written(rest)
    ensures Contiguous([c] + rest, bw, page)
  {
    var cs := [c] + rest;
    WrittenConcat([c], rest);
    assert Written([c]) == c.nbyte by {
      assert [c][..0] == [];
    }
    forall k | 0 <= k < |cs|
      ensures cs[k].loc == bw + Written(cs[..k]) && cs[k].nbyte <= page
    {
      if k == 0 {
        assert cs[..0] == [];
      } else {
        assert cs[..k] == [c] + rest[..k - 1];
        WrittenConcat([c], rest[..k - 1]);
        assert cs[k] == rest[k - 1];
      }
    }
  }

  lemma {:induction false} ChunksFromCover(codeSize: nat, page: nat, bw: nat)
    requires page > 0 && bw <= codeSize
    ensures Written(ChunksFrom(codeSize, page, bw)) == codeSize - bw
    ensures Contiguous(ChunksFrom(codeSize, page, bw), bw, page)
    ensures forall k :: 0 <= k < |ChunksFrom(codeSize, page, bw)| ==> ChunksFrom(codeSize, page, bw)[k].nbyte > 0
    decreases codeSize - bw
  {
    if bw < codeSize {
      var n := Min(page, codeSize - bw);
      var rest := ChunksFrom(codeSize, page, bw + n);
      ChunksFromCover(codeSize, page, bw + n);
      assert ChunksFrom(codeSize, page, bw) == [Chunk(bw, n)] + rest;
      ContiguousCons(Chunk(bw, n), rest, bw, page);
    }
  }

  /**
   * The requests of create() write the whole image exactly once: they
   * start at 0, each begins where the previous one ended, none exceeds a
   * page, and together they write size + header bytes.
   */
  lemma ChunksCoverImage(size: nat, header: nat, page: nat)
    requires header < page
    ensures var cs := Chunks(size, header, page);
            Written(cs) == size + header && Contiguous(cs, 0, page)
  {
    var first := header + Min(page - header, size);
    ChunksFromCover(size + header, page, first);
    ContiguousCons(Chunk(0, first), ChunksFrom(size + header, page, first), 0, page);
  }

  /** The header create() writes in front of the image. */
  datatype CreateHeader = CreateHeader(name: string, mode: bv32, codeSize: nat)

  /**
   * The do-while loop of create(): the first request (`first` bytes,
   * header included) is already prepared; `ioctl(k)` is what the k-th
   * request returns. Returns the result and the requests made.
   */
  method WriteChunks(codeSize: nat, first: nat, page: nat, ioctl: nat -> int) returns (r: int, sent: seq<Chunk>)
    requires 0 < page && first <= codeSize && first <= page && (codeSize > 0 ==> first > 0)
    ensures var plan := [Chunk(0, first)] + ChunksFrom(codeSize, page, first);
            0 < |sent| <= |plan| && sent == plan[..|sent|]
            && (forall k :: 0 <= k < |sent| - 1 ==> ioctl(k) >= 0)
            && (r >= 0 ==> r == codeSize && sent == plan && ioctl(|sent| - 1) >= 0)
            && (r < 0 ==> r == ioctl(|sent| - 1))
  {
    ghost var plan := [Chunk(0, first)] + ChunksFrom(codeSize, page, first);
    var nbyte := first;
    var loc: nat := 0;
    var bw: nat := 0;
    sent := [];
    // do { ... } while (bw < code_size): `started` lets the first pass run unconditionally
    var started := false;
    while !started || bw < codeSize
      invariant loc == bw <= codeSize
      invariant !started ==> sent == [] && bw == 0 && nbyte == first
      invariant started ==> sent + ChunksFrom(codeSize, page, bw) == plan && 0 < |sent|
      invariant started && bw < codeSize ==> loc != 0
      invariant forall k :: 0 <= k < |sent| ==> ioctl(k) >= 0
      decreases (if started then 0 else 1) + codeSize - bw
    {
      if loc != 0 {
        if codeSize - bw > page {
          nbyte := page;
        } else {
          nbyte := codeSize - bw;
        }
      }
      var chunk := Chunk(loc, nbyte);
      var k := |sent|;
      ghost var before := sent;
      sent := sent + [chunk];
      if started {
        ghost var rest := ChunksFrom(codeSize, page, bw + nbyte);
        assert ChunksFrom(codeSize, page, bw) == [chunk] + rest;
        assert sent + rest == before + ([chunk] + rest);
      }
      var tmp := ioctl(k);
      if tmp < 0 {
        assert plan[..|sent|] == sent;
        return tmp, sent;
      }
      assert forall j :: 0 <= j < |sent| ==> ioctl(j) >= 0 by {
        assert |sent| == k + 1 && ioctl(k) >= 0;
      }
      bw := bw + nbyte;
      loc := loc + nbyte;
      started := true;
    }
    assert ChunksFrom(codeSize, page, bw) == [];
    assert plan[..|sent|] == sent;
    return codeSize, sent;
  }

  /**
   * Appfs::create(name, source, mount) for a source of `size` bytes:
   * `installOpens` says whether opening /app/.install succeeds, `ioctl(k)`
   * is what the k-th request returns. Returns the result, the path that is
   * removed first, the header, and the requests made.
   */
  method Create(name: string, size: nat, mount: string, header: nat, page: nat,
                installOpens: bool, ioctl: nat -> int)
    returns (r: int, removed: string, hdr: CreateHeader, sent: seq<Chunk>)
    requires header < page
    ensures removed == FlashPath(mount, name)
    ensures hdr == CreateHeader(name, MODE_RW, size + header)
    ensures !installOpens ==> r == -1 && sent == []
    ensures installOpens ==> 0 < |sent| <= |Chunks(size, header, page)| && sent == Chunks(size, header, page)[..|sent|]
    ensures installOpens ==> forall k :: 0 <= k < |sent| - 1 ==> ioctl(k) >= 0
    ensures installOpens && r >= 0 ==> r == size + header && sent == Chunks(size, header, page) && ioctl(|sent| - 1) >= 0
    ensures installOpens && r < 0 ==> r == ioctl(|sent| - 1)
  {
    removed := FlashPath(mount, name);
    hdr := CreateHeader(name, MODE_RW, size + header);
    sent := [];
    if !installOpens {
      return -1, removed, hdr, sent;
    }
    var nbyte := page - header;
    if size < nbyte {
      nbyte := size;
    }
    nbyte := nbyte + header;
    r, sent := WriteChunks(size + header, nbyte, page, ioctl);
  }

  /** The header fields get_info() reads. */
  datatype FileHeader = FileHeader(name: string, id: string, mode: bv32, version: nat, ramSize: nat, oFlags: nat, signature: nat)

  /** What get_info() reports for a valid application. */
  datatype AppfsInfo = AppfsInfo(name: string, id: string, mode: bv32, version: nat, ramSize: nat, oFlags: nat, signature: nat)

  /**
   * Appfs::get_info(path): `isOpen` says whether the file isOpen, `bytesRead`
   * is what the header read returned, `pathName` is the file-name part of
   * the path. None is the default (invalid) AppfsInfo.
   */
  function GetInfo(isOpen: bool, bytesRead: int, headerSize: nat, pathName: string, hdr: FileHeader): (r: Option<AppfsInfo>)
    ensures r.Some? <==>
              isOpen && bytesRead == headerSize
              && !(".sys" <= pathName) && !(".free" <= pathName)
              && Executable(hdr.mode) && pathName == hdr.name
    ensures r.Some? ==> r.value.name == pathName && r.value.id == hdr.id && r.value.mode == hdr.mode
                        && r.value.version == hdr.version && r.value.ramSize == hdr.ramSize
                        && r.value.oFlags == hdr.oFlags && r.value.signature == hdr.signature
  {
    if !isOpen then None
    else if bytesRead != headerSize then None
    else if ".sys" <= pathName then None
    else if ".free" <= pathName then None
    else if !Executable(hdr.mode) then None
    else if pathName == hdr.name then
      Some(AppfsInfo(hdr.name, hdr.id, hdr.mode, hdr.version, hdr.ramSize, hdr.oFlags, hdr.signature))
    else None
  }

  /** Appfs::get_id(path): the id of a valid application, else the empty string. */
  function GetId(isOpen: bool, bytesRead: int, headerSize: nat, pathName: string, hdr: FileHeader): (r: string)
    ensures GetInfo(isOpen, bytesRead, headerSize, pathName, hdr).None? ==> r == ""
    ensures GetInfo(isOpen, bytesRead, headerSize, pathName, hdr).Some? ==> r == hdr.id
  {
    var info := GetInfo(isOpen, bytesRead, headerSize, pathName, hdr);
    if info.None? then "" else info.value.id
  }

  /** A system or free-space file is never reported as an application, whatever its header says. */
  lemma ReservedNamesNotApplications(isOpen: bool, bytesRead: int, headerSize: nat, pathName: string, hdr: FileHeader)
    requires ".sys" <= pathName || ".free" <= pathName
    ensures GetInfo(isOpen, bytesRead, headerSize, pathName, hdr).None?
    ensures GetId(isOpen, bytesRead, headerSize, pathName, hdr) == ""
  {
  }

  /** One entry of /app/ram as cleanup() sees it: its name and the result of stat(). */
  datatype RamEntry = RamEntry(name: string, statOk: bool, mode: bv32)

  /** The deletion test of cleanup(): executable or `data` set, and not a hidden name. */
  predicate Deletes(mode: bv32, data: bool, name: string)
  {
    (Executable(mode) || data) && (name == [] || name[0] != '.')
  }

  function RamPath(name: string): string { "/app/ram/" + name }

  lemma RamPathInjective(a: string, b: string)
    requires RamPath(a) == RamPath(b)
    ensures a == b
  {
    assert a == RamPath(a)[9..];
    assert b == RamPath(b)[9..];
  }

  /**
   * The entries cleanup() unlinks, as written: a failed stat() leaves the
   * previous entry's status in place (`mode` is the status before the
   * first entry).
   */
  function UnlinksAsWritten(entries: seq<RamEntry>, data: bool, mode: bv32): seq<string>
    decreases |entries|
  {
    if entries == [] then []
    else
      var e := entries[0];
      var m := if e.statOk then e.mode else mode;
      (if Deletes(m, data, e.name) then [RamPath(e.name)] else []) + UnlinksAsWritten(entries[1..], data, m)
  }

  /** The entries cleanup() evidently means to unlink: those whose status is known and pass the test. */
  function UnlinksIntended(entries: seq<RamEntry>, data: bool): seq<string>
    decreases |entries|
  {
    if entries == [] then []
    else
      var e := entries[0];
      (if e.statOk && Deletes(e.mode, data, e.name) then [RamPath(e.name)] else []) + UnlinksIntended(entries[1..], data)
  }

  /** An entry is unlinked exactly when its stat succeeded and it passes the deletion test. */
  lemma {:induction false} UnlinksIntendedExactly(entries: seq<RamEntry>, data: bool, k: nat)
    requires k < |entries|
    requires forall i, j :: 0 <= i < j < |entries| ==> entries[i].name != entries[j].name
    ensures RamPath(entries[k].name) in UnlinksIntended(entries, data)
            <==> entries[k].statOk && Deletes(entries[k].mode, data, entries[k].name)
    decreases |entries|
  {
    var e := entries[0];
    var rest := entries[1..];
    if k == 0 {
      NotUnlinkedElsewhere(rest, data, e.name);
    } else {
      UnlinksIntendedExactly(rest, data, k - 1);
      assert rest[k - 1] == entries[k];
      if RamPath(e.name) == RamPath(entries[k].name) {
        RamPathInjective(e.name, entries[k].name);
      }
    }
  }

  /** The intended cleanup() unlinks no path whose name is not among the entries. */
  lemma {:induction false} NotUnlinkedElsewhere(entries: seq<RamEntry>, data: bool, name: string)
    requires forall i :: 0 <= i < |entries| ==> entries[i].name != name
    ensures RamPath(name) !in UnlinksIntended(entries, data)
    decreases |entries|
  {
    if entries != [] {
      NotUnlinkedElsewhere(entries[1..], data, name);
      if RamPath(entries[0].name) == RamPath(name) {
        RamPathInjective(entries[0].name, name);
      }
    }
  }

  /** Neither does cleanup() as written, whatever stale status a failed stat() leaves behind. */
  lemma {:induction false} NotUnlinkedElsewhereAsWritten(entries: seq<RamEntry>, data: bool, mode: bv32, name: string)
    requires forall i :: 0 <= i < |entries| ==> entries[i].name != name
    ensures RamPath(name) !in UnlinksAsWritten(entries, data, mode)
    decreases |entries|
  {
    if entries != [] {
      var m := if entries[0].statOk then entries[0].mode else mode;
      NotUnlinkedElsewhereAsWritten(entries[1..], data, m, name);
      if RamPath(entries[0].name) == RamPath(name) {
        RamPathInjective(entries[0].name, name);
      }
    }
  }

  /** When every stat succeeds, the code as written unlinks exactly the intended entries. */
  lemma {:induction false} UnlinksAgreeWhenStatsSucceed(entries: seq<RamEntry>, data: bool, mode: bv32)
    requires forall i :: 0 <= i < |entries| ==> entries[i].statOk
    ensures UnlinksAsWritten(entries, data, mode) == UnlinksIntended(entries, data)
    decreases |entries|
  {
    if entries != [] {
      UnlinksAgreeWhenStatsSucceed(entries[1..], data, entries[0].mode);
    }
  }

  /**
   * A data-free clean-up deletes a non-executable file whose stat failed
   * when the entry before it was executable.
   */
  lemma StaleStatDeletes()
    ensures UnlinksAsWritten([RamEntry("app", true, 0x1ED), RamEntry("log", false, 0)], false, 0)
            == ["/app/ram/app", "/app/ram/log"]
    ensures UnlinksIntended([RamEntry("app", true, 0x1ED), RamEntry("log", false, 0)], false)
            == ["/app/ram/app"]
  {
    var es := [RamEntry("app", true, 0x1ED), RamEntry("log", false, 0)];
    assert es[1..] == [RamEntry("log", false, 0)];
    assert es[1..][1..] == [];
    assert Executable(0x1ED) && !Executable(0);
    assert Deletes(0x1ED, false, "app") && Deletes(0x1ED, false, "log");
    assert UnlinksAsWritten(es[1..], false, 0x1ED) == [RamPath("log")];
    assert UnlinksIntended(es[1..], false) == [];
    assert UnlinksAsWritten(es, false, 0) == [RamPath("app")] + [RamPath("log")];
    assert UnlinksIntended(es, false) == [RamPath("app")] + [];
    assert RamPath("app") == "/app/ram/app" && RamPath("log") == "/app/ram/log";
  }

  /** Whether the first `n` unlink calls all succeed. */
  predicate SucceedBelow(unlinkOk: nat -> bool, n: nat)
  {
    forall k :: 0 <= k < n ==> unlinkOk(k)
  }

  lemma SucceedBelowExtend(unlinkOk: nat -> bool, n: nat)
    requires SucceedBelow(unlinkOk, n) && unlinkOk(n)
    ensures SucceedBelow(unlinkOk, n + 1)
  {
  }

  lemma PrefixOfConcat<T>(a: seq<T>, b: seq<T>)
    ensures a <= a + b
  {
  }

  /**
   * One entry of the directory loop keeps `done + still-to-come == full`;
   * `m` is the stat buffer after the entry's stat().
   */
  lemma UnlinksStep(entries: seq<RamEntry>, i: nat, data: bool, mode: bv32, m: bv32, done: seq<string>, full: seq<string>)
    requires i < |entries|
    requires m == if entries[i].statOk then entries[i].mode else mode
    requires done + UnlinksAsWritten(entries[i..], data, mode) == full
    ensures Deletes(m, data, entries[i].name) ==>
              (done + [RamPath(entries[i].name)]) + UnlinksAsWritten(entries[i + 1..], data, m) == full
              && done + [RamPath(entries[i].name)] <= full
    ensures !Deletes(m, data, entries[i].name) ==> done + UnlinksAsWritten(entries[i + 1..], data, m) == full
  {
    assert entries[i..][1..] == entries[i + 1..];
    var rest := UnlinksAsWritten(entries[i + 1..], data, m);
    if Deletes(m, data, entries[i].name) {
      var b := [RamPath(entries[i].name)];
      assert (done + b) + rest == done + (b + rest);
      PrefixOfConcat(done + b, rest);
    }
  }

  /**
   * The directory loop of cleanup(): `mode` is the stat buffer's content
   * before the first entry and `unlinkOk(k)` whether the k-th unlink
   * succeeds. Says whether an unlink failed and returns the paths
   * unlinked, in order, the failed one last.
   */
  method UnlinkEntries(data: bool, entries: seq<RamEntry>, mode: bv32, unlinkOk: nat -> bool)
    returns (failed: bool, unlinked: seq<string>)
    ensures unlinked <= UnlinksAsWritten(entries, data, mode)
    ensures !failed ==> unlinked == UnlinksAsWritten(entries, data, mode) && SucceedBelow(unlinkOk, |unlinked|)
    ensures failed ==> unlinked != [] && SucceedBelow(unlinkOk, |unlinked| - 1) && !unlinkOk(|unlinked| - 1)
  {
    unlinked := [];
    var st := mode;
    var i := 0;
    ghost var full := UnlinksAsWritten(entries, data, mode);
    while i < |entries|
      invariant i <= |entries|
      invariant unlinked + UnlinksAsWritten(entries[i..], data, st) == full
      invariant SucceedBelow(unlinkOk, |unlinked|)
    {
      var name := entries[i].name;
      var buffer := RamPath(name);
      ghost var before := st;
      if entries[i].statOk {
        st := entries[i].mode;
      }
      UnlinksStep(entries, i, data, before, st, unlinked, full);
      if Deletes(st, data, name) {
        var ok := unlinkOk(|unlinked|);
        ghost var done := unlinked;
        unlinked := unlinked + [buffer];
        assert |unlinked| - 1 == |done|;
        if !ok {
          return true, unlinked;
        }
        SucceedBelowExtend(unlinkOk, |done|);
      }
      i := i + 1;
    }
    assert entries[i..] == [];
    assert unlinked + [] == unlinked;
    return false, unlinked;
  }

  /**
   * Appfs::cleanup(data): `dirOpens` says whether opening /app/ram
   * succeeds and `entries` is what reading it returns.
   */
  method Cleanup(data: bool, dirOpens: bool, entries: seq<RamEntry>, mode: bv32, unlinkOk: nat -> bool)
    returns (r: int, unlinked: seq<string>)
    ensures !dirOpens ==> r == -1 && unlinked == []
    ensures dirOpens ==> unlinked <= UnlinksAsWritten(entries, data, mode)
    ensures dirOpens && r == 0 ==> unlinked == UnlinksAsWritten(entries, data, mode)
    ensures dirOpens && r == 0 ==> SucceedBelow(unlinkOk, |unlinked|)
    ensures dirOpens && r == -1 ==> unlinked != [] && SucceedBelow(unlinkOk, |unlinked| - 1) && !unlinkOk(|unlinked| - 1)
    ensures r == 0 || r == -1
  {
    if !dirOpens {
      return -1, [];
    }
    var failed;
    failed, unlinked := UnlinkEntries(data, entries, mode, unlinkOk);
    r := if failed then -1 else 0;
  }
}
