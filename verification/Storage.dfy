/** A filesystem that may fail, partial files written through a buffer, and the rename that completes them. */
module Storage {
  import opened Wrappers
  import opened FileNames

  type Bytes = seq<bv8>

  /** Addition of a length to a 64-bit count, which stops at the largest count. */
  function SaturatingAdd(a: u64, n: nat): u64 {
    if a + n > U64_MAX then U64_MAX else a + n
  }

  datatype Error =
    | InvalidUrl
    | InvalidPath
    | InvalidFileName
    | AlreadyExists
    | Filesystem
    | Cancelled
    | Network(what: string)
    | InvalidResponse

  /** How the outside answers call number n: does it succeed, and how many buffered bytes does it let through. */
  datatype Io = Io(works: nat -> bool, drains: nat -> nat)

  /** The files, by path, and the number of calls made so far. */
  class Disk {
    const io: Io
    var files: map<Path, Bytes>
    var calls: nat

    constructor (io: Io, files: map<Path, Bytes>)
      ensures this.io == io && this.files == files && calls == 0
    {
      this.io := io;
      this.files := files;
      calls := 0;
    }

    /** One call to the outside. */
    method Call() returns (ok: bool)
      modifies `calls
      ensures ok == io.works(old(calls)) && calls == old(calls) + 1
    {
      ok := io.works(calls);
      calls := calls + 1;
    }

    /** Whether `path` exists; a failing look counts as "no". */
    method Exists(path: Path) returns (found: bool)
      modifies `calls
      ensures found <==> path in files && io.works(old(calls))
      ensures calls == old(calls) + 1
    {
      var ok := Call();
      found := ok && path in files;
    }
  }

  /** The directory part of a path: what `join` puts a new name after. */
  function Parent(path: Path): Path {
    if path == [] || path[|path| - 1].Root? then [] else path[..|path| - 1]
  }

  /** Where the bytes of a transfer to `final` are collected: beside it, under a hidden unique name. */
  function PartPath(final: Path, uuid: string): Path {
    Parent(final)
    + [Normal(if HasFileName(final) then "." + FileName(final) + "." + uuid + ".part" else "download." + uuid + ".part")]
  }

  /** The partial file is never the destination itself, and two transfers with different tags never share one. */
  lemma PartPathIsElsewhere(final: Path, uuid: string, uuid2: string)
    ensures PartPath(final, uuid) != final
    ensures |uuid| == |uuid2| && uuid != uuid2 ==> PartPath(final, uuid) != PartPath(final, uuid2)
  {
    var p, q := PartPath(final, uuid), PartPath(final, uuid2);
    assert HasFileName(p) && HasFileName(q);
    if HasFileName(final) {
      assert |FileName(p)| > |FileName(final)|;
    }
    if |uuid| == |uuid2| && p == q {
      var k := if HasFileName(final) then |FileName(final)| + 2 else |"download."|;
      assert FileName(p)[k..k + |uuid|] == uuid;
      assert FileName(q)[k..k + |uuid|] == uuid2;
    }
  }

  /** It lies beside the destination, under one name that is hidden and marked as partial. */
  lemma PartPathIsBeside(final: Path, uuid: string)
    ensures var part := PartPath(final, uuid);
            && HasFileName(part) && part[..|part| - 1] == Parent(final)
            && (HasFileName(final) ==> Parent(final) + [final[|final| - 1]] == final)
            && (HasFileName(final) ==> FileName(part) == "." + FileName(final) + "." + uuid + ".part")
            && (!HasFileName(final) ==> FileName(part) == "download." + uuid + ".part")
  {}

  /** An open partial file: the bytes on disk, followed by the bytes still in the buffer. */
  class PartFile {
    const disk: Disk
    const path: Path
    var buffer: Bytes
    var bytesWritten: u64
    ghost var written: Bytes

    /** Disk and buffer together hold what was written. */
    ghost predicate Valid()
      reads this, disk
    {
      path in disk.files && disk.files[path] + buffer == written && bytesWritten == SaturatingAdd(0, |written|)
    }

    constructor (disk: Disk, path: Path)
      requires path in disk.files && disk.files[path] == []
      ensures Valid() && this.disk == disk && this.path == path && written == [] && buffer == []
    {
      this.disk := disk;
      this.path := path;
      buffer, bytesWritten, written := [], 0, [];
    }

    /** Lets `n` bytes of the buffer through to the disk, or all of them if there are fewer. */
    method Drain(n: nat)
      requires path in disk.files
      modifies `buffer, disk`files
      ensures path in disk.files && disk.files == old(disk.files)[path := disk.files[path]]
      ensures disk.files[path] + buffer == old(disk.files[path] + buffer)
      ensures old(disk.files[path]) <= disk.files[path]
      ensures |buffer| == if n <= |old(buffer)| then |old(buffer)| - n else 0
    {
      var k := if n <= |buffer| then n else |buffer|;
      disk.files := disk.files[path := disk.files[path] + buffer[..k]];
      buffer := buffer[k..];
    }

    /** Buffers a chunk; some of the buffer may reach the disk on the way, even when the call fails. */
    method WriteChunk(data: Bytes) returns (ok: bool)
      requires Valid()
      modifies this, disk
      ensures path in disk.files && disk.files == old(disk.files)[path := disk.files[path]]
      ensures disk.files[path] <= old(written) + data && old(disk.files[path]) <= disk.files[path]
      ensures ok ==> Valid() && written == old(written) + data
      ensures ok == disk.io.works(old(disk.calls)) && disk.calls == old(disk.calls) + 1
    {
      buffer := buffer + data;
      ghost var whole := old(written) + data;
      assert disk.files[path] + buffer == whole;
      Drain(disk.io.drains(disk.calls));
      ok := disk.Call();
      assert disk.files[path] <= whole;
      if ok {
        bytesWritten := SaturatingAdd(bytesWritten, |data|);
        written := whole;
      }
    }

    /** Brings the whole buffer to the disk, and waits until the disk has it. */
    method Flush() returns (ok: bool)
      requires Valid()
      modifies this, disk
      ensures path in disk.files && disk.files == old(disk.files)[path := disk.files[path]]
      ensures disk.files[path] <= old(written)
      ensures ok ==> Valid() && written == old(written) && disk.files[path] == written
      ensures ok <==> disk.io.works(old(disk.calls)) && disk.io.works(old(disk.calls) + 1)
    {
      var drained := disk.io.drains(disk.calls);
      ok := disk.Call();
      Drain(if ok then |buffer| else drained);
      assert disk.files[path] <= written;
      if ok {
        ok := disk.Call();
      }
    }

    /** Closes the file. Whatever is still in the buffer is lost. */
    method Close() returns (ok: bool)
      modifies disk`calls
      ensures ok == disk.io.works(old(disk.calls)) && disk.calls == old(disk.calls) + 1
    {
      ok := disk.Call();
    }
  }

  /** Creates the partial file of a transfer; refuses when something already has its name. */
  method CreatePartFile(disk: Disk, final: Path, uuid: string) returns (part: PartFile?)
    modifies disk
    ensures part == null ==> disk.files == old(disk.files)
    ensures part != null ==>
              && fresh(part) && part.disk == disk && part.path == PartPath(final, uuid) && part.path !in old(disk.files)
              && part.Valid() && part.written == [] && disk.files == old(disk.files)[part.path := []]
    ensures part != null <==>
              && disk.io.works(old(disk.calls)) && disk.io.works(old(disk.calls) + 1)
              && PartPath(final, uuid) !in old(disk.files)
    ensures disk.calls > old(disk.calls)
  {
    part := null;
    var ok := disk.Call();
    if !ok {
      return;
    }
    var path := PartPath(final, uuid);
    ok := disk.Call();
    if !ok || path in disk.files {
      return;
    }
    disk.files := disk.files[path := []];
    part := new PartFile(disk, path);
  }

  /** What is on disk of the partial file moves to its final name, in one step; the buffer does not count. */
  method Finalize(part: PartFile, final: Path, overwrite: bool) returns (error: Option<Error>)
    requires part.path in part.disk.files && part.path != final
    modifies part.disk
    ensures var (before, c) := (old(part.disk.files), old(part.disk.calls));
            var (works, found) := (part.disk.io.works, !overwrite && final in before && part.disk.io.works(c + 1));
            && (error.None? ==> part.disk.files == (before - {part.path})[final := before[part.path]])
            && (error.Some? ==> part.disk.files == before)
            && (error == Some(AlreadyExists) <==> works(c) && found)
            && (error.None? <==> works(c) && !found && works(if overwrite then c + 1 else c + 2))
            && (error.Some? ==> error.value.AlreadyExists? || error.value.Filesystem?)
            && (error.None? ==> part.disk.calls == c + if overwrite then 2 else 3)
  {
    var disk := part.disk;
    var ok := part.Close();
    if !ok {
      return Some(Filesystem);
    }
    if !overwrite {
      var found := disk.Exists(final);
      if found {
        return Some(AlreadyExists);
      }
    }
    ok := disk.Call();
    if !ok {
      return Some(Filesystem);
    }
    disk.files := (disk.files - {part.path})[final := disk.files[part.path]];
    error := None;
  }

  /** Removes a partial file; one that is already gone is no failure. */
  method RemovePart(disk: Disk, path: Path) returns (ok: bool)
    modifies disk
    ensures disk.files == if disk.io.works(old(disk.calls)) then old(disk.files) - {path} else old(disk.files)
    ensures ok <==> path !in disk.files
  {
    var works := disk.Call();
    if works {
      disk.files := disk.files - {path};
    }
    ok := path !in disk.files;
  }
}
