/**
 * The session's backing file (`enum File`): where a buffer is read from and
 * where `w` writes it. The file system is a snapshot passed in; reading and
 * writing bytes is not part of the model.
 */
module Source {
  import opened Wrappers
  import opened Usize
  import opened Text

  /** `File::New` has no path yet; `File::Open(path)` names one. */
  datatype File = New | Open(path: string)

  /** The contents of a Rust `String`, whose length is bounded by `isize::MAX`. */
  type FileText = s: string | |s| <= ISIZE_MAX

  /** A file that exists: readable as UTF-8 text, or present but failing `read_to_string`. */
  datatype Entry = Readable(text: FileText) | Unreadable

  /** The files that exist, by path. The empty path names no file. */
  type Disk = d: map<string, Entry> | "" !in d

  /** What `disk_read` hands back: the lines, and whether the read succeeded (a failure is reported, not fatal). */
  datatype ReadResult = ReadResult(lines: seq<string>, ok: bool)

  /** `File::disk_read`. */
  function DiskRead(f: File, disk: Disk): (r: ReadResult)
    ensures f.New? ==> r == ReadResult([], true)
    ensures !r.ok ==> r.lines == [] && f.Open?
    ensures f.Open? ==> (r.ok <==> f.path in disk && disk[f.path].Readable?)
    ensures f.Open? && r.ok ==> r.lines == Lines(disk[f.path].text)
    ensures |r.lines| <= ISIZE_MAX
  {
    match f
    case New => ReadResult([], true)
    case Open(path) =>
      if path in disk && disk[path].Readable? then ReadResult(Lines(disk[path].text), true)
      else ReadResult([], false)
  }

  /** How `File::open` opens the target: creating a file that must not exist yet, or opening one that must. */
  datatype Mode = CreateNew | OpenExisting

  datatype Target = Target(path: string, mode: Mode)

  /**
   * `File::open`: `New` creates the file named by the buffer name
   * (`create_new`, which fails if it exists or the name is empty); `Open(p)`
   * opens `p` for writing without creating it (which fails if it is absent).
   * `None` is the reported open error.
   */
  function OpenForWrite(f: File, bufferName: string, disk: Disk): (r: Option<Target>)
    ensures f.New? ==> (r.Some? <==> bufferName != "" && bufferName !in disk)
    ensures f.Open? ==> (r.Some? <==> f.path in disk)
    ensures r.Some? ==> (r.value.mode == CreateNew <==> f.New?)
    ensures r.Some? ==> r.value.path == if f.New? then bufferName else f.path
    ensures r.Some? && r.value.mode == CreateNew ==> r.value.path !in disk
    ensures r.Some? && r.value.mode == OpenExisting ==> r.value.path in disk
  {
    match f
    case New => if bufferName != "" && bufferName !in disk then Some(Target(bufferName, CreateNew)) else None
    case Open(path) => if path in disk then Some(Target(path, OpenExisting)) else None
  }
}
