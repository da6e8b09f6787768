/** The outside world of the core: the errors it reports, what it asks the operating
    system and the network, and the filesystem calls that change the disk. */
module System {
  import opened Std
  import opened Paths

  /** One item of a recursive `WalkDir` walk: a path and whether it is a regular file. */
  datatype DirEntry = DirEntry(path: Path, isFile: bool)

  /** A filesystem call that changes the disk. */
  datatype FsOp =
    | Remove(path: Path)
    | CreateDirAll(path: Path)
    | Write(path: Path, contents: string)

  /** The failures the core reports, each with the context its message carries. */
  datatype Error =
    | CurrentDirFailed(io: IoError)
    | ConfigNotFound(cwd: Path)
    | ConfigReadFailed(io: IoError)
    | ConfigParseFailed(detail: string)
    | HttpFailed(detail: string)
    | HashMismatch(url: string, actual: string, expected: string)
    | Io(io: IoError)
    | ReadFailed(path: Path, io: IoError)
    | StripPrefixFailed(prefix: Path, path: Path)
    | CanonicalizeFailed(path: Path, io: IoError)
    | RemoveFailed(path: Path, io: IoError)
    | NoParent(path: Path)
    | CreateDirFailed(dir: Path, io: IoError)
    | TemplateParseFailed(path: Path, detail: string)
    | TemplateRenderFailed(path: Path, detail: string)
    | WriteFailed(path: Path, io: IoError)
    | LinksFailed
    | DirsFailed

  /** What the operating system and the network answer, one field per call the core makes:
      `std::env::current_dir`, `Path::exists`, `fs::read_to_string`, `fs::canonicalize`,
      `path::absolute`, `WalkDir::new(..).into_iter()`, an HTTP GET read to a string, and
      the result of each disk-changing call. */
  datatype Env = Env(
    currentDir: Result<Path, IoError>,
    pathExists: Path -> bool,
    readToString: Path -> Result<string, IoError>,
    canonicalize: Path -> Result<Path, IoError>,
    absolute: Path -> Result<Path, IoError>,
    walk: Path -> seq<Result<DirEntry, string>>,
    fetch: string -> Result<string, string>,
    respond: FsOp -> Result<(), IoError>)

  /** `.into_iter().flatten().filter(|entry| entry.file_type().is_file())`: the walk's
      entries that are regular files, in walk order; walk errors are dropped. */
  function FileEntries(walk: seq<Result<DirEntry, string>>): (r: seq<DirEntry>)
    ensures |r| <= |walk|
    ensures forall e :: e in r <==> Ok(e) in walk && e.isFile
  {
    if walk == [] then []
    else
      assert walk == [walk[0]] + walk[1..];
      (if walk[0].Ok? && walk[0].value.isFile then [walk[0].value] else []) + FileEntries(walk[1..])
  }

  /** The disk-changing calls one step makes, in order, and its result. */
  datatype Run = Run(ops: seq<FsOp>, result: Result<(), Error>)

  /** The disk, as seen by the core: the log of every disk-changing call made so far. */
  class Disk {
    var log: seq<FsOp>

    constructor ()
      ensures log == []
    {
      log := [];
    }

    /** Make one disk-changing call and return the system's answer to it. */
    method Perform(env: Env, op: FsOp) returns (r: Result<(), IoError>)
      modifies this
      ensures log == old(log) + [op]
      ensures r == env.respond(op)
    {
      log := log + [op];
      r := env.respond(op);
    }
  }
}
