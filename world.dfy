/** `src/world.rs`: `World::new`, which locates the manifest, fetches every link and reads
    every file of every directory, collecting the errors of all of them.

    Locating, reading and parsing the manifest are fatal and give a single error
    (`single_err`); fetch and read failures are gathered into one `errors` vector, and a
    `World` exists only when it stays empty. TOML parsing is given as `parse`. */
module World {
  import opened Std
  import opened Paths
  import opened Output
  import opened System
  import Stdx
  import Config

  /** A fetched link (`world::Link`). */
  datatype Link = Link(url: string, contents: string, path: Path, sha256: Option<string>, marker: Option<string>)

  /** A read file (`world::File`), with the `output` and `input` of the directory it came from. */
  datatype File = File(oldLocation: Path, contents: string, output: OutputPath, input: Path)

  /** The gathered input of the program. */
  datatype World = World(root: Path, links: seq<Link>, files: seq<File>)

  /** `dir.join(Config::FILE_NAME).exists()` */
  predicate HasConfig(env: Env, dir: Path)
  {
    env.pathExists(Join(dir, Name(Config.FILE_NAME)))
  }

  /** `find` over the yielded directories: the position of the first that holds a manifest. */
  function FindConfig(env: Env, dirs: seq<Path>): (r: Option<nat>)
    ensures r.Some? ==> r.value < |dirs| && HasConfig(env, dirs[r.value])
    ensures r.Some? ==> forall j :: 0 <= j < r.value ==> !HasConfig(env, dirs[j])
    ensures r.None? <==> forall j :: 0 <= j < |dirs| ==> !HasConfig(env, dirs[j])
    decreases |dirs|
  {
    if dirs == [] then None
    else if HasConfig(env, dirs[0]) then Some(0)
    else
      match FindConfig(env, dirs[1..])
      case None => None
      case Some(k) => Some(k + 1)
  }

  /** The fatal part of `World::new` (src/world.rs:64-89): the working directory, the
      closest directory holding `dots.toml`, its contents and their parse, with `root`
      set to that directory. */
  function Locate(env: Env, parse: string -> Result<Config.Config, string>): (r: Result<Config.Config, Error>)
    ensures env.currentDir.Err? ==> r == Err(CurrentDirFailed(env.currentDir.error))
    ensures env.currentDir.Ok? && (forall d :: IsAncestorOf(d, env.currentDir.value) ==> !HasConfig(env, d))
            ==> r == Err(ConfigNotFound(env.currentDir.value))
    ensures r.Ok? ==> env.currentDir.Ok? && HasConfig(env, r.value.root)
                      && IsAncestorOf(r.value.root, env.currentDir.value)
  {
    match env.currentDir
    case Err(e) => Err(CurrentDirFailed(e))
    case Ok(cwd) =>
      var dirs := Stdx.Upwards(cwd);
      match FindConfig(env, dirs)
      case None => Err(ConfigNotFound(cwd))
      case Some(k) =>
        var root := dirs[k];
        match env.readToString(Join(root, Name(Config.FILE_NAME)))
        case Err(e) => Err(ConfigReadFailed(e))
        case Ok(text) =>
          match parse(text)
          case Err(d) => Err(ConfigParseFailed(d))
          case Ok(config) => Ok(config.(root := root))
  }

  /** Once the closest directory holding `dots.toml` is found, it is the root: a failed read
      of the manifest gives the read error, a failed parse the parse error, and otherwise
      the result is the parsed manifest with its `root` set to that directory. */
  lemma LocateReadsManifest(env: Env, parse: string -> Result<Config.Config, string>, cwd: Path, k: nat)
    requires env.currentDir == Ok(cwd)
    requires FindConfig(env, Stdx.Upwards(cwd)) == Some(k)
    ensures var root := Stdx.Upwards(cwd)[k];
      var read := env.readToString(Join(root, Name(Config.FILE_NAME)));
      (read.Err? ==> Locate(env, parse) == Err(ConfigReadFailed(read.error))) &&
      (read.Ok? && parse(read.value).Err? ==> Locate(env, parse) == Err(ConfigParseFailed(parse(read.value).error))) &&
      (read.Ok? && parse(read.value).Ok? ==> Locate(env, parse) == Ok(parse(read.value).value.(root := root)))
  {
  }

  /** An ancestor of `p` is the one that many levels above it. */
  lemma AncestorPosition(d: Path, p: Path)
    requires IsAncestorOf(d, p)
    ensures d == Stdx.Ancestor(p, |p.components| - |d.components|)
  {
  }

  /** The root is the closest directory to the working directory that holds a manifest:
      no directory between them does. */
  lemma RootIsClosest(env: Env, parse: string -> Result<Config.Config, string>, cwd: Path)
    requires env.currentDir == Ok(cwd)
    requires Locate(env, parse).Ok?
    ensures var root := Locate(env, parse).value.root;
      forall d :: IsAncestorOf(d, cwd) && |d.components| > |root.components| ==> !HasConfig(env, d)
  {
    var dirs := Stdx.Upwards(cwd);
    var k := FindConfig(env, dirs).value;
    assert Locate(env, parse).value.root == dirs[k];
    forall d | IsAncestorOf(d, cwd) && |d.components| > |dirs[k].components|
      ensures !HasConfig(env, d)
    {
      AncestorPosition(d, cwd);
      assert d == dirs[|cwd.components| - |d.components|];
    }
  }

  /** One link of the manifest, fetched (src/world.rs:96-110). */
  function FetchLink(env: Env, link: Config.Link): (r: Result<Link, Error>)
    ensures r.Ok? <==> env.fetch(link.url).Ok?
    ensures r.Err? ==> r.error == HttpFailed(env.fetch(link.url).error)
    ensures r.Ok? ==> r.value.url == link.url && r.value.path == link.path
                      && r.value.sha256 == link.sha256 && r.value.marker == link.marker
                      && r.value.contents == env.fetch(link.url).value
  {
    match env.fetch(link.url)
    case Err(d) => Err(HttpFailed(d))
    case Ok(contents) => Ok(Link(link.url, contents, link.path, link.sha256, link.marker))
  }

  /** Every link of the manifest, fetched, in manifest order. */
  function LinkResults(env: Env, links: seq<Config.Link>): (r: seq<Result<Link, Error>>)
    ensures |r| == |links|
  {
    seq(|links|, i requires 0 <= i < |links| => FetchLink(env, links[i]))
  }

  /** One walked file of a directory, read (src/world.rs:126-140). */
  function ReadFile(env: Env, dir: Config.Dir, entry: DirEntry): (r: Result<File, Error>)
    ensures r.Ok? <==> env.absolute(entry.path).Ok? && env.readToString(env.absolute(entry.path).value).Ok?
    ensures r.Err? ==> r.error.Io? || r.error.ReadFailed?
    ensures r.Ok? ==> r.value.output == dir.output && r.value.input == dir.path
                      && r.value.oldLocation == env.absolute(entry.path).value
                      && r.value.contents == env.readToString(r.value.oldLocation).value
  {
    match env.absolute(entry.path)
    case Err(e) => Err(Io(e))
    case Ok(location) =>
      match env.readToString(location)
      case Err(e) => Err(ReadFailed(location, e))
      case Ok(contents) => Ok(File(location, contents, dir.output, dir.path))
  }

  /** The files below one directory, read, in walk order: each gathered file is a regular
      file of the walk of `root.join(input)`, at its absolute location, and carries the
      directory's `output` and `input`. */
  function DirFileResults(env: Env, root: Path, dir: Config.Dir): (r: seq<Result<File, Error>>)
    ensures var entries := FileEntries(env.walk(Join(root, dir.path)));
      |r| == |entries| && forall i :: 0 <= i < |r| ==> r[i] == ReadFile(env, dir, entries[i])
    ensures forall f :: Ok(f) in r ==>
      f.output == dir.output && f.input == dir.path &&
      exists e :: Ok(e) in env.walk(Join(root, dir.path)) && e.isFile
                  && env.absolute(e.path) == Ok(f.oldLocation)
  {
    var entries := FileEntries(env.walk(Join(root, dir.path)));
    var r := seq(|entries|, i requires 0 <= i < |entries| => ReadFile(env, dir, entries[i]));
    assert forall f :: Ok(f) in r ==> exists i :: 0 <= i < |entries| && r[i] == Ok(f) && entries[i] in entries;
    r
  }

  /** `flat_map` over the directories: each one's files, directory by directory. */
  function FileResults(env: Env, root: Path, dirs: seq<Config.Dir>): seq<Result<File, Error>>
  {
    if dirs == [] then [] else DirFileResults(env, root, dirs[0]) + FileResults(env, root, dirs[1..])
  }

  /** The fatal part of `World::new`, step by step (src/world.rs:64-89). */
  method LocateConfig(env: Env, parse: string -> Result<Config.Config, string>) returns (r: Result<Config.Config, Error>)
    ensures r == Locate(env, parse)
  {
    var cwd := env.currentDir;
    if cwd.Err? {
      return Err(CurrentDirFailed(cwd.error));
    }
    var dirs := Stdx.TraverseUpwards(cwd.value);
    var found := FindConfig(env, dirs);
    if found.None? {
      return Err(ConfigNotFound(cwd.value));
    }
    var root := dirs[found.value];
    var text := env.readToString(Join(root, Name(Config.FILE_NAME)));
    if text.Err? {
      return Err(ConfigReadFailed(text.error));
    }
    var parsed := parse(text.value);
    if parsed.Err? {
      return Err(ConfigParseFailed(parsed.error));
    }
    return Ok(parsed.value.(root := root));
  }

  /** `World::new` (src/world.rs:63-157). */
  method New(env: Env, parse: string -> Result<Config.Config, string>) returns (r: Result<World, seq<Error>>)
    ensures Locate(env, parse).Err? ==> r == Err([Locate(env, parse).error])
    ensures Locate(env, parse).Ok? ==>
      var config := Locate(env, parse).value;
      var links := LinkResults(env, config.links);
      var files := FileResults(env, config.root, config.dirs);
      var errors := Stdx.Errs(links) + Stdx.Errs(files);
      (r.Err? <==> errors != []) &&
      (r.Err? ==> r.error == errors) &&
      (r.Ok? ==> r.value == World(config.root, Stdx.Oks(links), Stdx.Oks(files)))
  {
    var located := LocateConfig(env, parse);
    if located.Err? {
      return Err([located.error]);
    }
    var config := located.value;

    var errors: seq<Error> := [];
    var linkResults := LinkResults(env, config.links);
    var links := Stdx.Oks(linkResults);
    errors := errors + Stdx.Errs(linkResults);
    var fileResults := FileResults(env, config.root, config.dirs);
    var files := Stdx.Oks(fileResults);
    errors := errors + Stdx.Errs(fileResults);
    if errors != [] {
      return Err(errors);
    }
    return Ok(World(config.root, links, files));
  }

  /** Files come directory by directory: the files of two runs of directories are those of
      the first, then those of the second. */
  lemma {:induction false} FileResultsAppend(env: Env, root: Path, a: seq<Config.Dir>, b: seq<Config.Dir>)
    ensures FileResults(env, root, a + b) == FileResults(env, root, a) + FileResults(env, root, b)
  {
    if a == [] {
      assert a + b == b;
    } else {
      assert (a + b)[0] == a[0];
      assert (a + b)[1..] == a[1..] + b;
      FileResultsAppend(env, root, a[1..], b);
    }
  }

  /** Every gathered file came from one of the manifest's directories and carries its
      `output` and `input`. */
  lemma {:induction false} FilesCarryTheirDir(env: Env, root: Path, dirs: seq<Config.Dir>)
    ensures forall f :: Ok(f) in FileResults(env, root, dirs) ==>
      exists d :: d in dirs && f.output == d.output && f.input == d.path
  {
    if dirs != [] {
      FilesCarryTheirDir(env, root, dirs[1..]);
      var own := DirFileResults(env, root, dirs[0]);
      forall f | Ok(f) in FileResults(env, root, dirs)
        ensures exists d :: d in dirs && f.output == d.output && f.input == d.path
      {
        if Ok(f) in own {
          var i :| 0 <= i < |own| && own[i] == Ok(f);
          assert dirs[0] in dirs;
        } else {
          assert Ok(f) in FileResults(env, root, dirs[1..]);
          var d :| d in dirs[1..] && f.output == d.output && f.input == d.path;
          assert d in dirs;
        }
      }
    }
  }

  /** The only file errors are failures of `path::absolute` and of reading: walk errors and
      entries that are not files never add to them. */
  lemma {:induction false} FileErrorsAreReadErrors(env: Env, root: Path, dirs: seq<Config.Dir>)
    ensures forall e :: e in Stdx.Errs(FileResults(env, root, dirs)) ==> e.Io? || e.ReadFailed?
  {
    Stdx.ErrsMembers(FileResults(env, root, dirs));
    if dirs != [] {
      FileErrorsAreReadErrors(env, root, dirs[1..]);
      Stdx.ErrsMembers(FileResults(env, root, dirs[1..]));
      var own := DirFileResults(env, root, dirs[0]);
      forall e: Error | Err(e) in own
        ensures e.Io? || e.ReadFailed?
      {
        var i :| 0 <= i < |own| && own[i] == Err(e);
      }
    }
  }

  /** Without any link or file error, the world holds every link, in manifest order, and
      every file. */
  lemma WorldHoldsEverything(env: Env, links: seq<Config.Link>, root: Path, dirs: seq<Config.Dir>)
    requires Stdx.Errs(LinkResults(env, links)) == [] && Stdx.Errs(FileResults(env, root, dirs)) == []
    ensures |Stdx.Oks(LinkResults(env, links))| == |links|
    ensures forall i :: 0 <= i < |links| ==>
      Ok(Stdx.Oks(LinkResults(env, links))[i]) == FetchLink(env, links[i])
    ensures |Stdx.Oks(FileResults(env, root, dirs))| == |FileResults(env, root, dirs)|
    ensures forall i :: 0 <= i < |FileResults(env, root, dirs)| ==>
      Ok(Stdx.Oks(FileResults(env, root, dirs))[i]) == FileResults(env, root, dirs)[i]
  {
    var results := LinkResults(env, links);
    Stdx.ErrsEmptyIffAllOk(results);
    Stdx.OksOfAllOk(results);
    assert forall i :: 0 <= i < |links| ==> results[i] == FetchLink(env, links[i]);
    Stdx.ErrsEmptyIffAllOk(FileResults(env, root, dirs));
    Stdx.OksOfAllOk(FileResults(env, root, dirs));
  }
}
