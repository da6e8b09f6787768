# dots, modelled in Dafny

`dots` is a dotfile manager. A manifest `dots.toml` sits in some ancestor of the working
directory. It lists links, which are files to download, and directories, whose files are
rendered as Handlebars templates and written to an output location. A file's first line
may carry an `@dots --path …` marker that overrides its destination.

This project models three parts of that program and proves properties of them:

- `src/stdx.rs`:
  - the collect-all-errors iteration `try_collect_all`;
  - the upward directory search `traverse_upwards`;
  - `remove_file`, which forgives a missing file;
  - `write_file`.
- `src/config.rs`:
  - the `@dots ` marker extraction;
  - the banner and hash logic of `Link::process`;
  - the step-by-step processing in `Dir::process`, `Link::process` and `Config::process`.
- `src/world.rs`: `World::new`, which locates the manifest and gathers every link and file
  while collecting their errors.

Modules:

- `Std`: `Option`, `Result`, an `io::Error` reduced to `NotFound` or `Other`, and two
  sequence lemmas.
- `Paths`: `std::path::Path`, as an absolute flag plus a list of components. `parent`
  drops the last component, `join` appends and `strip_prefix` removes a prefix.
- `Strs`: `str::lines`, `str::find`, `str::contains` and `[&str]::join`. `lines`
  follows Rust exactly:
  - it splits after each `'\n'`;
  - it drops one `'\r'` before each `'\n'`;
  - it yields no empty last line;
  - the empty string has no lines.
- `Output`: `OutputPath`, as a finished path.
- `System`: the errors the core reports and the answers of the operating system and the
  network (`Env`). It also holds `Disk`, a class whose `log` records every disk-changing
  call (remove, `create_dir_all`, write) in order.
- `Stdx`, `Config`, `World`: one module per core file.

Every effectful procedure (`write_file`, `Link::process`, the per-file closure of
`Dir::process`, `Dir::process` itself) has two parts:

- a method over `Disk` that makes its calls the way the source does;
- a pure function that gives a `Run`: the calls made, in order, and the result.

Each method's contract says it appends exactly its `Run`'s calls to the disk log and
returns its `Run`'s result. `Config::process` is the exception: it has no `Run` function
of its own. Its contract states the log as the calls of every link's `Run` (then every
directory's `Run`), and its result as the verdict of the link stage, or of the directory
stage. The lemmas then state the source's promises about those
functions. Examples:

- the hash is checked before anything is touched;
- `try_for_each` stops at the first failure, after the earlier files have made all their
  calls;
- a stage fails exactly when some step failed;
- a link's marker routes the file it writes.

`World::new` is a method over the same `Env`. Its contract gives the whole result:

- a single error for the fatal steps;
- otherwise every link error and then every file error, with a `World` only when there
  are none.

## Model

| member | source | states |
|---|---|---|
| Stdx.TryCollectAll | src/stdx.rs:14-33 | `Ok` exactly when every item is `Ok`, and then the values are all of them, in input order. Otherwise the error is every `Err` of the input, in order, including those after the first. |
| Stdx.TryCollectAllVec | src/stdx.rs:37-42 | The same three facts for the `Vec` instance. |
| Stdx.Oks | src/world.rs:112 | The `Ok` half of `partition_result` has at most as many items as the input. |
| Stdx.Errs | src/world.rs:112 | The `Err` half and the `Ok` half of `partition_result` together have exactly as many items as the input: the partition keeps every item. |
| Stdx.ErrsEmptyIffAllOk | src/stdx.rs:14-33 | There are no collected errors exactly when every item is `Ok`. This is the link between the error list and the `Ok` verdict. |
| Stdx.OksOfAllOk | src/stdx.rs:20-23 | When every item is `Ok`, the collected values have the input's length, and value `i` is item `i`'s value. |
| Stdx.ErrsAppend | src/stdx.rs:24-28 | The errors of a concatenation are those of the first part followed by those of the second. |
| Stdx.OksAppend | src/stdx.rs:20-23 | The values of a concatenation are those of the first part followed by those of the second. |
| Stdx.ErrsMembers | src/stdx.rs:24-28 | An error is collected exactly when it occurs as an `Err` in the input. |
| Stdx.TryCollectAllMixedExample | src/stdx.rs:133-138 | The unit test's mixed input gives `Err(["1","2","3"])`. |
| Stdx.TryCollectAllOkExample | src/stdx.rs:139-144 | The unit test's all-`Ok` input gives `Ok([1,1,2,2,3])`. |
| Stdx.TryCollectAllEmptyExample | src/stdx.rs:145-148 | The unit test's empty input gives `Ok([])`. |
| Stdx.Upwards | src/stdx.rs:96-114 | What `traverse_upwards` yields, closest first. `base` comes first, and each later path is the parent of the one before. The last path has no parent, and for an absolute `base` it is `/`. Every path is an ancestor of `base`, and there is one more path than `base` has components. |
| Stdx.AncestorChain | src/stdx.rs:107-109 | Every ancestor of a path is above it, and each one's parent is the next one up. The topmost has no parent. |
| Stdx.AncestorStep | src/stdx.rs:107-109 | The ancestor `k` levels up is above `base`. Its parent is the ancestor `k+1` levels up, or `None` once the components run out. |
| Stdx.TraverseUpwards | src/stdx.rs:104-114 | The loop that mirrors the `from_fn` closure yields exactly `Upwards(base)`. |
| Stdx.TraverseUpwardsExample | src/stdx.rs:151-165 | The unit test: `/home/user/project/name` yields itself, then `/home/user/project`, `/home/user`, `/home` and `/`. |
| Stdx.RemoveFile | src/stdx.rs:116-123 | Success exactly when `fs::remove_file` succeeded or failed with `NotFound`. Every other error is passed through unchanged. |
| Stdx.WriteFile | src/stdx.rs:73-94 | Appends exactly the calls of `WriteFileRun` to the disk log and returns its result. The steps are remove (a missing file is fine), no parent, `create_dir_all` and write, each failure with its own error. |
| Stdx.WriteFileWrites | src/stdx.rs:77-89 | `write_file` always tries the removal first. On success it has made exactly three calls: remove, create the parent directly above the path, write the given contents to the path. |
| Stdx.WriteFileNeedsParent | src/stdx.rs:81-83 | A path without a parent is never written: after the removal attempt the call fails. |
| Paths.Parent | src/stdx.rs:108 | `parent` is `None` exactly for a path of no components. Otherwise joining the last component back onto it gives the path again. |
| Paths.Join | src/config.rs:182 | `Path::join`: an absolute argument replaces the base. A relative one goes below the base, whose components come first, followed by its own. |
| Paths.StripPrefix | src/config.rs:156-162 | `strip_prefix` succeeds exactly when the prefix is an ancestor, and joining the relative rest back gives the path. |
| Strs.Lines | src/config.rs:164-165 | `str::lines` yields nothing exactly for the empty string, so `.next()` is `None` only then. |
| Strs.OneLine | src/config.rs:164-165 | A non-empty text without a newline is one line, kept as it is, including a final `'\r'`. |
| Strs.LinesHaveNoNewline | src/config.rs:174 | No line yielded by `lines` contains a newline. |
| Strs.LinesOfFirstLine | src/config.rs:164-165 | A text `line + "\n" + rest` has `line`, minus one trailing `'\r'`, as its first line, followed by the lines of `rest`. |
| Strs.JoinLinesInverse | src/config.rs:302 | Re-joining with `"\n"` the lines of a text without `'\r'` gives the text back, except for one trailing newline. |
| Strs.JoinWithoutNewline | src/config.rs:174 | Newline-free parts joined with a newline-free separator give a newline-free text. |
| Strs.JoinWith | src/config.rs:174 | `[&str]::join`: empty for no parts, and otherwise the first part begins the result and the last part ends it. |
| Strs.Contains | src/config.rs:296 | `str::contains` holds exactly when the token occurs at some position. |
| Strs.Find | src/config.rs:166 | `find` gives the first position where the token occurs, and `None` exactly when it occurs nowhere. |
| Strs.ContainsPrefix | src/config.rs:296 | A text that contains `p + q` contains `p`. |
| Config.MarkerArgs | src/config.rs:164-168 | There are marker arguments exactly when the first line exists and contains `@dots `. They are the text after its first occurrence: the line is what precedes, the token, then the arguments. |
| Config.MarkerPath | src/config.rs:164-171 | A destination override needs a first line that contains `@dots `. When the arguments after it parse, the override is their `--path`, so there is none without `--path`. Arguments that fail to parse give no override, rather than an error. |
| Config.MarkerIgnoresLaterLines | src/config.rs:164-168 | What follows the first line never changes the marker arguments, nor the destination they give. |
| Config.ExtractMarker | src/config.rs:164-185 | Without a parsed `--path` (no first line, no token, a parse failure or no `--path`), the contents are unchanged and the destination is `output.join(relative location)`. With one, the destination is that path and the contents have no newline. |
| Config.ExtractDropsMarkerLine | src/config.rs:170-175 | With a marker `--path`, the contents are the lines after the first, joined with `","`. |
| Config.ExtractOneLineMarker | src/config.rs:164-175 | A file that is only a marker line, without a newline, is rendered as the empty text. |
| Config.LinkContent | src/config.rs:265-318 | Fails exactly when `sha256` is given and differs from the digest of the fetched text, with the hash-mismatch error. Without `sha256` it never fails. On success the text to write is the configured marker line followed by the fetched text, laid out by `LinkFile`: hoisted marker, banner, rest. |
| Config.BannerLines | src/config.rs:307-312 | The banner has four lines, and none has a newline when the URL has none. |
| Config.CommentedLines | src/config.rs:313-317 | With one-line comments, the lines of the folded banner are exactly the comments of the banner lines, in order, less any final `'\r'`: each line is commented and ended by `"\n"`. |
| Config.CommentedNewlines | src/config.rs:313-317 | With one-line comments, the folded banner has exactly one newline per line. |
| Config.MarkerLine | src/config.rs:279-281 | Empty exactly without a `marker`. With one, and a one-line comment, it is exactly one line: the comment of `"@dots " + v`. |
| Config.LinkFile | src/config.rs:292-318 | When the first line has no token, or there is no first line, the file is the four commented banner lines followed by the contents unchanged. |
| Config.LinkFileHoistsMarker | src/config.rs:292-318 | When the first line has the token, the file is that line minus one `'\r'` and a `"\n"`, then the banner, then the remaining lines re-joined with `"\n"`. This holds for any text, CRLF included. For a text without `'\r'`, nothing is lost but one trailing newline. |
| Config.LinkFileOneLineMarker | src/config.rs:292-318 | A one-line text that has the token is that line, then `"\n"`, then the banner, with nothing after it. |
| Config.LinkMarkerOnFirstLine | src/config.rs:279-297 | With `marker = Some(v)`, a hash that matches or is absent, and a one-line comment that keeps its text, the written file's first line is that comment, and it contains `"@dots " + v`. |
| Config.LinkMarkerRoutesFile | src/config.rs:164-318 | Round trip: under the same conditions, extracting the marker from the file a link writes sends that file where the marker's `--path` says. |
| Config.ProcessLink | src/config.rs:257-328 | Appends exactly the calls of `LinkRun` to the disk log and returns its result: fetch, hash check, then `write_file`'s remove, `create_dir_all` and write at `root.join(path)`. |
| Config.LinkHashCheckedFirst | src/config.rs:266-275 | A wrong digest fails the link with the hash-mismatch error before any disk call. |
| Config.LinkRunWrites | src/config.rs:276-320 | A link that succeeds has removed, created the parent of, and written `root.join(path)` with exactly the assembled contents. |
| Config.ProcessFile | src/config.rs:150-235 | Appends exactly the calls of `FileRun` to the disk log and returns its result. The steps are read, strip the root, extract the marker, canonicalize, strip again, remove, parent, `create_dir_all`, register, render, write, each failure with its own error. |
| Config.PlaceFileWrites | src/config.rs:200-227 | A placed file that succeeds has made exactly three calls: remove the destination, create its parent, write the rendered template to it. |
| Config.FileRunPlacesExtracted | src/config.rs:164-227 | A read file below the root that succeeds is placed at the destination, and with the contents, that marker extraction gives. |
| Config.ProcessDir | src/config.rs:143-236 | Appends exactly the calls of `DirProcessRun` to the disk log and returns its result: the walk's regular files are processed in order, stopping at the first that fails. |
| Config.FirstFailure | src/config.rs:150 | `try_for_each`: a failure is the result of some step, and every step before it succeeded. |
| Config.FirstFailureStops | src/config.rs:150 | `try_for_each` stops at the first failing file: that file's result is the whole result, every earlier file has made all its calls, and no later file makes any. |
| Config.FirstFailureAllOk | src/config.rs:150 | `try_for_each` succeeds exactly when every file does, and then every file's calls have been made in order. |
| Config.OpsOfCons | src/config.rs:150 | The calls of a sequence of steps are the first step's, then the rest's. |
| Config.RunsSnoc | src/config.rs:71-74 | One more step at the end of a prefix adds its calls and its error, if any, at the end. |
| Config.StageStep | src/config.rs:71-74 | One step of a stage: its calls follow the earlier ones, and its error, if any, joins the errors collected so far. |
| Config.ProcessLinks | src/config.rs:71-74 | Every link runs, in manifest order. The log gains every link's calls, and the errors are every failing link's error, in order. |
| Config.ProcessDirs | src/config.rs:86-89 | Every directory runs, in manifest order, with the same log and error facts. |
| Config.LinkStageAsWritten | src/config.rs:79-83 | As written, the link stage errs exactly when no link failed, and its error is the links error. |
| Config.LinkStage | src/config.rs:79-83 | Corrected, the link stage errs exactly when some link failed, with the links error. |
| Config.DirStage | src/config.rs:94-98 | The directory stage errs exactly when some directory failed, with the directories error. |
| Config.ProcessAsWritten | src/config.rs:70-102 | `Config::process` as written: if the link stage's verdict is an error, that is the result and no directory runs. Otherwise every directory runs and the result is the directory stage's verdict. |
| Config.StageErrorsEmpty | src/config.rs:79-98 | A stage has no errors exactly when each of its steps succeeded. |
| Config.LinkStageAsWrittenInverted | src/config.rs:79-83 | As written, the link stage fails exactly when every link succeeded. |
| Config.NoLinksStopAsWritten | src/config.rs:79-80 | As written, a manifest without links stops `Config::process` with the links error. |
| Config.Process | src/config.rs:70-102 | `Config::process` with line 79 corrected: the same two stages, with the link stage failing when some link failed. |
| Config.LinkStageReportsFailures | src/config.rs:79-83 | The corrected link stage fails exactly when some link failed. |
| Config.DirStageReportsFailures | src/config.rs:94-98 | The directory stage fails exactly when some directory failed. |
| System.FileEntries | src/config.rs:146-149 | `flatten` plus the `is_file` filter keeps exactly the walk's `Ok` entries that are regular files. Walk errors are dropped. |
| World.FindConfig | src/world.rs:66-68 | The first yielded directory whose `dots.toml` exists, with none before it; `None` exactly when none has one. |
| World.Locate | src/world.rs:64-89 | A working-directory failure gives that error. When no ancestor holds a manifest, the error is "not found". On success the root holds a manifest and is an ancestor of the working directory. |
| World.LocateReadsManifest | src/world.rs:78-89 | Once the closest directory holding `dots.toml` is found, a failed read gives the read error and a failed parse gives the parse error. Otherwise the result is the parsed manifest, links and dirs included, with `root` set to that directory. |
| World.LocateConfig | src/world.rs:64-89 | The fatal steps made one after the other give exactly `Locate`. |
| World.AncestorPosition | src/world.rs:66-67 | Every ancestor of a path is among those `traverse_upwards` yields, at the position of its distance. |
| World.RootIsClosest | src/world.rs:66-68 | No directory closer to the working directory than the root holds a manifest. |
| World.FetchLink | src/world.rs:96-110 | A link gathers exactly when its fetch succeeds, otherwise with the HTTP error. It carries `url`, `path`, `sha256` and `marker` unchanged, plus the fetched contents, and no hash check happens here. |
| World.ReadFile | src/world.rs:126-140 | A file gathers exactly when `path::absolute` and the read succeed. It carries its absolute location, its contents, and its directory's `output` and `input`. Its only errors are I/O and read errors. |
| World.DirFileResults | src/world.rs:121-141 | Every gathered file of a directory is a regular file of the walk of `root.join(input)`, at that entry's absolute location. It carries the directory's `output` and `input`. The results follow the walk's order. |
| World.New | src/world.rs:63-157 | A fatal failure gives `Err` with exactly that one error. Otherwise the errors are every link error, then every file error, in order. `Err(errors)` results exactly when that list is non-empty. Otherwise the `World` holds the root and every gathered link and file. |
| World.FileResultsAppend | src/world.rs:118-121 | The files of two runs of directories are the first run's, then the second's: files come directory by directory. |
| World.FilesCarryTheirDir | src/world.rs:118-141 | Every gathered file came from one of the manifest's directories and carries its `output` and `input`. |
| World.FileErrorsAreReadErrors | src/world.rs:122-132 | The only file errors are `path::absolute` and read failures. Walk errors and entries that are not files never add to the errors. |
| World.WorldHoldsEverything | src/world.rs:148-156 | With no errors, the world holds one link per manifest link, in order, each the fetched link. It also holds one file per gathered file, in order, where file `i` is the `i`-th gathered file. |

## Left out

- Error messages, logging and colours: each failure is a constructor of `System.Error`
  carrying the context its message names. `eyre` chains, `log::` calls and ANSI strings
  are not modelled.
- I/O is given as the fields of `System.Env`. Asking the same question twice gives the
  same answer. This covers:
  - the working directory and `Path::exists`;
  - reading, canonicalizing and `path::absolute`;
  - the `WalkDir` walk;
  - HTTP fetches (`ureq`);
  - the answer to each disk-changing call.

  The disk is modelled only as the log of calls made to it. The effect of a call on later
  reads is not modelled.
- TOML parsing, marker argument parsing (`shellwords::split` plus `clap`),
  `commented::comment`, `sha256::digest` and Handlebars registration and rendering are
  given as uninterpreted functions.
- `src/output_path.rs`: the `{config}`/`{home}` interpolation is delegated to other crates.
  `OutputPath` is a finished path.
- `Config::find` (src/config.rs:42-67) is not modelled separately. It makes the same
  steps as the fatal part of `World::new`, returning one error instead of a list, which
  `World.Locate` models.
- `PathExt::show` and `PathExt::strip_prefix` (src/stdx.rs:48-66) add only colour and
  error messages to `Path::strip_prefix`, which `Paths.StripPrefix` models.
- Paths: components are opaque strings. There are no Windows prefixes and no `.` or
  `..` handling. A trailing `/` is not distinguished.
- System.FileEntries: states which entries are kept and bounds their number. That they
  keep the walk's order is stated by its definition, not by its contract.
- Config.ProcessLink: the remove, parent, `create_dir_all` and write steps of
  `Link::process` (src/config.rs:283-320) are the same steps, with the same error
  contexts, as `write_file`, and are modelled by `Stdx.WriteFileRun`.
- World.New: the snapshot is mid-refactor. `World::new` destructures a field `input`
  of `config::Dir` (src/world.rs:121), but the field is named `path`
  (src/config.rs:134-139). The model reads `path`. `World::new` takes no argument
  (src/world.rs:63), as modelled.
- Config.DirProcessRun: `Dir::process` walks `path` as written (src/config.rs:146), while
  `World::new` walks `root.join(input)` (src/world.rs:122). Each is modelled as written.
- Config.ExtractMarker: the lines after a marker line are re-joined with `","`
  (src/config.rs:174), as written. `Link::process` re-joins the same kind of lines with
  `"\n"` (src/config.rs:302).
- Strs.Lines: follows `str::lines` of current Rust, where a final line that ends in
  `'\r'` without a `'\n'` keeps that `'\r'`.
- `src/main.rs`, `src/cli.rs`, `src/lib.rs`, `src/io/` and `tests/lib.rs` are not part
  of this model. They hold the apply loop, argument parsing, module wiring and a
  tempdir-based test harness.

## Findings

| source | as written | input that shows it | evidently intended | confidence | as-written member | corrected member |
|---|---|---|---|---|---|---|
| src/config.rs:79-83 | The link stage returns `Err("encountered errors when downloading links")` when `errors.is_empty()`, and `Ok(())` otherwise. | A manifest with no links, or one whose links all download: `Config::process` stops with the links error and never processes the directories. If some link fails, the stage passes. | Fail when some link failed (`!errors.is_empty()`), as the message and the directory stage at lines 94-96 say. | not executed | Config.LinkStageAsWritten, Config.ProcessAsWritten, Config.NoLinksStopAsWritten, Config.LinkStageAsWrittenInverted | Config.LinkStage, Config.Process, Config.LinkStageReportsFailures |
