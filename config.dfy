/** `src/config.rs`: the manifest types, the `@dots ` marker protocol, and the old
    processing pipeline (`Config::process`, `Link::process`, `Dir::process`) that fetches,
    checks, rewrites and writes files directly.

    The effectful steps are methods over a `Disk`; each is proved equal to a pure `Run`
    (the disk-changing calls it makes, in order, and its result), about which the lemmas
    speak. Comment syntax, hashing, marker argument parsing and template rendering are
    collaborators given as `Tools`. */
module Config {
  import opened Std
  import opened Paths
  import opened Strs
  import opened Output
  import opened System
  import Stdx

  /** `Config::FILE_NAME` */
  const FILE_NAME: string := "dots.toml"

  /** `Marker::MARKER`, the token that introduces a marker line. */
  const MARKER: string := "@dots "

  /** A `[[link]]` entry of the manifest. */
  datatype Link = Link(url: string, path: Path, sha256: Option<string>, marker: Option<string>)

  /** A `[[dir]]` entry of the manifest. */
  datatype Dir = Dir(path: Path, output: OutputPath)

  /** The manifest, with `root` the directory that holds it. */
  datatype Config = Config(root: Path, links: seq<Link>, dirs: seq<Dir>)

  /** The arguments a marker line takes: an optional `--path`. */
  datatype Marker = Marker(path: Option<OutputPath>)

  /** The collaborators the core calls but does not define:
      `shellwords::split` then `Marker::try_parse_from` (`parseMarker`),
      `commented::comment` (`comment`), `sha256::digest` (`digest`), and Handlebars'
      `register_template_string` and `render` with no variables bound. */
  datatype Tools = Tools(
    parseMarker: string -> Result<Marker, string>,
    comment: (string, Path) -> string,
    digest: string -> string,
    registerTemplate: string -> Result<(), string>,
    renderTemplate: string -> Result<string, string>)

  // ------------------------------------------------------------------
  // Marker extraction (Dir::process)
  // ------------------------------------------------------------------

  /** The text after the first `@dots ` on the first line, if the first line has one. */
  function MarkerArgs(contents: string): (r: Option<string>)
    ensures r.Some? <==> Lines(contents) != [] && Contains(Lines(contents)[0], MARKER)
    ensures r.Some? ==>
      var line := Lines(contents)[0];
      var i := Find(line, MARKER).value;
      line == line[..i] + MARKER + r.value
  {
    var lines := Lines(contents);
    if lines == [] then None
    else
      match Find(lines[0], MARKER)
      case None => None
      case Some(i) =>
        assert lines[0] == lines[0][..i] + lines[0][i..i + |MARKER|] + lines[0][i + |MARKER|..];
        Some(lines[0][i + |MARKER|..])
  }

  /** The `--path` of a marker on the first line that parses; `None` when there is no first
      line, no token, a parse failure or no `--path`. A parse failure is not an error. */
  function MarkerPath(contents: string, parse: string -> Result<Marker, string>): (r: Option<OutputPath>)
    ensures r.Some? ==> Lines(contents) != [] && Contains(Lines(contents)[0], MARKER)
    ensures MarkerArgs(contents).Some? && parse(MarkerArgs(contents).value).Err? ==> r.None?
    ensures MarkerArgs(contents).Some? && parse(MarkerArgs(contents).value).Ok? ==>
      r == parse(MarkerArgs(contents).value).value.path
  {
    match MarkerArgs(contents)
    case None => None
    case Some(args) =>
      match parse(args)
      case Err(_) => None
      case Ok(marker) => marker.path
  }

  /** The contents to render and the destination of one file (src/config.rs:164-185). A
      marker `--path` overrides the destination and drops the first line, re-joining the
      others with `","`; otherwise the contents stay and the destination is the file's
      location below the root, joined onto the directory's `output`. */
  function ExtractMarker(contents: string, output: OutputPath, relative: Path,
                         parse: string -> Result<Marker, string>): (r: (string, OutputPath))
    ensures MarkerPath(contents, parse).None? ==> r == (contents, OutputPath(Join(output.path, relative)))
    ensures MarkerPath(contents, parse).Some? ==> r.1 == MarkerPath(contents, parse).value && '\n' !in r.0
  {
    match MarkerPath(contents, parse)
    case Some(p) =>
      LinesHaveNoNewline(contents);
      var rest := Lines(contents)[1..];
      assert forall k :: 0 <= k < |rest| ==> rest[k] == Lines(contents)[k + 1];
      JoinWithoutNewline(rest, ",");
      (JoinWith(rest, ","), p)
    case None => (contents, OutputPath(Join(output.path, relative)))
  }

  /** Only the first line is looked at: what follows it never changes the marker's
      arguments, nor the destination they give. */
  lemma MarkerIgnoresLaterLines(line: string, rest1: string, rest2: string,
                                parse: string -> Result<Marker, string>)
    requires '\n' !in line
    ensures MarkerArgs(line + "\n" + rest1) == MarkerArgs(line + "\n" + rest2)
    ensures MarkerPath(line + "\n" + rest1, parse) == MarkerPath(line + "\n" + rest2, parse)
  {
    LinesOfFirstLine(line, rest1);
    LinesOfFirstLine(line, rest2);
  }

  /** With an overriding marker, the rendered contents are the lines after the marker line,
      joined with `","`. */
  lemma ExtractDropsMarkerLine(line: string, rest: string, output: OutputPath, relative: Path,
                               parse: string -> Result<Marker, string>)
    requires '\n' !in line
    requires MarkerPath(line + "\n" + rest, parse).Some?
    ensures ExtractMarker(line + "\n" + rest, output, relative, parse).0 == JoinWith(Lines(rest), ",")
  {
    LinesOfFirstLine(line, rest);
    assert Lines(line + "\n" + rest)[1..] == Lines(rest);
  }

  /** A file that is only a marker line, without a newline, is rendered as the empty text. */
  lemma ExtractOneLineMarker(line: string, output: OutputPath, relative: Path,
                             parse: string -> Result<Marker, string>)
    requires '\n' !in line
    requires MarkerPath(line, parse).Some?
    ensures ExtractMarker(line, output, relative, parse).0 == ""
  {
    OneLine(line);
  }

  // ------------------------------------------------------------------
  // Link contents (Link::process)
  // ------------------------------------------------------------------

  /** The four lines of the generated-file banner, before commenting (src/config.rs:307-312). */
  function BannerLines(url: string): (r: seq<string>)
    ensures |r| == 4
    ensures '\n' !in url ==> forall k :: 0 <= k < |r| ==> '\n' !in r[k]
  {
    ["@generated by `" + MARKER + "`", "Do not edit by hand.", "", "downloaded from: " + url]
  }

  /** Each line commented for `path` and followed by a newline (src/config.rs:313-317). */
  function Commented(lines: seq<string>, path: Path, comment: (string, Path) -> string): string
  {
    if lines == [] then ""
    else
      assert forall k :: 0 <= k < |lines| - 1 ==> lines[1..][k] == lines[k + 1];
      comment(lines[0], path) + "\n" + Commented(lines[1..], path, comment)
  }

  /** With one-line comments, the commented text has exactly one newline per line. */
  lemma {:induction false} CommentedNewlines(lines: seq<string>, path: Path, comment: (string, Path) -> string)
    requires forall k :: 0 <= k < |lines| ==> '\n' !in comment(lines[k], path)
    ensures multiset(Commented(lines, path, comment))['\n'] == |lines|
  {
    if lines != [] {
      var tail := lines[1..];
      assert forall k :: 0 <= k < |tail| ==> tail[k] == lines[k + 1];
      CommentedNewlines(tail, path, comment);
      var first := comment(lines[0], path);
      var rest := Commented(tail, path, comment);
      assert Commented(lines, path, comment) == first + "\n" + rest;
      assert multiset(first + "\n" + rest) == multiset(first) + multiset("\n") + multiset(rest);
    }
  }

  /** With one-line comments, the lines of the commented text are the comments of the
      given lines, in order, each without a final `'\r'`. */
  lemma {:induction false} CommentedLines(lines: seq<string>, path: Path, comment: (string, Path) -> string)
    requires forall k :: 0 <= k < |lines| ==> '\n' !in comment(lines[k], path)
    ensures |Lines(Commented(lines, path, comment))| == |lines|
    ensures forall k :: 0 <= k < |lines| ==>
      Lines(Commented(lines, path, comment))[k] == StripCr(comment(lines[k], path))
  {
    if lines != [] {
      var tail := lines[1..];
      assert forall k :: 0 <= k < |tail| ==> tail[k] == lines[k + 1];
      CommentedLines(tail, path, comment);
      var first := comment(lines[0], path);
      var rest := Commented(tail, path, comment);
      assert Commented(lines, path, comment) == first + "\n" + rest;
      LinesOfFirstLine(first, rest);
      var all := Lines(Commented(lines, path, comment));
      assert all == [StripCr(first)] + Lines(rest);
      assert forall k :: 1 <= k < |lines| ==> all[k] == Lines(rest)[k - 1];
    }
  }

  /** The marker comment line for a link's configured `marker`, or nothing (src/config.rs:279-281). */
  function MarkerLine(marker: Option<string>, path: Path, comment: (string, Path) -> string): (r: string)
    ensures r == [] <==> marker.None?
    ensures marker.Some? && '\n' !in comment(MARKER + marker.value, path) ==>
      Lines(r) == [StripCr(comment(MARKER + marker.value, path))]
  {
    if marker.None? then ""
    else
      var c := comment(MARKER + marker.value, path);
      if '\n' in c then c + "\n"
      else
        LinesOfFirstLine(c, "");
        assert c + "\n" + "" == c + "\n";
        c + "\n"
  }

  /** What `Link::process` writes for `contents` (src/config.rs:292-318): a first line that
      contains the token is hoisted above the banner, and the other lines follow, re-joined
      with `"\n"`; otherwise the banner is followed by `contents` unchanged. */
  function LinkFile(contents: string, url: string, path: Path, comment: (string, Path) -> string): (r: string)
    ensures Lines(contents) == [] || !Contains(Lines(contents)[0], MARKER) ==>
      r == Commented(BannerLines(url), path, comment) + contents
  {
    var lines := Lines(contents);
    var hoisted := lines != [] && Contains(lines[0], MARKER);
    (if hoisted then lines[0] + "\n" else "")
      + Commented(BannerLines(url), path, comment)
      + (if hoisted then JoinWith(lines[1..], "\n") else contents)
  }

  /** The hash check and the contents of a fetched link (src/config.rs:266-282, 292-318). */
  function LinkContent(fetched: string, url: string, sha256: Option<string>, marker: Option<string>,
                       path: Path, tools: Tools): (r: Result<string, Error>)
    ensures r.Err? <==> sha256.Some? && tools.digest(fetched) != sha256.value
    ensures r.Err? ==> r.error == HashMismatch(url, tools.digest(fetched), sha256.value)
    ensures r.Ok? ==> r.value == LinkFile(MarkerLine(marker, path, tools.comment) + fetched, url, path, tools.comment)
  {
    var actual := tools.digest(fetched);
    if sha256.Some? && actual != sha256.value then Err(HashMismatch(url, actual, sha256.value))
    else Ok(LinkFile(MarkerLine(marker, path, tools.comment) + fetched, url, path, tools.comment))
  }

  /** A first line with the token moves above the banner, without its `'\r'`, and the other
      lines follow re-joined with `"\n"`. For text without carriage returns nothing is lost
      but one trailing newline. */
  lemma LinkFileHoistsMarker(line: string, rest: string, url: string, path: Path,
                             comment: (string, Path) -> string)
    requires '\n' !in line && Contains(StripCr(line), MARKER)
    ensures LinkFile(line + "\n" + rest, url, path, comment)
         == StripCr(line) + "\n" + Commented(BannerLines(url), path, comment) + JoinWith(Lines(rest), "\n")
    ensures '\r' !in line + rest ==>
      LinkFile(line + "\n" + rest, url, path, comment) + TrailingNewline(rest)
         == line + "\n" + Commented(BannerLines(url), path, comment) + rest
  {
    LinesOfFirstLine(line, rest);
    assert Lines(line + "\n" + rest)[1..] == Lines(rest);
    if '\r' !in line + rest {
      assert forall c :: c in line ==> c in line + rest;
      assert forall c :: c in rest ==> c in line + rest;
      StripCrWithoutCr(line);
      JoinLinesInverse(rest);
      var banner := line + "\n" + Commented(BannerLines(url), path, comment);
      ConcatAssoc(banner, JoinWith(Lines(rest), "\n"), TrailingNewline(rest));
    }
  }

  /** A text of one line that has the token is that line, moved above the banner, and
      nothing after the banner. */
  lemma LinkFileOneLineMarker(line: string, url: string, path: Path, comment: (string, Path) -> string)
    requires '\n' !in line && Contains(line, MARKER)
    ensures LinkFile(line, url, path, comment) == line + "\n" + Commented(BannerLines(url), path, comment)
  {
    OneLine(line);
  }

  /** A one-line comment that contains its text. */
  predicate CommentKeepsLine(c: string, text: string)
  {
    '\n' !in c && StripCr(c) == c && Contains(c, text)
  }

  /** With `marker = Some(v)`, the written file's first line is the marker comment, and it
      contains `"@dots " + v`. */
  lemma LinkMarkerOnFirstLine(fetched: string, url: string, sha256: Option<string>, v: string,
                              path: Path, tools: Tools)
    requires CommentKeepsLine(tools.comment(MARKER + v, path), MARKER + v)
    requires sha256.None? || sha256 == Some(tools.digest(fetched))
    ensures LinkContent(fetched, url, sha256, Some(v), path, tools).Ok?
    ensures var written := LinkContent(fetched, url, sha256, Some(v), path, tools).value;
      Lines(written) != [] && Lines(written)[0] == tools.comment(MARKER + v, path)
      && Contains(Lines(written)[0], MARKER + v)
  {
    var c := tools.comment(MARKER + v, path);
    ContainsPrefix(c, MARKER, v);
    LinesOfFirstLine(c, fetched);
    assert MarkerLine(Some(v), path, tools.comment) + fetched == c + "\n" + fetched;
    var after := Commented(BannerLines(url), path, tools.comment) + JoinWith(Lines(fetched), "\n");
    assert LinkFile(c + "\n" + fetched, url, path, tools.comment) == c + "\n" + after by {
      assert Lines(c + "\n" + fetched)[1..] == Lines(fetched);
    }
    LinesOfFirstLine(c, after);
  }

  /** The round trip of a link's marker: the file a link with `marker = Some(v)` writes,
      when read again as a plain file, is sent where that marker's `--path` says. */
  lemma LinkMarkerRoutesFile(fetched: string, url: string, sha256: Option<string>, v: string,
                             path: Path, tools: Tools, output: OutputPath, relative: Path, p: OutputPath)
    requires CommentKeepsLine(tools.comment(MARKER + v, path), MARKER + v)
    requires sha256.None? || sha256 == Some(tools.digest(fetched))
    requires MarkerPath(tools.comment(MARKER + v, path), tools.parseMarker) == Some(p)
    ensures LinkContent(fetched, url, sha256, Some(v), path, tools).Ok?
    ensures ExtractMarker(LinkContent(fetched, url, sha256, Some(v), path, tools).value,
                          output, relative, tools.parseMarker).1 == p
  {
    var c := tools.comment(MARKER + v, path);
    LinkMarkerOnFirstLine(fetched, url, sha256, v, path, tools);
    LinesOfFirstLine(c, "");
    assert c + "\n" + "" == c + "\n";
    assert Lines(c) == [c] by {
      assert c != [];
      assert LineEnd(c) == |c|;
    }
  }

  // ------------------------------------------------------------------
  // Link::process
  // ------------------------------------------------------------------

  /** `Link::process` (src/config.rs:257-328): fetch, check the hash, then remove the old
      file, create the parent directory and write the new contents. */
  function LinkRun(env: Env, tools: Tools, root: Path, link: Link): Run
  {
    match env.fetch(link.url)
    case Err(detail) => Run([], Err(HttpFailed(detail)))
    case Ok(fetched) => LinkFetched(env, tools, Join(root, link.path), link, fetched)
  }

  /** The hash check and contents of a fetched link. */
  function LinkFetched(env: Env, tools: Tools, path: Path, link: Link, fetched: string): Run
  {
    match LinkContent(fetched, link.url, link.sha256, link.marker, path, tools)
    case Err(e) => Run([], Err(e))
    case Ok(text) => Stdx.WriteFileRun(env, path, text)
  }

  /** `Link::process`, making its disk calls one after the other. */
  method ProcessLink(disk: Disk, env: Env, tools: Tools, root: Path, link: Link) returns (r: Result<(), Error>)
    modifies disk
    ensures disk.log == old(disk.log) + LinkRun(env, tools, root, link).ops
    ensures r == LinkRun(env, tools, root, link).result
  {
    var fetched := env.fetch(link.url);
    if fetched.Err? {
      return Err(HttpFailed(fetched.error));
    }
    var path := Join(root, link.path);
    var text := LinkContent(fetched.value, link.url, link.sha256, link.marker, path, tools);
    if text.Err? {
      return Err(text.error);
    }
    r := Stdx.WriteFile(disk, env, path, text.value);
  }

  /** A wrong digest fails the link before anything on disk is touched. */
  lemma LinkHashCheckedFirst(env: Env, tools: Tools, root: Path, link: Link, fetched: string)
    requires env.fetch(link.url) == Ok(fetched)
    requires link.sha256.Some? && tools.digest(fetched) != link.sha256.value
    ensures LinkRun(env, tools, root, link)
         == Run([], Err(HashMismatch(link.url, tools.digest(fetched), link.sha256.value)))
  {
  }

  /** A link that succeeds has removed, made the parent of, and written its destination
      `root.join(path)`, with exactly the assembled contents. */
  lemma LinkRunWrites(env: Env, tools: Tools, root: Path, link: Link, fetched: string)
    requires env.fetch(link.url) == Ok(fetched)
    ensures var path := Join(root, link.path);
      var text := LinkContent(fetched, link.url, link.sha256, link.marker, path, tools);
      LinkRun(env, tools, root, link).result.Ok? ==>
        text.Ok? && Parent(path).Some? &&
        LinkRun(env, tools, root, link).ops
          == [Remove(path), CreateDirAll(Parent(path).value), Write(path, text.value)]
  {
  }

  // ------------------------------------------------------------------
  // Dir::process
  // ------------------------------------------------------------------

  /** Remove, create the parent, render and write one file (src/config.rs:200-227). */
  function PlaceFile(env: Env, tools: Tools, dest: Path, contents: string): Run
  {
    match Stdx.RemoveFile(env.respond(Remove(dest)))
    case Err(e) => Run([Remove(dest)], Err(Io(e)))
    case Ok(_) =>
      match Parent(dest)
      case None => Run([Remove(dest)], Err(NoParent(dest)))
      case Some(dir) => PlaceInDir(env, tools, dest, dir, contents)
  }

  /** Create the parent directory, then render. */
  function PlaceInDir(env: Env, tools: Tools, dest: Path, dir: Path, contents: string): Run
  {
    match env.respond(CreateDirAll(dir))
    case Err(e) => Run([Remove(dest), CreateDirAll(dir)], Err(CreateDirFailed(dir, e)))
    case Ok(_) => RenderFile(env, tools, dest, dir, contents)
  }

  /** Compile and render the template, then write the result. */
  function RenderFile(env: Env, tools: Tools, dest: Path, dir: Path, contents: string): Run
  {
    var made := [Remove(dest), CreateDirAll(dir)];
    match tools.registerTemplate(contents)
    case Err(d) => Run(made, Err(TemplateParseFailed(dest, d)))
    case Ok(_) =>
      match tools.renderTemplate(contents)
      case Err(d) => Run(made, Err(TemplateRenderFailed(dest, d)))
      case Ok(rendered) =>
        match env.respond(Write(dest, rendered))
        case Err(e) => Run(made + [Write(dest, rendered)], Err(WriteFailed(dest, e)))
        case Ok(_) => Run(made + [Write(dest, rendered)], Ok(()))
  }

  /** The closure `Dir::process` runs for one walked file (src/config.rs:150-235): read it,
      locate it below the root, extract the marker, canonicalize, then place it. */
  function FileRun(env: Env, tools: Tools, root: Path, output: OutputPath, entry: DirEntry): Run
  {
    match env.readToString(entry.path)
    case Err(e) => Run([], Err(ReadFailed(entry.path, e)))
    case Ok(text) => FileRead(env, tools, root, output, entry.path, text)
  }

  /** Locate a read file below the root, route it by its marker, and check its canonical
      location. */
  function FileRead(env: Env, tools: Tools, root: Path, output: OutputPath, source: Path, text: string): Run
  {
    match StripPrefix(source, root)
    case None => Run([], Err(StripPrefixFailed(root, source)))
    case Some(relative) =>
      var routed := ExtractMarker(text, output, relative, tools.parseMarker);
      match env.canonicalize(source)
      case Err(e) => Run([], Err(CanonicalizeFailed(source, e)))
      case Ok(canonical) =>
        if StripPrefix(canonical, root).None? then Run([], Err(StripPrefixFailed(root, canonical)))
        else PlaceFile(env, tools, routed.1.path, routed.0)
  }

  /** The calls of a sequence of steps, one after the other. */
  function OpsOf(runs: seq<Run>): seq<FsOp>
  {
    if runs == [] then [] else OpsOf(runs[..|runs| - 1]) + runs[|runs| - 1].ops
  }

  /** The result of each step: a projection of the runs, used only to feed `Stdx.Errs`. */
  function ResultsOf(runs: seq<Run>): (r: seq<Result<(), Error>>)
    ensures |r| == |runs|
    ensures forall k :: 0 <= k < |runs| ==> r[k] == runs[k].result
  {
    seq(|runs|, k requires 0 <= k < |runs| => runs[k].result)
  }

  /** `try_for_each`: run the steps in order and stop at the first that fails. */
  function FirstFailure(runs: seq<Run>): (r: Run)
    ensures r.result.Err? ==> exists k :: 0 <= k < |runs| && runs[k].result == r.result
                                          && forall j :: 0 <= j < k ==> runs[j].result.Ok?
  {
    if runs == [] then Run([], Ok(()))
    else if runs[0].result.Err? then runs[0]
    else
      var rest := FirstFailure(runs[1..]);
      assert forall k :: 0 <= k < |runs| - 1 ==> runs[1..][k] == runs[k + 1];
      Run(runs[0].ops + rest.ops, rest.result)
  }

  /** One more step at the end of a prefix. */
  lemma RunsSnoc(runs: seq<Run>, i: nat)
    requires i < |runs|
    ensures OpsOf(runs[..i + 1]) == OpsOf(runs[..i]) + runs[i].ops
    ensures Stdx.Errs(ResultsOf(runs[..i + 1])) == Stdx.Errs(ResultsOf(runs[..i])) + Stdx.Errs([runs[i].result])
  {
    assert runs[..i + 1][..i] == runs[..i];
    assert ResultsOf(runs[..i + 1]) == ResultsOf(runs[..i]) + [runs[i].result];
    Stdx.ErrsAppend(ResultsOf(runs[..i]), [runs[i].result]);
  }

  /** One step of a stage: its calls follow the earlier ones, and its error, if any, joins the
      errors collected so far. */
  lemma StageStep(log0: seq<FsOp>, runs: seq<Run>, i: nat, log: seq<FsOp>, errors: seq<Error>)
    requires i < |runs|
    requires log == log0 + OpsOf(runs[..i])
    requires errors == StageErrors(runs[..i])
    ensures log + runs[i].ops == log0 + OpsOf(runs[..i + 1])
    ensures StageErrors(runs[..i + 1])
      == if runs[i].result.Err? then errors + [runs[i].result.error] else errors
  {
    RunsSnoc(runs, i);
    ConcatAssoc(log0, OpsOf(runs[..i]), runs[i].ops);
    assert Stdx.Errs([runs[i].result]) == if runs[i].result.Err? then [runs[i].result.error] else [];
  }

  /** A sequence of steps succeeds exactly when every step does, and then it has made every
      step's calls in order. */
  lemma {:induction false} FirstFailureAllOk(runs: seq<Run>)
    ensures FirstFailure(runs).result.Ok? <==> forall k :: 0 <= k < |runs| ==> runs[k].result.Ok?
    ensures FirstFailure(runs).result.Ok? ==> FirstFailure(runs).ops == OpsOf(runs)
  {
    if runs != [] {
      FirstFailureAllOk(runs[1..]);
      assert forall k :: 1 <= k < |runs| ==> runs[k] == runs[1..][k - 1];
      if FirstFailure(runs).result.Ok? {
        OpsOfCons(runs);
      }
    }
  }

  /** The calls of a non-empty sequence: the first step's, then the rest's. */
  lemma {:induction false} OpsOfCons(runs: seq<Run>)
    requires runs != []
    ensures OpsOf(runs) == runs[0].ops + OpsOf(runs[1..])
    decreases |runs|
  {
    if |runs| > 1 {
      var n := |runs|;
      assert runs[..n - 1][1..] == runs[1..][..n - 2];
      assert runs[..n - 1][0] == runs[0];
      OpsOfCons(runs[..n - 1]);
      assert runs[1..][n - 2] == runs[n - 1];
    } else {
      assert runs[..0] == [] && runs[1..] == [];
    }
  }

  /** `try_for_each` stops at the first failing step: its result is the whole's, the steps
      before it have made all their calls, and no later step runs. */
  lemma {:induction false} FirstFailureStops(runs: seq<Run>, k: nat)
    requires k < |runs|
    requires forall j :: 0 <= j < k ==> runs[j].result.Ok?
    requires runs[k].result.Err?
    ensures FirstFailure(runs) == Run(OpsOf(runs[..k]) + runs[k].ops, runs[k].result)
    decreases k
  {
    if k == 0 {
      assert runs[..0] == [];
    } else {
      assert runs[1..][k - 1] == runs[k];
      assert forall j :: 0 <= j < k - 1 ==> runs[1..][j] == runs[j + 1];
      FirstFailureStops(runs[1..], k - 1);
      OpsOfCons(runs[..k]);
      assert runs[..k][0] == runs[0];
      assert runs[..k][1..] == runs[1..][..k - 1];
    }
  }

  /** The steps of a directory's walked files. */
  function FileRuns(env: Env, tools: Tools, root: Path, output: OutputPath, entries: seq<DirEntry>): (r: seq<Run>)
    ensures |r| == |entries|
  {
    seq(|entries|, k requires 0 <= k < |entries| => FileRun(env, tools, root, output, entries[k]))
  }

  /** `Dir::process` (src/config.rs:143-236): the walk starts at `path` as written, and the
      files are processed until one fails. */
  function DirProcessRun(env: Env, tools: Tools, root: Path, dir: Dir): Run
  {
    FirstFailure(FileRuns(env, tools, root, dir.output, FileEntries(env.walk(dir.path))))
  }

  /** The closure of `Dir::process` for one file, making its disk calls one after the other. */
  method ProcessFile(disk: Disk, env: Env, tools: Tools, root: Path, output: OutputPath, entry: DirEntry)
    returns (r: Result<(), Error>)
    modifies disk
    ensures disk.log == old(disk.log) + FileRun(env, tools, root, output, entry).ops
    ensures r == FileRun(env, tools, root, output, entry).result
  {
    var source := entry.path;
    var text := env.readToString(source);
    if text.Err? {
      return Err(ReadFailed(source, text.error));
    }
    var relative := StripPrefix(source, root);
    if relative.None? {
      return Err(StripPrefixFailed(root, source));
    }
    var routed := ExtractMarker(text.value, output, relative.value, tools.parseMarker);
    var contents, dest := routed.0, routed.1.path;
    var canonical := env.canonicalize(source);
    if canonical.Err? {
      return Err(CanonicalizeFailed(source, canonical.error));
    }
    if StripPrefix(canonical.value, root).None? {
      return Err(StripPrefixFailed(root, canonical.value));
    }
    var removed := disk.Perform(env, Remove(dest));
    var forgiven := Stdx.RemoveFile(removed);
    if forgiven.Err? {
      return Err(Io(forgiven.error));
    }
    var dir := Parent(dest);
    if dir.None? {
      return Err(NoParent(dest));
    }
    var made := disk.Perform(env, CreateDirAll(dir.value));
    if made.Err? {
      return Err(CreateDirFailed(dir.value, made.error));
    }
    var registered := tools.registerTemplate(contents);
    if registered.Err? {
      return Err(TemplateParseFailed(dest, registered.error));
    }
    var rendered := tools.renderTemplate(contents);
    if rendered.Err? {
      return Err(TemplateRenderFailed(dest, rendered.error));
    }
    var written := disk.Perform(env, Write(dest, rendered.value));
    if written.Err? {
      return Err(WriteFailed(dest, written.error));
    }
    return Ok(());
  }

  /** `Dir::process`: the walked files in order, until one fails. */
  method ProcessDir(disk: Disk, env: Env, tools: Tools, root: Path, dir: Dir) returns (r: Result<(), Error>)
    modifies disk
    ensures disk.log == old(disk.log) + DirProcessRun(env, tools, root, dir).ops
    ensures r == DirProcessRun(env, tools, root, dir).result
  {
    var entries := FileEntries(env.walk(dir.path));
    ghost var runs := FileRuns(env, tools, root, dir.output, entries);
    var i := 0;
    while i < |entries|
      invariant 0 <= i <= |entries|
      invariant disk.log == old(disk.log) + OpsOf(runs[..i])
      invariant FirstFailure(runs) == Run(OpsOf(runs[..i]) + FirstFailure(runs[i..]).ops, FirstFailure(runs[i..]).result)
    {
      assert runs[i..][0] == runs[i];
      assert runs[i..][1..] == runs[i + 1..];
      r := ProcessFile(disk, env, tools, root, dir.output, entries[i]);
      RunsSnoc(runs, i);
      ConcatAssoc(old(disk.log), OpsOf(runs[..i]), runs[i].ops);
      ConcatAssoc(OpsOf(runs[..i]), runs[i].ops, FirstFailure(runs[i + 1..]).ops);
      if r.Err? {
        return;
      }
      i := i + 1;
    }
    assert runs[i..] == [];
    r := Ok(());
  }

  /** A placed file that succeeds has made exactly three calls: remove the destination,
      create its parent, write the rendered contents to it. */
  lemma PlaceFileWrites(env: Env, tools: Tools, dest: Path, contents: string)
    ensures PlaceFile(env, tools, dest, contents).result.Ok? ==>
      Parent(dest).Some? && tools.renderTemplate(contents).Ok? &&
      PlaceFile(env, tools, dest, contents).ops
        == [Remove(dest), CreateDirAll(Parent(dest).value), Write(dest, tools.renderTemplate(contents).value)]
  {
  }

  /** A file that was read and located below the root is placed at the destination and with
      the contents that marker extraction gives. */
  lemma FileRunPlacesExtracted(env: Env, tools: Tools, root: Path, output: OutputPath, entry: DirEntry,
                               text: string, relative: Path)
    requires env.readToString(entry.path) == Ok(text)
    requires StripPrefix(entry.path, root) == Some(relative)
    ensures var routed := ExtractMarker(text, output, relative, tools.parseMarker);
      FileRun(env, tools, root, output, entry).result.Ok? ==>
        FileRun(env, tools, root, output, entry) == PlaceFile(env, tools, routed.1.path, routed.0)
  {
  }

  // ------------------------------------------------------------------
  // Config::process
  // ------------------------------------------------------------------

  /** The step of every link, in manifest order: `map(|link| link.process(&root))`. */
  function LinkRuns(env: Env, tools: Tools, root: Path, links: seq<Link>): (r: seq<Run>)
    ensures |r| == |links|
  {
    seq(|links|, k requires 0 <= k < |links| => LinkRun(env, tools, root, links[k]))
  }

  /** The step of every directory, in manifest order. */
  function DirRuns(env: Env, tools: Tools, root: Path, dirs: seq<Dir>): (r: seq<Run>)
    ensures |r| == |dirs|
  {
    seq(|dirs|, k requires 0 <= k < |dirs| => DirProcessRun(env, tools, root, dirs[k]))
  }

  /** The errors of a stage, in order (`partition_result`). */
  function StageErrors(runs: seq<Run>): seq<Error>
  {
    Stdx.Errs(ResultsOf(runs))
  }

  /** The link stage's verdict as written at src/config.rs:79-83. */
  function LinkStageAsWritten(errors: seq<Error>): (r: Result<(), Error>)
    ensures r.Err? <==> errors == []
    ensures r.Err? ==> r.error == LinksFailed
  {
    if |errors| == 0 then Err(LinksFailed) else Ok(())
  }

  /** The link stage's verdict as its message means it: fail when some link failed. */
  function LinkStage(errors: seq<Error>): (r: Result<(), Error>)
    ensures r.Err? <==> errors != []
    ensures r.Err? ==> r.error == LinksFailed
  {
    if |errors| != 0 then Err(LinksFailed) else Ok(())
  }

  /** The directory stage's verdict (src/config.rs:94-98). */
  function DirStage(errors: seq<Error>): (r: Result<(), Error>)
    ensures r.Err? <==> errors != []
    ensures r.Err? ==> r.error == DirsFailed
  {
    if |errors| != 0 then Err(DirsFailed) else Ok(())
  }

  /** Run every link, collecting the errors. */
  method ProcessLinks(disk: Disk, env: Env, tools: Tools, root: Path, links: seq<Link>) returns (errors: seq<Error>)
    modifies disk
    ensures disk.log == old(disk.log) + OpsOf(LinkRuns(env, tools, root, links))
    ensures errors == StageErrors(LinkRuns(env, tools, root, links))
  {
    ghost var runs := LinkRuns(env, tools, root, links);
    errors := [];
    var i := 0;
    while i < |links|
      invariant 0 <= i <= |links|
      invariant disk.log == old(disk.log) + OpsOf(runs[..i])
      invariant errors == StageErrors(runs[..i])
    {
      ghost var before := disk.log;
      var r := ProcessLink(disk, env, tools, root, links[i]);
      StageStep(old(disk.log), runs, i, before, errors);
      if r.Err? {
        errors := errors + [r.error];
      }
      i := i + 1;
    }
    assert runs[..i] == runs;
  }

  /** Run every directory, collecting the errors. */
  method ProcessDirs(disk: Disk, env: Env, tools: Tools, root: Path, dirs: seq<Dir>) returns (errors: seq<Error>)
    modifies disk
    ensures disk.log == old(disk.log) + OpsOf(DirRuns(env, tools, root, dirs))
    ensures errors == StageErrors(DirRuns(env, tools, root, dirs))
  {
    ghost var runs := DirRuns(env, tools, root, dirs);
    errors := [];
    var i := 0;
    while i < |dirs|
      invariant 0 <= i <= |dirs|
      invariant disk.log == old(disk.log) + OpsOf(runs[..i])
      invariant errors == StageErrors(runs[..i])
    {
      ghost var before := disk.log;
      var r := ProcessDir(disk, env, tools, root, dirs[i]);
      StageStep(old(disk.log), runs, i, before, errors);
      if r.Err? {
        errors := errors + [r.error];
      }
      i := i + 1;
    }
    assert runs[..i] == runs;
  }

  /** `Config::process` as written (src/config.rs:70-102): every link runs; the link stage
      then fails exactly when no link failed; only if it passes do the directories run. */
  method ProcessAsWritten(disk: Disk, env: Env, tools: Tools, config: Config) returns (r: Result<(), Error>)
    modifies disk
    ensures var links := LinkRuns(env, tools, config.root, config.links);
      var dirs := DirRuns(env, tools, config.root, config.dirs);
      var linkStage := LinkStageAsWritten(StageErrors(links));
      (linkStage.Err? ==> r == linkStage && disk.log == old(disk.log) + OpsOf(links)) &&
      (linkStage.Ok? ==> r == DirStage(StageErrors(dirs)) && disk.log == old(disk.log) + OpsOf(links) + OpsOf(dirs))
  {
    var linkErrors := ProcessLinks(disk, env, tools, config.root, config.links);
    var linkStage := LinkStageAsWritten(linkErrors);
    if linkStage.Err? {
      return linkStage;
    }
    var dirErrors := ProcessDirs(disk, env, tools, config.root, config.dirs);
    return DirStage(dirErrors);
  }

  /** `Config::process` with the link stage failing when some link failed. */
  method Process(disk: Disk, env: Env, tools: Tools, config: Config) returns (r: Result<(), Error>)
    modifies disk
    ensures var links := LinkRuns(env, tools, config.root, config.links);
      var dirs := DirRuns(env, tools, config.root, config.dirs);
      var linkStage := LinkStage(StageErrors(links));
      (linkStage.Err? ==> r == linkStage && disk.log == old(disk.log) + OpsOf(links)) &&
      (linkStage.Ok? ==> r == DirStage(StageErrors(dirs)) && disk.log == old(disk.log) + OpsOf(links) + OpsOf(dirs))
  {
    var linkErrors := ProcessLinks(disk, env, tools, config.root, config.links);
    var linkStage := LinkStage(linkErrors);
    if linkStage.Err? {
      return linkStage;
    }
    var dirErrors := ProcessDirs(disk, env, tools, config.root, config.dirs);
    return DirStage(dirErrors);
  }

  /** A stage has no errors exactly when each of its steps succeeded. */
  lemma StageErrorsEmpty(runs: seq<Run>)
    ensures StageErrors(runs) == [] <==> forall k :: 0 <= k < |runs| ==> runs[k].result.Ok?
  {
    Stdx.ErrsEmptyIffAllOk(ResultsOf(runs));
  }

  /** As written, the link stage fails exactly when every link succeeded. */
  lemma LinkStageAsWrittenInverted(env: Env, tools: Tools, root: Path, links: seq<Link>)
    ensures LinkStageAsWritten(StageErrors(LinkRuns(env, tools, root, links))).Err?
        <==> forall i :: 0 <= i < |links| ==> LinkRun(env, tools, root, links[i]).result.Ok?
  {
    var runs := LinkRuns(env, tools, root, links);
    StageErrorsEmpty(runs);
    assert forall k :: 0 <= k < |links| ==> runs[k] == LinkRun(env, tools, root, links[k]);
  }

  /** A manifest without links stops `Config::process` as written at the link stage. */
  lemma NoLinksStopAsWritten(env: Env, tools: Tools, root: Path)
    ensures LinkStageAsWritten(StageErrors(LinkRuns(env, tools, root, []))) == Err(LinksFailed)
  {
  }

  /** The corrected link stage fails exactly when some link failed. */
  lemma LinkStageReportsFailures(env: Env, tools: Tools, root: Path, links: seq<Link>)
    ensures LinkStage(StageErrors(LinkRuns(env, tools, root, links))).Err?
        <==> exists i :: 0 <= i < |links| && LinkRun(env, tools, root, links[i]).result.Err?
  {
    var runs := LinkRuns(env, tools, root, links);
    StageErrorsEmpty(runs);
    assert forall k :: 0 <= k < |links| ==> runs[k] == LinkRun(env, tools, root, links[k]);
  }

  /** The directory stage fails exactly when some directory failed. */
  lemma DirStageReportsFailures(env: Env, tools: Tools, root: Path, dirs: seq<Dir>)
    ensures DirStage(StageErrors(DirRuns(env, tools, root, dirs))).Err?
        <==> exists i :: 0 <= i < |dirs| && DirProcessRun(env, tools, root, dirs[i]).result.Err?
  {
    var runs := DirRuns(env, tools, root, dirs);
    StageErrorsEmpty(runs);
    assert forall k :: 0 <= k < |dirs| ==> runs[k] == DirProcessRun(env, tools, root, dirs[k]);
  }
}
