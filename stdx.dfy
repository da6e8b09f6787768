/** `src/stdx.rs`: the collect-all-errors iteration, the upward directory search and
    `remove_file`, which forgives a missing file. */
module Stdx {
  import opened Std
  import opened Paths
  import opened System

  /** Every item is an `Ok`. */
  predicate AllOk<T, E>(items: seq<Result<T, E>>)
  {
    forall i :: 0 <= i < |items| ==> items[i].Ok?
  }

  /** The `Ok` values of `items`, in order (the first half of `partition_result`). */
  function Oks<T, E>(items: seq<Result<T, E>>): (r: seq<T>)
    ensures |r| <= |items|
  {
    if items == [] then []
    else (if items[0].Ok? then [items[0].value] else []) + Oks(items[1..])
  }

  /** The `Err` values of `items`, in order (the second half of `partition_result`). */
  function Errs<T, E>(items: seq<Result<T, E>>): (r: seq<E>)
    ensures |r| + |Oks(items)| == |items|
  {
    if items == [] then []
    else (if items[0].Err? then [items[0].error] else []) + Errs(items[1..])
  }

  /** Values of a concatenation: those of the first part, then those of the second. */
  lemma {:induction false} OksAppend<T, E>(a: seq<Result<T, E>>, b: seq<Result<T, E>>)
    ensures Oks(a + b) == Oks(a) + Oks(b)
  {
    if a != [] {
      assert (a + b)[1..] == a[1..] + b;
      OksAppend(a[1..], b);
    } else {
      assert a + b == b;
    }
  }

  /** Errors of a concatenation: those of the first part, then those of the second. */
  lemma {:induction false} ErrsAppend<T, E>(a: seq<Result<T, E>>, b: seq<Result<T, E>>)
    ensures Errs(a + b) == Errs(a) + Errs(b)
  {
    if a != [] {
      assert (a + b)[1..] == a[1..] + b;
      ErrsAppend(a[1..], b);
    } else {
      assert a + b == b;
    }
  }

  /** There are no errors exactly when every item is `Ok`. */
  lemma {:induction false} ErrsEmptyIffAllOk<T, E>(items: seq<Result<T, E>>)
    ensures Errs(items) == [] <==> AllOk(items)
  {
    if items != [] {
      ErrsEmptyIffAllOk(items[1..]);
      assert forall i :: 1 <= i < |items| ==> items[i] == items[1..][i - 1];
    }
  }

  /** With no error, `Oks` keeps every value, in input order and with the input's length. */
  lemma {:induction false} OksOfAllOk<T, E>(items: seq<Result<T, E>>)
    requires AllOk(items)
    ensures |Oks(items)| == |items|
    ensures forall i :: 0 <= i < |items| ==> Oks(items)[i] == items[i].value
  {
    if items != [] {
      assert forall i :: 1 <= i < |items| ==> items[i] == items[1..][i - 1];
      OksOfAllOk(items[1..]);
    }
  }

  /** `Errs` holds every error of the input, and nothing else. */
  lemma {:induction false} ErrsMembers<T, E>(items: seq<Result<T, E>>)
    ensures forall e :: e in Errs(items) <==> Err(e) in items
  {
    if items != [] {
      ErrsMembers(items[1..]);
      assert items == [items[0]] + items[1..];
    }
  }

  /** `IteratorExt::try_collect_all`: all values when every item is `Ok`; otherwise every
      error, in order, with the errors after the first one included (src/stdx.rs:14-33). */
  method TryCollectAll<T, E>(items: seq<Result<T, E>>) returns (r: Result<seq<T>, seq<E>>)
    ensures r.Ok? <==> AllOk(items)
    ensures r.Ok? ==> r.value == Oks(items)
    ensures r.Err? ==> r.error == Errs(items)
  {
    var oks: seq<T> := [];
    var i := 0;
    while i < |items|
      invariant 0 <= i <= |items|
      invariant AllOk(items[..i])
      invariant oks == Oks(items[..i])
    {
      assert items[..i + 1] == items[..i] + [items[i]];
      match items[i] {
        case Ok(ok) =>
          OksAppend(items[..i], [items[i]]);
          oks := oks + [ok];
        case Err(err) =>
          ErrsEmptyIffAllOk(items[..i]);
          ErrsAppend(items[..i], items[i..]);
          assert items == items[..i] + items[i..];
          assert items[i..][1..] == items[i + 1..];
          return Err([err] + Errs(items[i + 1..]));
      }
      i := i + 1;
    }
    assert items[..i] == items;
    return Ok(oks);
  }

  /** `IteratorExt::try_collect_all_vec`: `try_collect_all` into vectors (src/stdx.rs:37-42). */
  method TryCollectAllVec<T, E>(items: seq<Result<T, E>>) returns (r: Result<seq<T>, seq<E>>)
    ensures r.Ok? <==> AllOk(items)
    ensures r.Ok? ==> r.value == Oks(items)
    ensures r.Err? ==> r.error == Errs(items)
  {
    r := TryCollectAll(items);
  }

  /** The path `k` levels above `p`. */
  function Ancestor(p: Path, k: nat): Path
    requires k <= |p.components|
  {
    Path(p.absolute, p.components[..|p.components| - k])
  }

  /** Each ancestor is above `p`, and the parent of the one `k` levels up is the one
      `k + 1` levels up, until the components run out. */
  lemma AncestorStep(p: Path, k: nat)
    requires k <= |p.components|
    ensures IsAncestorOf(Ancestor(p, k), p)
    ensures Parent(Ancestor(p, k)) == if k < |p.components| then Some(Ancestor(p, k + 1)) else None
  {
    if k < |p.components| {
      assert p.components[..|p.components| - k][..|p.components| - k - 1]
        == p.components[..|p.components| - (k + 1)];
    }
  }

  /** Every ancestor of `p` is above it, and each one's parent is the next one up. */
  lemma AncestorChain(p: Path)
    ensures forall k :: 0 <= k <= |p.components| ==> IsAncestorOf(Ancestor(p, k), p)
    ensures forall k :: 0 <= k < |p.components| ==> Parent(Ancestor(p, k)) == Some(Ancestor(p, k + 1))
    ensures Parent(Ancestor(p, |p.components|)) == None
  {
    forall k | 0 <= k <= |p.components|
      ensures IsAncestorOf(Ancestor(p, k), p)
      ensures k < |p.components| ==> Parent(Ancestor(p, k)) == Some(Ancestor(p, k + 1))
    {
      AncestorStep(p, k);
    }
  }

  /** Everything `traverse_upwards(base)` yields, closest first: `base`, then the parent of
      each path until one without a parent, which is `/` for an absolute `base`; every one
      of them an ancestor of `base`. */
  function Upwards(base: Path): (r: seq<Path>)
    ensures |r| == |base.components| + 1
    ensures forall i :: 0 <= i < |r| ==> r[i] == Ancestor(base, i)
    ensures r[0] == base
    ensures forall i :: 0 < i < |r| ==> Parent(r[i - 1]) == Some(r[i])
    ensures Parent(r[|r| - 1]) == None
    ensures forall i :: 0 <= i < |r| ==> IsAncestorOf(r[i], base)
    ensures base.absolute ==> r[|r| - 1] == Root
  {
    AncestorChain(base);
    assert base.components[..|base.components| - 0] == base.components;
    seq(|base.components| + 1, i requires 0 <= i <= |base.components| => Ancestor(base, i))
  }

  /** `traverse_upwards`: `base` first, then the parent of each yielded path until a path
      without a parent has been yielded (src/stdx.rs:104-114). */
  method TraverseUpwards(base: Path) returns (dirs: seq<Path>)
    ensures dirs == Upwards(base)
  {
    dirs := [base];
    var current: Option<Path> := Some(base);
    while current.Some?
      invariant 1 <= |dirs| <= |base.components| + 1
      invariant forall i :: 0 <= i < |dirs| ==> dirs[i] == Ancestor(base, i)
      invariant current.Some? ==> current.value == dirs[|dirs| - 1]
      invariant current.None? ==> |dirs| == |base.components| + 1
      decreases if current.Some? then |current.value.components| + 1 else 0
    {
      AncestorStep(base, |dirs| - 1);
      current := Parent(current.value);
      if current.Some? {
        dirs := dirs + [current.value];
      }
    }
  }

  /** `remove_file` on the answer of `fs::remove_file`: a missing file counts as removed,
      every other error is passed through unchanged (src/stdx.rs:117-123). */
  function RemoveFile(removed: Result<(), IoError>): (r: Result<(), IoError>)
    ensures r.Ok? <==> removed.Ok? || removed.error == NotFound
    ensures r.Err? ==> r == removed
  {
    match removed
    case Err(NotFound) => Ok(())
    case Err(err) => Err(err)
    case Ok(()) => Ok(())
  }

  /** `write_file` (src/stdx.rs:73-94): remove the old file (a missing one is fine), create
      the parent directory, write the contents. */
  function WriteFileRun(env: Env, path: Path, contents: string): Run
  {
    match RemoveFile(env.respond(Remove(path)))
    case Err(e) => Run([Remove(path)], Err(RemoveFailed(path, e)))
    case Ok(_) =>
      match Parent(path)
      case None => Run([Remove(path)], Err(NoParent(path)))
      case Some(dir) => WriteInDir(env, path, dir, contents)
  }

  /** Create the parent directory and write the file. */
  function WriteInDir(env: Env, path: Path, dir: Path, contents: string): Run
  {
    match env.respond(CreateDirAll(dir))
    case Err(e) => Run([Remove(path), CreateDirAll(dir)], Err(CreateDirFailed(dir, e)))
    case Ok(_) =>
      var ops := [Remove(path), CreateDirAll(dir), Write(path, contents)];
      match env.respond(Write(path, contents))
      case Err(e) => Run(ops, Err(WriteFailed(path, e)))
      case Ok(_) => Run(ops, Ok(()))
  }

  method WriteFile(disk: Disk, env: Env, path: Path, contents: string) returns (r: Result<(), Error>)
    modifies disk
    ensures disk.log == old(disk.log) + WriteFileRun(env, path, contents).ops
    ensures r == WriteFileRun(env, path, contents).result
  {
    var removed := disk.Perform(env, Remove(path));
    var forgiven := RemoveFile(removed);
    if forgiven.Err? {
      return Err(RemoveFailed(path, forgiven.error));
    }
    var dir := Parent(path);
    if dir.None? {
      return Err(NoParent(path));
    }
    var made := disk.Perform(env, CreateDirAll(dir.value));
    if made.Err? {
      return Err(CreateDirFailed(dir.value, made.error));
    }
    var written := disk.Perform(env, Write(path, contents));
    if written.Err? {
      return Err(WriteFailed(path, written.error));
    }
    return Ok(());
  }

  /** `write_file` always tries to remove the file first; when it succeeds it has made
      exactly three calls, the last writing `contents` to `path`, and the parent it created
      is the one directly above `path`. */
  lemma WriteFileWrites(env: Env, path: Path, contents: string)
    ensures |WriteFileRun(env, path, contents).ops| >= 1
    ensures WriteFileRun(env, path, contents).ops[0] == Remove(path)
    ensures WriteFileRun(env, path, contents).result.Ok? ==>
      Parent(path).Some? &&
      WriteFileRun(env, path, contents).ops
        == [Remove(path), CreateDirAll(Parent(path).value), Write(path, contents)]
  {
  }

  /** A path without a parent is never written: after the removal attempt, `write_file`
      stops with `NoParent`, or with the removal's error. */
  lemma WriteFileNeedsParent(env: Env, path: Path, contents: string)
    requires path.components == []
    ensures WriteFileRun(env, path, contents).ops == [Remove(path)]
    ensures WriteFileRun(env, path, contents).result.Err?
  {
  }

  /** The first case of the unit test at src/stdx.rs:131-149: every error is kept, in order. */
  method TryCollectAllMixedExample()
  {
    var items: seq<Result<int, string>> := [Ok(1), Err("1"), Ok(2), Err("2"), Err("3")];
    var mixed := TryCollectAllVec(items);
    assert items[1].Err?;
    assert Errs(items[3..]) == ["2", "3"] by {
      assert items[3..][1..] == items[4..];
      assert items[4..][1..] == [];
    }
    assert items[1..][1..] == items[2..] && items[2..][1..] == items[3..];
    assert Errs(items[2..]) == Errs(items[3..]);
    assert Errs(items[1..]) == ["1"] + Errs(items[2..]);
    assert Errs(items) == Errs(items[1..]);
    assert !AllOk(items);
    assert mixed.error == ["1"] + ["2", "3"];
    assert ["1"] + ["2", "3"] == ["1", "2", "3"];
    assert mixed == Err(["1", "2", "3"]);
  }

  /** The second case of the unit test at src/stdx.rs:131-149: every value is kept, in order. */
  method TryCollectAllOkExample()
  {
    var oks: seq<Result<int, ()>> := [Ok(1), Ok(1), Ok(2), Ok(2), Ok(3)];
    var fine := TryCollectAllVec(oks);
    assert AllOk(oks);
    OksOfAllOk(oks);
    assert forall i :: 0 <= i < 5 ==> Oks(oks)[i] == [1, 1, 2, 2, 3][i];
    assert Oks(oks) == [1, 1, 2, 2, 3];
    assert fine == Ok([1, 1, 2, 2, 3]);
  }

  /** The last case of the unit test at src/stdx.rs:131-149: nothing collects to `Ok([])`. */
  method TryCollectAllEmptyExample()
  {
    var none: seq<Result<(), ()>> := [];
    var empty := TryCollectAllVec(none);
    assert empty == Ok([]);
  }

  /** The unit test at src/stdx.rs:151-165. */
  method TraverseUpwardsExample()
  {
    var name := Path(true, ["home", "user", "project", "name"]);
    var dirs := TraverseUpwards(name);
    assert dirs[1] == Ancestor(name, 1) == Path(true, ["home", "user", "project"]);
    assert dirs[2] == Ancestor(name, 2) == Path(true, ["home", "user"]);
    assert dirs[3] == Ancestor(name, 3) == Path(true, ["home"]);
    assert dirs[4] == Ancestor(name, 4) == Root;
    assert dirs == [
      name,
      Path(true, ["home", "user", "project"]),
      Path(true, ["home", "user"]),
      Path(true, ["home"]),
      Root
    ];
  }
}
