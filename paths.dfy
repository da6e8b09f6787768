/** `std::path::Path`, as a list of components.

    A path is either absolute (it starts at `/`) or relative, followed by its normal
    components. `Path::parent` drops the last component, `Path::join` appends, and
    `Path::strip_prefix` removes a leading run of components. Windows prefixes, `.` and
    `..` handling are not modelled: a component is an opaque string. */
module Paths {
  import opened Std

  datatype Path = Path(absolute: bool, components: seq<string>)

  /** `/` */
  const Root: Path := Path(true, [])

  /** A relative path made of one file name, such as `dots.toml`. */
  function Name(name: string): Path
  {
    Path(false, [name])
  }

  /** `Path::parent`: `None` exactly for `/` and for the empty relative path. */
  function Parent(p: Path): (r: Option<Path>)
    ensures r.None? <==> p.components == []
    ensures r.Some? ==> Join(r.value, Name(p.components[|p.components| - 1])) == p
  {
    if p.components == [] then None else Some(Path(p.absolute, p.components[..|p.components| - 1]))
  }

  /** `Path::join`: an absolute argument replaces the base, a relative one is appended. */
  function Join(base: Path, rel: Path): (r: Path)
    ensures rel.absolute ==> r == rel
    ensures !rel.absolute ==> IsAncestorOf(base, r) && r.components[|base.components|..] == rel.components
  {
    if rel.absolute then rel else Path(base.absolute, base.components + rel.components)
  }

  /** `a` is `p` or one of its ancestors: same anchoring, and a prefix of its components. */
  predicate IsAncestorOf(a: Path, p: Path)
  {
    a.absolute == p.absolute && a.components <= p.components
  }

  /** `Path::strip_prefix`: the relative rest of `p` below `prefix`, if `prefix` is an ancestor. */
  function StripPrefix(p: Path, prefix: Path): (r: Option<Path>)
    ensures r.Some? <==> IsAncestorOf(prefix, p)
    ensures r.Some? ==> !r.value.absolute && Join(prefix, r.value) == p
  {
    if IsAncestorOf(prefix, p) then Some(Path(false, p.components[|prefix.components|..])) else None
  }
}
