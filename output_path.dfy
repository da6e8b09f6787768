/** `src/output_path.rs`: an `OutputPath` is a path whose `{config}` and `{home}`
    placeholders have already been substituted. The substitution itself is delegated to
    other crates and is not part of this model: the manifest and marker parsers, which are
    inputs here, hand back finished values. */
module Output {
  import opened Paths

  datatype OutputPath = OutputPath(path: Path)
}
