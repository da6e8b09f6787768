/** The few pieces of Rust's standard library that the core of `dots` leans on. */
module Std {

  /** `Option<T>` */
  datatype Option<+T> = None | Some(value: T)

  /** `Result<T, E>` */
  datatype Result<+T, +E> = Ok(value: T) | Err(error: E)

  /** An `io::Error`, reduced to the one distinction the core makes: `ErrorKind::NotFound`
      or any other kind (named by `kind`). */
  datatype IoError = NotFound | Other(kind: string)

  /** Concatenation regroups freely; stated once so that proofs about logs of calls need not
      compare them element by element. */
  lemma ConcatAssoc<T>(a: seq<T>, b: seq<T>, c: seq<T>)
    ensures a + (b + c) == (a + b) + c
  {
  }

  /** A sequence is what comes before index `i`, the element at `i`, and what comes after. */
  lemma SplitAt<T>(s: seq<T>, i: nat)
    requires i < |s|
    ensures s == s[..i] + [s[i]] + s[i + 1..]
  {
    assert s[i..] == [s[i]] + s[i + 1..];
    assert s == s[..i] + s[i..];
    ConcatAssoc(s[..i], [s[i]], s[i + 1..]);
  }
}
