/** The string operations of Rust's `str` that the core uses: `lines`, `find`,
    `contains` and `[&str]::join`. Strings are sequences of characters; byte offsets
    and char boundaries do not arise because the only pattern searched for is ASCII. */
module Strs {
  import opened Std

  /** Index of the first `'\n'` in `s`, or `|s|` when there is none. */
  function LineEnd(s: string): (i: nat)
    ensures i <= |s|
    ensures forall j :: 0 <= j < i ==> s[j] != '\n'
    ensures i < |s| ==> s[i] == '\n'
  {
    if s == [] || s[0] == '\n' then 0 else 1 + LineEnd(s[1..])
  }

  /** Drop one trailing `'\r'`, as `str::lines` does before a `'\n'`. */
  function StripCr(line: string): string
  {
    if |line| > 0 && line[|line| - 1] == '\r' then line[..|line| - 1] else line
  }

  /** `str::lines`: split after every `'\n'`, drop that `'\n'` and one `'\r'` before it;
      a final line without `'\n'` is kept as it is, and there is no empty line after a
      trailing `'\n'`. */
  function Lines(s: string): (r: seq<string>)
    ensures r == [] <==> s == []
    decreases |s|
  {
    if s == [] then []
    else
      var i := LineEnd(s);
      if i == |s| then [s] else [StripCr(s[..i])] + Lines(s[i + 1..])
  }

  /** `"\n"` if `s` ends with a newline, else `""`: what `Lines` followed by a join forgets. */
  function TrailingNewline(s: string): string
  {
    if |s| > 0 && s[|s| - 1] == '\n' then "\n" else ""
  }

  /** `[&str]::join(sep)` */
  function JoinWith(parts: seq<string>, sep: string): (r: string)
    ensures parts == [] ==> r == ""
    ensures parts != [] ==> parts[0] <= r
    ensures parts != [] ==> |parts[|parts| - 1]| <= |r| && r[|r| - |parts[|parts| - 1]|..] == parts[|parts| - 1]
  {
    if parts == [] then ""
    else if |parts| == 1 then parts[0]
    else parts[0] + sep + JoinWith(parts[1..], sep)
  }

  /** `pat` occurs in `s` starting at index `i`. */
  predicate OccursAt(s: string, pat: string, i: nat)
  {
    i + |pat| <= |s| && s[i..i + |pat|] == pat
  }

  /** The first occurrence of `pat` in `s` at or after `from`. */
  function FindFrom(s: string, pat: string, from: nat): (r: Option<nat>)
    ensures r.Some? ==> from <= r.value && OccursAt(s, pat, r.value)
    ensures r.Some? ==> forall j :: from <= j < r.value ==> !OccursAt(s, pat, j)
    ensures r.None? ==> forall j :: from <= j ==> !OccursAt(s, pat, j)
    decreases |s| - from
  {
    if from + |pat| > |s| then None
    else if s[from..from + |pat|] == pat then Some(from)
    else FindFrom(s, pat, from + 1)
  }

  /** `str::find`: the index of the first occurrence of `pat`, if any. */
  function Find(s: string, pat: string): (r: Option<nat>)
    ensures r.Some? ==> OccursAt(s, pat, r.value)
    ensures r.Some? ==> forall j :: 0 <= j < r.value ==> !OccursAt(s, pat, j)
    ensures r.None? <==> forall j: nat :: !OccursAt(s, pat, j)
  {
    FindFrom(s, pat, 0)
  }

  /** `str::contains` */
  predicate Contains(s: string, pat: string)
    ensures Contains(s, pat) <==> exists j: nat :: OccursAt(s, pat, j)
  {
    Find(s, pat).Some?
  }

  /** No line that `Lines` yields contains a newline. */
  lemma {:induction false} LinesHaveNoNewline(s: string)
    ensures forall k :: 0 <= k < |Lines(s)| ==> '\n' !in Lines(s)[k]
    decreases |s|
  {
    if s != [] {
      var i := LineEnd(s);
      if i < |s| {
        LinesHaveNoNewline(s[i + 1..]);
        var line := StripCr(s[..i]);
        assert line <= s[..i];
        assert forall j :: 0 <= j < |line| ==> line[j] == s[j];
      }
    }
  }

  /** A first line followed by `'\n'` is split off as the first element of `Lines`. */
  lemma LinesOfFirstLine(line: string, rest: string)
    requires '\n' !in line
    ensures Lines(line + "\n" + rest) == [StripCr(line)] + Lines(rest)
  {
    var s := line + "\n" + rest;
    assert s[|line|] == '\n';
    assert forall j :: 0 <= j < |line| ==> s[j] == line[j];
    assert LineEnd(s) == |line|;
    assert s[..|line|] == line;
    assert s[|line| + 1..] == rest;
  }

  /** A non-empty text without a newline is one line, kept as it is. */
  lemma OneLine(line: string)
    requires '\n' !in line
    ensures Lines(line) == if line == [] then [] else [line]
  {
  }

  /** A line without carriage returns is left alone by `StripCr`. */
  lemma StripCrWithoutCr(line: string)
    requires '\r' !in line
    ensures StripCr(line) == line
  {
    if |line| > 0 {
      assert line[|line| - 1] in line;
    }
  }

  /** Joining lines `[line] + more` puts `line` and a newline before the rest. */
  lemma JoinCons(line: string, more: seq<string>)
    requires more != []
    ensures JoinWith([line] + more, "\n") == line + "\n" + JoinWith(more, "\n")
  {
    assert ([line] + more)[1..] == more;
  }

  /** A text splits around the first newline into a newline-free line and the rest, and
      neither part has a carriage return the text lacks. */
  lemma SplitAtNewline(s: string, i: nat)
    requires i == LineEnd(s) < |s|
    requires '\r' !in s
    ensures s == s[..i] + "\n" + s[i + 1..]
    ensures '\n' !in s[..i]
    ensures '\r' !in s[..i] && '\r' !in s[i + 1..]
  {
    SplitAt(s, i);
    assert [s[i]] == "\n";
    assert forall j :: 0 <= j < i ==> s[..i][j] == s[j];
  }

  /** Joining the lines of a text without carriage returns with `"\n"` gives the text back,
      up to one trailing newline. */
  lemma {:induction false} JoinLinesInverse(s: string)
    requires '\r' !in s
    ensures JoinWith(Lines(s), "\n") + TrailingNewline(s) == s
    decreases |s|
  {
    if s != [] {
      var i := LineEnd(s);
      if i == |s| {
        assert Lines(s) == [s];
        assert s[|s| - 1] != '\n';
      } else {
        var line, rest := s[..i], s[i + 1..];
        SplitAtNewline(s, i);
        LinesOfFirstLine(line, rest);
        StripCrWithoutCr(line);
        if rest == [] {
          assert Lines(s) == [line];
          assert s == line + "\n";
        } else {
          JoinLinesInverse(rest);
          JoinCons(line, Lines(rest));
          assert TrailingNewline(s) == TrailingNewline(rest) by {
            assert s[|s| - 1] == rest[|rest| - 1];
          }
          calc {
            JoinWith(Lines(s), "\n") + TrailingNewline(s);
            (line + "\n" + JoinWith(Lines(rest), "\n")) + TrailingNewline(rest);
            { ConcatAssoc(line + "\n", JoinWith(Lines(rest), "\n"), TrailingNewline(rest)); }
            line + "\n" + (JoinWith(Lines(rest), "\n") + TrailingNewline(rest));
          }
        }
      }
    }
  }

  /** Joining newline-free parts with a newline-free separator gives a newline-free text. */
  lemma {:induction false} JoinWithoutNewline(parts: seq<string>, sep: string)
    requires forall k :: 0 <= k < |parts| ==> '\n' !in parts[k]
    requires '\n' !in sep
    ensures '\n' !in JoinWith(parts, sep)
    decreases |parts|
  {
    if |parts| > 1 {
      JoinWithoutNewline(parts[1..], sep);
    }
  }

  /** A text that contains `p + q` contains `p`. */
  lemma ContainsPrefix(s: string, p: string, q: string)
    requires Contains(s, p + q)
    ensures Contains(s, p)
  {
    var i := Find(s, p + q).value;
    assert s[i..i + |p|] == (p + q)[..|p|] == p;
    assert OccursAt(s, p, i);
  }
}
