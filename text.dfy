/**
 * The few pieces of Python's string library the core relies on:
 * `str.split(sep)` with a one-character separator, the last piece of a split,
 * `str.startswith(prefix)` and the `in` test for substrings.
 */
module Text {

  /**
   * Python's `s.split(sep)`: the pieces of `s` between occurrences of `sep`.
   * There is always at least one piece (`"".split("/") == [""]`).
   */
  function Split(s: string, sep: char): (parts: seq<string>)
    ensures |parts| >= 1
    ensures forall i :: 0 <= i < |parts| ==> sep !in parts[i]
    decreases |s|
  {
    if s == [] then [""]
    else
      var rest := Split(s[1..], sep);
      if s[0] == sep then [""] + rest
      else [[s[0]] + rest[0]] + rest[1..]
  }

  /** Python's `sep.join(parts)`, the inverse of `Split`. */
  function Join(parts: seq<string>, sep: char): string
    requires |parts| >= 1
  {
    if |parts| == 1 then parts[0] else parts[0] + [sep] + Join(parts[1..], sep)
  }

  /** Splitting and joining again gives back the string: no character is lost or added. */
  lemma {:induction false} SplitJoin(s: string, sep: char)
    ensures Join(Split(s, sep), sep) == s
    decreases |s|
  {
    if s != [] {
      var rest := Split(s[1..], sep);
      SplitJoin(s[1..], sep);
      if s[0] == sep {
        assert ([""] + rest)[1..] == rest;
      } else if |rest| > 1 {
        var parts := [[s[0]] + rest[0]] + rest[1..];
        assert parts[1..] == rest[1..];
        assert Join(rest, sep) == rest[0] + [sep] + Join(rest[1..], sep);
      }
      assert s == [s[0]] + s[1..];
    }
  }

  /** A string without the separator splits into itself alone. */
  lemma {:induction false} SplitFree(s: string, sep: char)
    requires sep !in s
    ensures Split(s, sep) == [s]
    decreases |s|
  {
    if s != [] {
      SplitFree(s[1..], sep);
      assert s == [s[0]] + s[1..];
    }
  }

  /** Splitting at a separator splits both sides: `(a + sep + b).split(sep) == a.split(sep) + b.split(sep)`. */
  lemma {:induction false} SplitConcat(a: string, sep: char, b: string)
    ensures Split(a + [sep] + b, sep) == Split(a, sep) + Split(b, sep)
    decreases |a|
  {
    var s := a + [sep] + b;
    if a == [] {
      assert s[1..] == b;
    } else {
      assert s[1..] == a[1..] + [sep] + b;
      SplitConcat(a[1..], sep, b);
    }
  }

  /** Appending a character other than the separator extends the last piece. */
  lemma {:induction false} SplitSnoc(p: string, sep: char, x: char)
    requires x != sep
    ensures var parts := Split(p, sep);
            Split(p + [x], sep) == parts[..|parts| - 1] + [parts[|parts| - 1] + [x]]
    decreases |p|
  {
    var s := p + [x];
    if p == [] {
      assert s == [x] && s[1..] == [];
      var rest := Split(s[1..], sep);
      assert rest == [""];
      assert Split(s, sep) == [[s[0]] + rest[0]] + rest[1..];
      assert [s[0]] + rest[0] == [x];
    } else {
      assert s[1..] == p[1..] + [x];
      SplitSnoc(p[1..], sep, x);
      var r := Split(p[1..], sep);
      var rest := Split(s[1..], sep);
      assert rest == r[..|r| - 1] + [r[|r| - 1] + [x]];
      var parts := Split(p, sep);
      if p[0] == sep {
        assert parts == [""] + r;
        assert Split(s, sep) == [""] + rest;
      } else if |r| == 1 {
        assert parts == [[p[0]] + r[0]];
        assert rest == [r[0] + [x]];
        assert [p[0]] + (r[0] + [x]) == ([p[0]] + r[0]) + [x];
        assert Split(s, sep) == [[p[0]] + rest[0]] + rest[1..];
        assert parts[..|parts| - 1] == [];
      } else {
        assert parts == [[p[0]] + r[0]] + r[1..];
        var front := r[..|r| - 1];
        assert rest == front + [r[|r| - 1] + [x]];
        assert rest[0] == r[0];
        assert front[1..] == r[1..|r| - 1];
        assert rest[1..] == front[1..] + [r[|r| - 1] + [x]];
        assert Split(s, sep) == [[p[0]] + rest[0]] + rest[1..];
        assert r[1..][..|r| - 2] == r[1..|r| - 1];
        assert parts[..|parts| - 1] == [[p[0]] + r[0]] + r[1..|r| - 1];
      }
    }
  }

  /** Python's `s.split(sep)[-1]`. */
  function LastSegment(s: string, sep: char): string
  {
    var parts := Split(s, sep);
    parts[|parts| - 1]
  }

  /**
   * The last piece is the part after the last separator: a suffix of `s`
   * without the separator, and either all of `s` or preceded by a separator.
   */
  lemma {:induction false} LastSegmentIsAfterLastSeparator(s: string, sep: char)
    ensures var r := LastSegment(s, sep);
            && |r| <= |s| && s[|s| - |r|..] == r && sep !in r
            && (|r| < |s| ==> s[|s| - |r| - 1] == sep)
    decreases |s|
  {
    if s != [] {
      var p, x := s[..|s| - 1], s[|s| - 1];
      assert s == p + [x];
      LastSegmentIsAfterLastSeparator(p, sep);
      if x == sep {
        SplitConcat(p, sep, []);
        assert s == p + [sep] + [];
        assert LastSegment(s, sep) == [];
      } else {
        SplitSnoc(p, sep, x);
        assert LastSegment(s, sep) == LastSegment(p, sep) + [x];
      }
    }
  }

  /** Whatever precedes the last separator, the last piece is what follows it. */
  lemma LastSegmentAfter(prefix: string, sep: char, tail: string)
    requires sep !in tail
    ensures LastSegment(prefix + [sep] + tail, sep) == tail
  {
    SplitConcat(prefix, sep, tail);
    SplitFree(tail, sep);
  }

  /** Python's `s.startswith(prefix)`. */
  predicate StartsWith(s: string, prefix: string) {
    |prefix| <= |s| && s[..|prefix|] == prefix
  }

  /** Python's `t in s` for strings. */
  predicate Contains(s: string, t: string) {
    exists i :: 0 <= i <= |s| - |t| && OccursAt(s, t, i)
  }

  /** `t` occurs in `s` starting at index `i`. */
  predicate OccursAt(s: string, t: string, i: int) {
    0 <= i <= |s| - |t| && s[i..i + |t|] == t
  }
}
