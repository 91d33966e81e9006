/**
 * The handful of Python string operations the proxy relies on: `startswith`,
 * the `in` substring test and the argument-less `str.split()` used for token
 * estimates.
 */
module Text {

  /** `s.startswith(p)`: exact, case-sensitive prefix match. */
  predicate StartsWith(s: string, p: string) {
    |p| <= |s| && s[..|p|] == p
  }

  /** `sub` occurs in `s` starting at index `i`. */
  predicate OccursAt(s: string, sub: string, i: int) {
    0 <= i <= |s| - |sub| && s[i..i + |sub|] == sub
  }

  /** `sub in s` for strings. */
  predicate Contains(s: string, sub: string) {
    exists i | 0 <= i <= |s| :: OccursAt(s, sub, i)
  }

  /** The characters Python's `str.split()` treats as separators. */
  predicate IsSpace(c: char) {
    c == ' ' || c == '\t' || c == '\n' || c == '\r' || c == '\U{000B}' || c == '\U{000C}'
    || ('\U{001C}' <= c <= '\U{001F}') || c == '\U{0085}' || c == '\U{00A0}' || c == '\U{1680}'
    || ('\U{2000}' <= c <= '\U{200A}') || c == '\U{2028}' || c == '\U{2029}' || c == '\U{202F}'
    || c == '\U{205F}' || c == '\U{3000}'
  }

  predicate NoSpace(s: string) {
    forall i :: 0 <= i < |s| ==> !IsSpace(s[i])
  }

  /** Length of the longest prefix of `s` that holds no separator. */
  function RunLength(s: string): (n: nat)
    ensures n <= |s|
    ensures NoSpace(s[..n])
    ensures n < |s| ==> IsSpace(s[n])
  {
    if s == [] || IsSpace(s[0]) then 0
    else
      var m := RunLength(s[1..]);
      assert s[..1 + m] == [s[0]] + s[1..][..m];
      1 + m
  }

  /** `s.split()`: the maximal separator-free runs of `s`, in order. */
  function Words(s: string): (ws: seq<string>)
    decreases |s|
  {
    if s == [] then []
    else if IsSpace(s[0]) then Words(s[1..])
    else
      var n := RunLength(s);
      [s[..n]] + Words(s[n..])
  }

  /** `len(s.split())`. */
  function WordCount(s: string): nat {
    |Words(s)|
  }

  function Flatten(ws: seq<string>): string {
    if ws == [] then [] else ws[0] + Flatten(ws[1..])
  }

  /** `s` with every separator removed: an independent reference for what `split` keeps. */
  function RemoveSpaces(s: string): (r: string)
    ensures NoSpace(r)
    ensures |r| <= |s|
  {
    if s == [] then []
    else if IsSpace(s[0]) then RemoveSpaces(s[1..])
    else [s[0]] + RemoveSpaces(s[1..])
  }

  /** Every word is non-empty and holds no separator. */
  lemma {:induction false} WordsAreWords(s: string)
    ensures forall i :: 0 <= i < |Words(s)| ==> Words(s)[i] != [] && NoSpace(Words(s)[i])
    decreases |s|
  {
    if s == [] {
    } else if IsSpace(s[0]) {
      WordsAreWords(s[1..]);
    } else {
      var n := RunLength(s);
      WordsAreWords(s[n..]);
    }
  }

  lemma RemoveSpacesAppend(a: string, b: string)
    ensures RemoveSpaces(a + b) == RemoveSpaces(a) + RemoveSpaces(b)
  {
    if a == [] {
      assert a + b == b;
    } else {
      assert (a + b)[1..] == a[1..] + b;
      RemoveSpacesAppend(a[1..], b);
    }
  }

  lemma RemoveSpacesOfNoSpace(s: string)
    requires NoSpace(s)
    ensures RemoveSpaces(s) == s
  {
    if s != [] {
      RemoveSpacesOfNoSpace(s[1..]);
    }
  }

  /** Joining the words back together gives exactly the non-separator characters of `s`, in order. */
  lemma {:induction false} FlattenWords(s: string)
    ensures Flatten(Words(s)) == RemoveSpaces(s)
    decreases |s|
  {
    if s == [] {
    } else if IsSpace(s[0]) {
      FlattenWords(s[1..]);
    } else {
      var n := RunLength(s);
      assert s == s[..n] + s[n..];
      FlattenWords(s[n..]);
      RemoveSpacesAppend(s[..n], s[n..]);
      RemoveSpacesOfNoSpace(s[..n]);
      assert Words(s)[1..] == Words(s[n..]);
    }
  }

  /** A run never crosses a separator. */
  lemma RunLengthBeforeSeparator(a: string, c: char, b: string)
    requires IsSpace(c)
    ensures RunLength(a + [c] + b) == RunLength(a)
  {
    if a != [] {
      assert (a + [c] + b)[1..] == a[1..] + [c] + b;
      RunLengthBeforeSeparator(a[1..], c, b);
    }
  }

  /** Splitting on a separator: the words of `a c b` are the words of `a` followed by those of `b`. */
  lemma {:induction false} WordsSplitAtSeparator(a: string, c: char, b: string)
    requires IsSpace(c)
    ensures Words(a + [c] + b) == Words(a) + Words(b)
    decreases |a|
  {
    var s := a + [c] + b;
    if a == [] {
      assert s[1..] == b;
    } else if IsSpace(a[0]) {
      assert s[1..] == a[1..] + [c] + b;
      WordsSplitAtSeparator(a[1..], c, b);
    } else {
      var n := RunLength(a);
      RunLengthBeforeSeparator(a, c, b);
      assert s[..n] == a[..n];
      assert s[n..] == a[n..] + [c] + b;
      WordsSplitAtSeparator(a[n..], c, b);
    }
  }

  /** Word counts add up across a separator. */
  lemma WordCountSplitAtSeparator(a: string, c: char, b: string)
    requires IsSpace(c)
    ensures WordCount(a + [c] + b) == WordCount(a) + WordCount(b)
  {
    WordsSplitAtSeparator(a, c, b);
  }

  /** A non-empty separator-free string is one word. */
  lemma OneWord(s: string)
    requires s != [] && NoSpace(s)
    ensures Words(s) == [s]
  {
    RunLengthAll(s);
    assert s[..|s|] == s;
    assert s[|s|..] == [];
  }

  lemma RunLengthAll(s: string)
    requires NoSpace(s)
    ensures RunLength(s) == |s|
  {
    if s != [] {
      RunLengthAll(s[1..]);
    }
  }
}
