/** The parts of Python's `str` the daemon relies on -- `lower()`, `strip()`,
    `split(sep)`, `sep.join(...)`, `startswith` and slicing -- over `seq<char>`. */
module PyStr {

  /** `lower()` on one character. Only ASCII letters are mapped. */
  function LowerChar(c: char): char
  {
    if 'A' <= c <= 'Z' then (c as int + 32) as char else c
  }

  /** `s.lower()` */
  function Lower(s: string): (r: string)
    ensures |r| == |s|
    ensures forall i :: 0 <= i < |s| ==> r[i] == LowerChar(s[i])
  {
    if s == [] then [] else [LowerChar(s[0])] + Lower(s[1..])
  }

  /** Reference definition of case-insensitive equality, character by character. */
  predicate EqualsIgnoringCase(a: string, b: string)
  {
    |a| == |b| && forall i :: 0 <= i < |a| ==> LowerChar(a[i]) == LowerChar(b[i])
  }

  /** `w` is its own lower-case form. */
  predicate IsLowerCase(w: string)
  {
    forall i :: 0 <= i < |w| ==> LowerChar(w[i]) == w[i]
  }

  /** Comparing `s.lower()` with a lower-case word is case-insensitive equality. */
  lemma LowerMatchesIgnoringCase(s: string, w: string)
    requires IsLowerCase(w)
    ensures Lower(s) == w <==> EqualsIgnoringCase(s, w)
  {
    if EqualsIgnoringCase(s, w) {
      assert forall i :: 0 <= i < |s| ==> Lower(s)[i] == w[i];
    }
  }

  /** The characters `str.isspace()` accepts, which `strip()` removes by default. */
  predicate IsSpace(c: char)
  {
    var n := c as int;
    || n == 0x20 || 0x09 <= n <= 0x0D || 0x1C <= n <= 0x1F
    || n == 0x85 || n == 0xA0 || n == 0x1680 || 0x2000 <= n <= 0x200A
    || n == 0x2028 || n == 0x2029 || n == 0x202F || n == 0x205F || n == 0x3000
  }

  predicate AllSpace(s: string)
  {
    forall k :: 0 <= k < |s| ==> IsSpace(s[k])
  }

  /** Number of whitespace characters at the front of `s`. */
  function LeadingSpaces(s: string): (k: nat)
    ensures k <= |s|
    ensures AllSpace(s[..k])
    ensures k < |s| ==> !IsSpace(s[k])
  {
    if s == [] || !IsSpace(s[0]) then 0 else 1 + LeadingSpaces(s[1..])
  }

  /** Index at which the whitespace at the end of `s` begins. */
  function TrailingStart(s: string): (k: nat)
    ensures k <= |s|
    ensures AllSpace(s[k..])
    ensures 0 < k ==> !IsSpace(s[k - 1])
  {
    if s == [] || !IsSpace(s[|s| - 1]) then |s| else TrailingStart(s[..|s| - 1])
  }

  /** `s.strip()`: the middle of `s` once surrounding whitespace is gone. */
  function Strip(s: string): (r: string)
    ensures r == [] || (!IsSpace(r[0]) && !IsSpace(r[|r| - 1]))
    ensures exists i, j :: 0 <= i <= j <= |s| && r == s[i..j] && AllSpace(s[..i]) && AllSpace(s[j..])
  {
    var i := LeadingSpaces(s);
    if i == |s| then
      assert s[..i] == s && s[i..] == [];
      []
    else
      var j := TrailingStart(s);
      s[i..j]
  }

  /** Stripping a stripped string changes nothing. */
  lemma StripIdempotent(s: string)
    ensures Strip(Strip(s)) == Strip(s)
  {
    var r := Strip(s);
    if r != [] {
      assert LeadingSpaces(r) == 0;
      assert TrailingStart(r) == |r|;
      assert r[0..|r|] == r;
    }
  }

  /** Everything `strip()` keeps was already in `s`. */
  lemma StripKeepsOnlyCharsOf(s: string, c: char)
    requires c in Strip(s)
    ensures c in s
  {
    var i, j :| 0 <= i <= j <= |s| && Strip(s) == s[i..j];
    var k :| 0 <= k < |Strip(s)| && Strip(s)[k] == c;
    assert s[i + k] == c;
  }

  /** Position of the first `c` in `s` at or after `from`, or `|s|` when there is none. */
  function IndexFrom(s: string, c: char, from: nat): (i: nat)
    requires from <= |s|
    ensures from <= i <= |s|
    ensures forall k :: from <= k < i ==> s[k] != c
    ensures i < |s| ==> s[i] == c
    decreases |s| - from
  {
    if from == |s| || s[from] == c then from else IndexFrom(s, c, from + 1)
  }

  /** `sep.join(parts)` */
  function Join(parts: seq<string>, sep: char): string
  {
    if parts == [] then []
    else if |parts| == 1 then parts[0]
    else parts[0] + [sep] + Join(parts[1..], sep)
  }

  /** `s[from:].split(sep)` for a one-character separator. */
  function SplitFrom(s: string, sep: char, from: nat): (parts: seq<string>)
    requires from <= |s|
    ensures 1 <= |parts|
    decreases |s| - from
  {
    var i := IndexFrom(s, sep, from);
    if i == |s| then [s[from..]] else [s[from..i]] + SplitFrom(s, sep, i + 1)
  }

  /** `s.split(sep)` for a one-character separator. */
  function Split(s: string, sep: char): (parts: seq<string>)
    ensures 1 <= |parts|
    ensures parts[0] == s[..IndexFrom(s, sep, 0)]
  {
    SplitFrom(s, sep, 0)
  }

  /** `split` is undone by `join`: joining the parts with the separator gives
      the string back. */
  lemma {:induction false} SplitFromJoin(s: string, sep: char, from: nat)
    requires from <= |s|
    ensures Join(SplitFrom(s, sep, from), sep) == s[from..]
    decreases |s| - from
  {
    var i := IndexFrom(s, sep, from);
    if i < |s| {
      var rest := SplitFrom(s, sep, i + 1);
      SplitFromJoin(s, sep, i + 1);
      var parts := SplitFrom(s, sep, from);
      assert parts[0] == s[from..i] && parts[1..] == rest;
      assert s[from..] == s[from..i] + [sep] + s[i + 1..];
    }
  }

  /** No part of a split holds the separator, and there is a single part
      exactly when the separator does not occur. */
  lemma {:induction false} SplitFromParts(s: string, sep: char, from: nat)
    requires from <= |s|
    ensures forall k :: 0 <= k < |SplitFrom(s, sep, from)| ==> sep !in SplitFrom(s, sep, from)[k]
    ensures |SplitFrom(s, sep, from)| == 1 <==> sep !in s[from..]
    decreases |s| - from
  {
    var i := IndexFrom(s, sep, from);
    if i < |s| {
      var rest := SplitFrom(s, sep, i + 1);
      SplitFromParts(s, sep, i + 1);
      var parts := SplitFrom(s, sep, from);
      assert parts[0] == s[from..i];
      assert forall k :: 1 <= k < |parts| ==> parts[k] == rest[k - 1];
      assert s[from..][i - from] == sep;
    }
  }

  /** `s[i]` is the first `sep` in `s`, and `j` is the position of the next
      `sep` after it, or the end of `s` when there is none. */
  predicate SecondFieldSpan(s: string, sep: char, i: int, j: int)
  {
    && 0 <= i < j <= |s| && s[i] == sep
    && (forall k :: 0 <= k < i ==> s[k] != sep)
    && (j == |s| || s[j] == sep)
    && (forall k :: i < k < j ==> s[k] != sep)
  }

  /** The second part of `s.split(sep)` is the text strictly between the first
      `sep` and the next one (or the end of `s`). */
  lemma SplitSecondPart(s: string, sep: char)
    requires sep in s
    ensures |Split(s, sep)| >= 2
    ensures exists i, j :: SecondFieldSpan(s, sep, i, j) && Split(s, sep)[1] == s[i + 1..j]
  {
    var i := IndexFrom(s, sep, 0);
    var j := IndexFrom(s, sep, i + 1);
    assert SplitFrom(s, sep, i + 1)[0] == s[i + 1..j];
    assert SecondFieldSpan(s, sep, i, j);
  }

  /** `s[0:n]`: Python's slice stops at the end of a shorter string. */
  function Prefix(s: string, n: nat): (r: string)
    ensures |r| == if n <= |s| then n else |s|
    ensures r <= s
  {
    if n <= |s| then s[..n] else s
  }

  /** `s.startswith(p)` */
  predicate StartsWith(s: string, p: string)
  {
    p <= s
  }

  /** Comparing a clamped slice of a string with a word of that length is `startswith`. */
  lemma PrefixEqualsIsStartsWith(s: string, w: string)
    ensures Prefix(s, |w|) == w <==> StartsWith(s, w)
  {
  }
}
