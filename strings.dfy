/**
 * The JavaScript string operations the application relies on: `trim`, `split`
 * and `join` on a single character, `startsWith`, `includes`, the removal of
 * leading and trailing runs of a character done with regular expressions, and
 * the decimal rendering of an integer.
 */
module Strings {

  /** The characters JavaScript's `trim` and the regex class `\s` treat as
      white space: WhiteSpace and LineTerminator of ECMAScript. */
  predicate IsJsWhitespace(c: char) {
    || c == '\t' || c == '\U{000B}' || c == '\U{000C}' || c == ' '
    || c == '\U{00A0}' || c == '\U{FEFF}' || c == '\U{1680}'
    || ('\U{2000}' <= c <= '\U{200A}')
    || c == '\U{202F}' || c == '\U{205F}' || c == '\U{3000}'
    || c == '\n' || c == '\r' || c == '\U{2028}' || c == '\U{2029}'
  }

  /** Neither end of `s` is white space (what `trim` leaves behind). */
  predicate NoEdgeWhitespace(s: string) {
    s != [] ==> !IsJsWhitespace(s[0]) && !IsJsWhitespace(s[|s| - 1])
  }

  /** Every character of `s` is white space. */
  predicate AllWhitespace(s: string) {
    forall i :: 0 <= i < |s| ==> IsJsWhitespace(s[i])
  }

  /** The first position at or after `lo` that is not white space (`|s|`
      when there is none). */
  function StartOfText(s: string, lo: nat): (a: nat)
    requires lo <= |s|
    ensures lo <= a <= |s|
    ensures forall i :: lo <= i < a ==> IsJsWhitespace(s[i])
    ensures a < |s| ==> !IsJsWhitespace(s[a])
    decreases |s| - lo
  {
    if lo < |s| && IsJsWhitespace(s[lo]) then StartOfText(s, lo + 1) else lo
  }

  /** The end of the text in `s[lo..hi]`: the smallest `e` such that only
      white space follows it up to `hi`. */
  function EndOfText(s: string, lo: nat, hi: nat): (e: nat)
    requires lo <= hi <= |s|
    ensures lo <= e <= hi
    ensures forall i :: e <= i < hi ==> IsJsWhitespace(s[i])
    ensures e > lo ==> !IsJsWhitespace(s[e - 1])
    decreases hi - lo
  {
    if lo < hi && IsJsWhitespace(s[hi - 1]) then EndOfText(s, lo, hi - 1) else hi
  }

  /** How many white-space characters `trim` cuts from the front of `s`. */
  function LeadingWhitespace(s: string): (n: nat)
    ensures n <= |s|
  {
    StartOfText(s, 0)
  }

  /** `trim`: the result is a slice of `s` with no white space at either end,
      and everything cut off is white space. */
  function Trim(s: string): (r: string)
    ensures LeadingWhitespace(s) + |r| <= |s|
    ensures NoEdgeWhitespace(r)
    ensures r == s[LeadingWhitespace(s)..LeadingWhitespace(s) + |r|]
    ensures AllWhitespace(s[..LeadingWhitespace(s)])
    ensures AllWhitespace(s[LeadingWhitespace(s) + |r|..])
  {
    var a := StartOfText(s, 0);
    var e := EndOfText(s, a, |s|);
    var r := s[a..e];
    assert r != [] ==> r[0] == s[a] && r[|r| - 1] == s[e - 1];
    r
  }

  /** Trimming a string that has no white space at its ends gives it back. */
  lemma TrimKeeps(s: string)
    requires NoEdgeWhitespace(s)
    ensures Trim(s) == s
  {
    assert s[0..|s|] == s;
  }

  /** A string made only of white space trims to the empty string. */
  lemma TrimAllWhitespace(s: string)
    requires AllWhitespace(s)
    ensures Trim(s) == ""
  {
    assert StartOfText(s, 0) == |s|;
  }

  /** `s.startsWith(prefix)`. */
  predicate StartsWith(s: string, prefix: string) {
    |prefix| <= |s| && s[..|prefix|] == prefix
  }

  /** `s.includes(sub)`. */
  predicate Contains(s: string, sub: string)
    decreases |s|
  {
    StartsWith(s, sub) || (s != [] && Contains(s[1..], sub))
  }

  /** `s.indexOf(c)` for a single character: the first position of `c`, or -1. */
  function IndexOfChar(s: string, c: char): (i: int)
    ensures -1 <= i < |s|
    ensures i >= 0 ==> s[i] == c && c !in s[..i]
    ensures i == -1 <==> c !in s
    decreases |s|
  {
    if s == [] then -1
    else if s[0] == c then 0
    else
      var j := IndexOfChar(s[1..], c);
      assert s[1..] == s[1..][..];
      if j == -1 then -1 else
        assert s[..j + 1] == [s[0]] + s[1..][..j];
        j + 1
  }

  /** `parts.join(sep)` for a one-character separator. */
  function Join(parts: seq<string>, sep: char): string
    decreases |parts|
  {
    if |parts| == 0 then ""
    else if |parts| == 1 then parts[0]
    else parts[0] + [sep] + Join(parts[1..], sep)
  }

  /** The first occurrence of `c` is at `k` when `c` is at `k` and not
      before it. */
  lemma IndexOfCharAt(s: string, c: char, k: nat)
    requires k < |s| && s[k] == c && c !in s[..k]
    ensures IndexOfChar(s, c) == k
  {
    var i := IndexOfChar(s, c);
    assert s[..k + 1][k] == c;
  }

  /** `s.split(sep)` for a one-character separator: the pieces between the
      separators, empty ones included, which `Join` puts back together. */
  function Split(s: string, sep: char): (parts: seq<string>)
    ensures |parts| >= 1
    ensures forall k :: 0 <= k < |parts| ==> sep !in parts[k]
    ensures Join(parts, sep) == s
    decreases |s|
  {
    var i := IndexOfChar(s, sep);
    if i < 0 then [s]
    else
      var rest := Split(s[i + 1..], sep);
      SplitStep(s, sep, i, rest);
      [s[..i]] + rest
  }

  /** One step of `Split`: the piece before the first separator followed by
      the pieces of what comes after it. */
  lemma SplitStep(s: string, sep: char, i: nat, rest: seq<string>)
    requires i < |s| && s[i] == sep && sep !in s[..i]
    requires |rest| >= 1 && (forall k :: 0 <= k < |rest| ==> sep !in rest[k])
    requires Join(rest, sep) == s[i + 1..]
    ensures var parts := [s[..i]] + rest;
      && (forall k :: 0 <= k < |parts| ==> sep !in parts[k])
      && Join(parts, sep) == s
  {
    var parts := [s[..i]] + rest;
    assert parts[1..] == rest;
    assert forall k :: 1 <= k < |parts| ==> parts[k] == rest[k - 1];
    assert Join(parts, sep) == s[..i] + [sep] + s[i + 1..];
    assert s == s[..i] + [sep] + s[i + 1..];
  }

  /** Splitting a piece without separators, a separator and a tail gives the
      piece followed by the tail's pieces. */
  lemma SplitCons(p: string, sep: char, tail: string)
    requires sep !in p
    ensures Split(p + [sep] + tail, sep) == [p] + Split(tail, sep)
  {
    var s := p + [sep] + tail;
    assert s[..|p|] == p && s[|p|] == sep;
    IndexOfCharAt(s, sep, |p|);
    assert s[|p| + 1..] == tail;
  }

  /** The converse round trip: splitting a join of separator-free pieces
      recovers the pieces. */
  lemma {:induction false} SplitJoin(parts: seq<string>, sep: char)
    requires |parts| >= 1
    requires forall k :: 0 <= k < |parts| ==> sep !in parts[k]
    ensures Split(Join(parts, sep), sep) == parts
    decreases |parts|
  {
    if |parts| > 1 {
      assert Join(parts, sep) == parts[0] + [sep] + Join(parts[1..], sep);
      assert sep !in parts[0];
      SplitCons(parts[0], sep, Join(parts[1..], sep));
      SplitJoin(parts[1..], sep);
      assert parts == [parts[0]] + parts[1..];
    } else {
      assert IndexOfChar(parts[0], sep) == -1;
    }
  }

  /** The text before the first `sep`: `s.split(sep)[0]`. */
  function FirstPiece(s: string, sep: char): (r: string)
    ensures StartsWith(s, r) && sep !in r
    ensures r == s <==> sep !in s
  {
    Split(s, sep)[0]
  }

  /** The first position at or after `lo` that does not hold `c` (`|s|`
      when there is none). */
  function SkipLeading(s: string, c: char, lo: nat): (a: nat)
    requires lo <= |s|
    ensures lo <= a <= |s|
    ensures forall i :: lo <= i < a ==> s[i] == c
    ensures a < |s| ==> s[a] != c
    decreases |s| - lo
  {
    if lo < |s| && s[lo] == c then SkipLeading(s, c, lo + 1) else lo
  }

  /** The smallest `e` at or after `lo` such that only `c` follows it up to
      `hi`. */
  function SkipTrailing(s: string, c: char, lo: nat, hi: nat): (e: nat)
    requires lo <= hi <= |s|
    ensures lo <= e <= hi
    ensures forall i :: e <= i < hi ==> s[i] == c
    ensures e > lo ==> s[e - 1] != c
    decreases hi - lo
  {
    if lo < hi && s[hi - 1] == c then SkipTrailing(s, c, lo, hi - 1) else hi
  }

  /** `s.replace(/c+$/, '')`: every trailing `c` removed. */
  function StripTrailing(s: string, c: char): (r: string)
    ensures StartsWith(s, r)
    ensures r == [] || r[|r| - 1] != c
    ensures forall i :: |r| <= i < |s| ==> s[i] == c
  {
    s[..SkipTrailing(s, c, 0, |s|)]
  }

  /** The decimal digits of a natural number, most significant first. */
  function NatToString(n: nat): (r: string)
    ensures |r| >= 1
    ensures forall i :: 0 <= i < |r| ==> '0' <= r[i] <= '9'
    decreases n
  {
    var d := [('0' as int + n % 10) as char];
    if n < 10 then d else NatToString(n / 10) + d
  }

  /** How JavaScript renders an integral number in a template literal. */
  function IntToString(n: int): string {
    if n < 0 then "-" + NatToString(-n) else NatToString(n)
  }
}
