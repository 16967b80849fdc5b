/** String helpers with the exact semantics of the JavaScript and Python
    built-ins the system calls: trim/strip, startswith/endswith, join and a
    global single-character replace. */
module Text {

  /** Whose notion of white space a trim uses. */
  datatype Flavor = Js | Py

  /** WhiteSpace and LineTerminator of ECMAScript, as String.prototype.trim
      and parseInt skip them. */
  predicate IsJsSpace(c: char) {
    || ('\t' <= c <= '\r')
    || c == ' ' || c == '\U{00A0}' || c == '\U{1680}'
    || ('\U{2000}' <= c <= '\U{200A}')
    || c == '\U{2028}' || c == '\U{2029}' || c == '\U{202F}' || c == '\U{205F}'
    || c == '\U{3000}' || c == '\U{FEFF}'
  }

  /** The characters Python's str.strip() removes when given no argument
      (those for which str.isspace() holds). */
  predicate IsPySpace(c: char) {
    || ('\t' <= c <= '\r')
    || ('\U{001C}' <= c <= ' ')
    || c == '\U{0085}' || c == '\U{00A0}' || c == '\U{1680}'
    || ('\U{2000}' <= c <= '\U{200A}')
    || c == '\U{2028}' || c == '\U{2029}' || c == '\U{202F}' || c == '\U{205F}'
    || c == '\U{3000}'
  }

  predicate IsSpace(f: Flavor, c: char) {
    match f
    case Js => IsJsSpace(c)
    case Py => IsPySpace(c)
  }

  /** Every character of `s` is white space (the empty string included). */
  predicate IsBlank(f: Flavor, s: string) {
    forall i :: 0 <= i < |s| ==> IsSpace(f, s[i])
  }

  /** The number of white-space characters that start `s`. */
  function LeadingSpaces(f: Flavor, s: string): (n: nat)
    ensures n <= |s|
    ensures IsBlank(f, s[..n])
    ensures n < |s| ==> !IsSpace(f, s[n])
  {
    if s != [] && IsSpace(f, s[0]) then 1 + LeadingSpaces(f, s[1..]) else 0
  }

  /** The number of white-space characters that end `s`. */
  function TrailingSpaces(f: Flavor, s: string): (n: nat)
    ensures n <= |s|
    ensures IsBlank(f, s[|s| - n..])
    ensures n < |s| ==> !IsSpace(f, s[|s| - 1 - n])
  {
    if s != [] && IsSpace(f, s[|s| - 1]) then 1 + TrailingSpaces(f, s[..|s| - 1]) else 0
  }

  /** `s` without its leading white space (what parseInt skips). */
  function TrimStart(f: Flavor, s: string): string {
    s[LeadingSpaces(f, s)..]
  }

  /** `s.trim()` in JavaScript, `s.strip()` in Python. */
  function Trim(f: Flavor, s: string): (r: string)
    ensures r == [] || (!IsSpace(f, r[0]) && !IsSpace(f, r[|r| - 1]))
    ensures r == [] <==> IsBlank(f, s)
  {
    var rest := TrimStart(f, s);
    TrimIsEmptyOnlyWhenBlank(f, s);
    rest[..|rest| - TrailingSpaces(f, rest)]
  }

  /** Nothing is left between the leading and the trailing white space
      exactly when the text is blank. */
  lemma TrimIsEmptyOnlyWhenBlank(f: Flavor, s: string)
    ensures var rest := TrimStart(f, s); |rest| == TrailingSpaces(f, rest) <==> IsBlank(f, s)
  {
    var n := LeadingSpaces(f, s);
    var rest := s[n..];
    if |rest| == TrailingSpaces(f, rest) {
      assert rest[|rest| - |rest|..] == rest;
      assert s == s[..n] + rest;
      BlankConcat(f, s[..n], rest);
    }
    if IsBlank(f, s) {
      BlankHasOnlyLeadingSpaces(f, s);
    }
  }

  lemma BlankConcat(f: Flavor, a: string, b: string)
    requires IsBlank(f, a) && IsBlank(f, b)
    ensures IsBlank(f, a + b)
  {
  }

  /** Leading white space does not change where the text after it starts. */
  lemma {:induction false} LeadingSpacesOfPadded(f: Flavor, pad: string, s: string)
    requires IsBlank(f, pad)
    ensures LeadingSpaces(f, pad + s) == |pad| + LeadingSpaces(f, s)
  {
    if pad != [] {
      assert (pad + s)[1..] == pad[1..] + s;
      LeadingSpacesOfPadded(f, pad[1..], s);
    } else {
      assert pad + s == s;
    }
  }

  /** Trailing white space does not change where the text before it ends. */
  lemma {:induction false} TrailingSpacesOfPadded(f: Flavor, s: string, pad: string)
    requires IsBlank(f, pad)
    ensures TrailingSpaces(f, s + pad) == |pad| + TrailingSpaces(f, s)
  {
    if pad != [] {
      assert (s + pad)[..|s + pad| - 1] == s + pad[..|pad| - 1];
      TrailingSpacesOfPadded(f, s, pad[..|pad| - 1]);
    } else {
      assert s + pad == s;
    }
  }

  /** Trimming removes exactly the white-space padding around a text that
      neither starts nor ends with white space. */
  lemma TrimOfPadded(f: Flavor, before: string, x: string, after: string)
    requires IsBlank(f, before) && IsBlank(f, after)
    requires x == [] || (!IsSpace(f, x[0]) && !IsSpace(f, x[|x| - 1]))
    ensures Trim(f, before + x + after) == x
  {
    if x == [] {
      assert before + x + after == before + after;
      BlankConcat(f, before, after);
    } else {
      TrimOfPaddedText(f, before, x, after);
    }
  }

  lemma TrimOfPaddedText(f: Flavor, before: string, x: string, after: string)
    requires IsBlank(f, before) && IsBlank(f, after)
    requires x != [] && !IsSpace(f, x[0]) && !IsSpace(f, x[|x| - 1])
    ensures Trim(f, before + x + after) == x
  {
    var y := x + after;
    assert before + x + after == before + y;
    LeadingSpacesOfPadded(f, before, y);
    assert y[0] == x[0];
    var rest := TrimStart(f, before + y);
    assert rest == y;
    TrailingSpacesOfPadded(f, x, after);
    assert y[..|y| - |after|] == x;
  }

  lemma BlankHasOnlyLeadingSpaces(f: Flavor, s: string)
    requires IsBlank(f, s)
    ensures LeadingSpaces(f, s) == |s|
  {
  }

  predicate StartsWith(s: string, prefix: string) {
    |prefix| <= |s| && s[..|prefix|] == prefix
  }

  predicate EndsWith(s: string, suffix: string) {
    |suffix| <= |s| && s[|s| - |suffix|..] == suffix
  }

  /** Array.prototype.join over strings. */
  function Join(parts: seq<string>, sep: string): string {
    if parts == [] then ""
    else if |parts| == 1 then parts[0]
    else parts[0] + sep + Join(parts[1..], sep)
  }

  /** With a non-empty separator, a join is empty only for no parts or a
      single empty part. */
  lemma {:induction false} JoinIsEmpty(parts: seq<string>, sep: string)
    requires sep != ""
    ensures Join(parts, sep) == "" <==> parts == [] || (|parts| == 1 && parts[0] == "")
  {
    if |parts| > 1 {
      assert |parts[0] + sep + Join(parts[1..], sep)| >= |sep|;
    }
  }

  /** `s.replace(/from/g, to)` for a single character `from`. */
  function ReplaceAll(s: string, from: char, to: char): (r: string)
    ensures |r| == |s|
    ensures forall i :: 0 <= i < |s| ==> r[i] == (if s[i] == from then to else s[i])
  {
    if s == [] then [] else [if s[0] == from then to else s[0]] + ReplaceAll(s[1..], from, to)
  }

  /** The text before and after the first occurrence of `c`. */
  function SplitAtFirst(s: string, c: char): (string, string) {
    if s == [] then ("", "")
    else if s[0] == c then ("", s[1..])
    else var (a, b) := SplitAtFirst(s[1..], c); ([s[0]] + a, b)
  }

  /** Splitting at the first `c` undoes gluing with a `c` when the left part has none. */
  lemma {:induction false} SplitAtFirstOfGlued(a: string, c: char, b: string)
    requires c !in a
    ensures SplitAtFirst(a + [c] + b, c) == (a, b)
  {
    if a != [] {
      assert (a + [c] + b)[1..] == a[1..] + [c] + b;
      SplitAtFirstOfGlued(a[1..], c, b);
      assert [a[0]] + a[1..] == a;
    } else {
      assert a + [c] + b == [c] + b;
    }
  }
}
