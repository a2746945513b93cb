/**
 * String helpers with Python's meaning: case mapping, substring tests,
 * slicing, line splitting, whitespace, ordering and joining.
 * Case mapping covers ASCII letters only.
 */
module Text {

  // ---------------------------------------------------------------- case

  function LowerChar(c: char): char {
    if 'A' <= c <= 'Z' then (c as int + 32) as char else c
  }

  function UpperChar(c: char): char {
    if 'a' <= c <= 'z' then (c as int - 32) as char else c
  }

  /** `s.lower()`, restricted to ASCII letters. */
  function Lower(s: string): (r: string)
    ensures |r| == |s|
  {
    seq(|s|, i requires 0 <= i < |s| => LowerChar(s[i]))
  }

  /** `s.upper()`, restricted to ASCII letters. */
  function Upper(s: string): (r: string)
    ensures |r| == |s|
  {
    seq(|s|, i requires 0 <= i < |s| => UpperChar(s[i]))
  }

  // ---------------------------------------------------------------- substrings

  predicate StartsWith(s: string, prefix: string) {
    |prefix| <= |s| && s[..|prefix|] == prefix
  }

  /** `s.endswith(suffix)` */
  predicate EndsWith(s: string, suffix: string) {
    |suffix| <= |s| && s[|s| - |suffix|..] == suffix
  }

  /** `needle in s` for strings. */
  predicate Contains(s: string, needle: string)
    decreases |s|
  {
    StartsWith(s, needle) || (|s| > 0 && Contains(s[1..], needle))
  }

  /** `s[:n]` with Python's clamping of an index past the end. */
  function Prefix(s: string, n: nat): (r: string)
    ensures |r| <= |s|
  {
    if n <= |s| then s[..n] else s
  }

  /** `s.count(c)` for a single character. */
  function CountChar(s: string, c: char): (n: nat)
    ensures n <= |s|
  {
    if s == [] then 0 else CountChar(s[..|s| - 1], c) + (if s[|s| - 1] == c then 1 else 0)
  }

  /** Index of the first `c` in `s`, or `|s|` when there is none. */
  function IndexOf(s: string, c: char): (k: nat)
    ensures k <= |s|
    ensures k < |s| ==> s[k] == c
    ensures forall i :: 0 <= i < k ==> s[i] != c
  {
    if s == [] then 0 else if s[0] == c then 0 else 1 + IndexOf(s[1..], c)
  }

  // ---------------------------------------------------------------- lines of a text file

  /**
   * The lines that iterating over a file opened in text mode yields: each line
   * keeps its terminating '\n', the last one may lack it, and an empty file has
   * no lines. The content is taken after newline translation.
   */
  function Lines(s: string): seq<string>
    decreases |s|
  {
    if s == [] then []
    else
      var k := IndexOf(s, '\n');
      if k == |s| then [s] else [s[..k + 1]] + Lines(s[k + 1..])
  }

  function Concat(ls: seq<string>): string {
    if ls == [] then [] else ls[0] + Concat(ls[1..])
  }

  // ---------------------------------------------------------------- whitespace and SLOC

  /** `c.isspace()`: Python's whitespace characters. */
  predicate IsSpace(c: char) {
    c == ' ' || ('\t' <= c <= '\r') || (0x1c <= c as int <= 0x1f) || c as int == 0x85
    || c as int == 0xa0 || c as int == 0x1680 || (0x2000 <= c as int <= 0x200a)
    || c as int == 0x2028 || c as int == 0x2029 || c as int == 0x202f
    || c as int == 0x205f || c as int == 0x3000
  }

  /** The characters at which `str.splitlines()` breaks a line. */
  predicate IsLineBoundary(c: char) {
    c == '\n' || c == '\r' || c as int == 0x0b || c as int == 0x0c
    || (0x1c <= c as int <= 0x1e) || c as int == 0x85 || c as int == 0x2028 || c as int == 0x2029
  }

  /** `not s.strip()`: the string holds whitespace only. */
  predicate Blank(s: string) {
    forall i :: 0 <= i < |s| ==> IsSpace(s[i])
  }

  function FirstBoundary(s: string): (k: nat)
    ensures k <= |s|
    ensures k < |s| ==> IsLineBoundary(s[k])
    ensures forall i :: 0 <= i < k ==> !IsLineBoundary(s[i])
  {
    if s == [] then 0 else if IsLineBoundary(s[0]) then 0 else 1 + FirstBoundary(s[1..])
  }

  /**
   * The pieces between line boundaries. `str.splitlines()` differs only by
   * blank pieces (it takes "\r\n" as one boundary and drops a trailing empty
   * piece), so both have the same non-blank pieces.
   */
  function Segments(s: string): seq<string>
    decreases |s|
  {
    var k := FirstBoundary(s);
    if k == |s| then [s] else [s[..k]] + Segments(s[k + 1..])
  }

  function CountNonBlank(ls: seq<string>): nat {
    if ls == [] then 0 else (if Blank(ls[0]) then 0 else 1) + CountNonBlank(ls[1..])
  }

  /** The number of lines of `content` that hold something other than whitespace. */
  function Sloc(content: string): nat {
    CountNonBlank(Segments(content))
  }

  lemma BoundaryIsSpace(c: char)
    ensures IsLineBoundary(c) ==> IsSpace(c)
  {
  }

  lemma BlankConcat(a: string, b: string)
    ensures Blank(a + b) <==> Blank(a) && Blank(b)
  {
    if Blank(a + b) {
      forall i | 0 <= i < |a| ensures IsSpace(a[i]) { assert a[i] == (a + b)[i]; }
      forall i | 0 <= i < |b| ensures IsSpace(b[i]) { assert b[i] == (a + b)[|a| + i]; }
    }
  }

  /** A text has no source line exactly when it is whitespace only. */
  lemma {:induction false} SlocZeroIffBlank(s: string)
    ensures Sloc(s) == 0 <==> Blank(s)
    decreases |s|
  {
    var k := FirstBoundary(s);
    if k < |s| {
      var rest := s[k + 1..];
      var segs := Segments(rest);
      assert Segments(s) == [s[..k]] + segs;
      assert ([s[..k]] + segs)[1..] == segs;
      SlocZeroIffBlank(rest);
      BoundaryIsSpace(s[k]);
      assert s == s[..k] + ([s[k]] + rest);
      BlankConcat(s[..k], [s[k]] + rest);
      BlankConcat([s[k]], rest);
    } else {
      assert Segments(s) == [s];
      assert CountNonBlank([s]) == (if Blank(s) then 0 else 1) + CountNonBlank([]);
    }
  }

  // ---------------------------------------------------------------- ordering

  /** Python's `a <= b` on strings: lexicographic by code point. */
  predicate StrLe(a: string, b: string)
    decreases |a|
  {
    if a == [] then true
    else if b == [] then false
    else if a[0] != b[0] then a[0] < b[0]
    else StrLe(a[1..], b[1..])
  }

  predicate StrLt(a: string, b: string) {
    StrLe(a, b) && a != b
  }

  lemma {:induction false} StrLeTotal(a: string, b: string)
    ensures StrLe(a, b) || StrLe(b, a)
    decreases |a|
  {
    if a != [] && b != [] && a[0] == b[0] {
      StrLeTotal(a[1..], b[1..]);
    }
  }

  lemma {:induction false} StrLeTrans(a: string, b: string, c: string)
    requires StrLe(a, b) && StrLe(b, c)
    ensures StrLe(a, c)
    decreases |a|
  {
    if a != [] && b != [] && c != [] && a[0] == b[0] && b[0] == c[0] {
      StrLeTrans(a[1..], b[1..], c[1..]);
    }
  }

  lemma {:induction false} StrLeAntisym(a: string, b: string)
    requires StrLe(a, b) && StrLe(b, a)
    ensures a == b
    decreases |a|
  {
    if a != [] {
      StrLeAntisym(a[1..], b[1..]);
      assert a == [a[0]] + a[1..];
      assert b == [b[0]] + b[1..];
    }
  }

  lemma StrLeRefl(a: string)
    ensures StrLe(a, a)
  {
    StrLeTotal(a, a);
  }

  // ---------------------------------------------------------------- joining

  /** `sep.join(parts)` */
  function JoinWith(parts: seq<string>, sep: string): string {
    if parts == [] then ""
    else if |parts| == 1 then parts[0]
    else parts[0] + sep + JoinWith(parts[1..], sep)
  }

  // ---------------------------------------------------------------- sequences

  /** Concatenation regroups freely. */
  lemma AppendAssoc<T>(a: seq<T>, b: seq<T>, c: seq<T>)
    ensures (a + b) + c == a + (b + c)
  {
  }

  /** Some element of `s` satisfies `P` exactly when one before the last does or the last does. */
  lemma ExistsSnoc<T>(s: seq<T>, init: seq<T>, P: T -> bool)
    requires s != [] && init == s[..|s| - 1]
    ensures (exists i :: 0 <= i < |s| && P(s[i])) <==>
      (exists i :: 0 <= i < |init| && P(init[i])) || P(s[|s| - 1])
  {
    if exists i :: 0 <= i < |s| && P(s[i]) {
      var i :| 0 <= i < |s| && P(s[i]);
      if i < |init| {
        assert init[i] == s[i];
      }
    }
    if exists i :: 0 <= i < |init| && P(init[i]) {
      var i :| 0 <= i < |init| && P(init[i]);
      assert s[i] == init[i];
    }
  }
}
