/** The Python `str` methods the scripts rely on (strip, split, splitlines,
    startswith, lower, join, `in`), on Dafny strings of Unicode scalar values. */
module PyText {
  import opened Wrappers

  /** The characters `str.isspace()` accepts; `str.strip()` with no argument
      and the regular-expression class `\s` both use exactly this set. */
  predicate IsSpace(c: char) {
    || ('\t' <= c <= '\r')              // \t \n \x0b \x0c \r
    || ('\U{1C}' <= c <= ' ')            // \x1c-\x1f and the space
    || c == '\U{85}' || c == '\U{A0}' || c == '\U{1680}'
    || ('\U{2000}' <= c <= '\U{200A}')
    || c == '\U{2028}' || c == '\U{2029}' || c == '\U{202F}' || c == '\U{205F}' || c == '\U{3000}'
  }

  /** The characters at which `str.splitlines()` ends a line ("\r\n" counts once). */
  predicate IsLineBreak(c: char) {
    || ('\n' <= c <= '\r')              // \n \x0b \x0c \r
    || ('\U{1C}' <= c <= '\U{1E}')
    || c == '\U{85}' || c == '\U{2028}' || c == '\U{2029}'
  }

  /** The argument of `strip`/`lstrip`/`rstrip`: no argument (whitespace) or a set of characters. */
  datatype CharClass = Spaces | Chars(cs: set<char>)

  predicate InClass(c: char, cls: CharClass) {
    match cls
    case Spaces => IsSpace(c)
    case Chars(cs) => c in cs
  }

  /** ASCII letters, digits and underscore: the class `\w` restricted to ASCII. */
  predicate IsWordChar(c: char) {
    ('a' <= c <= 'z') || ('A' <= c <= 'Z') || ('0' <= c <= '9') || c == '_'
  }

  /** End of the run of whitespace starting at `i`. */
  function SpaceEnd(s: string, i: nat): (j: nat)
    requires i <= |s|
    ensures i <= j <= |s|
    ensures forall k :: i <= k < j ==> IsSpace(s[k])
    ensures j < |s| ==> !IsSpace(s[j])
    decreases |s| - i
  {
    if i < |s| && IsSpace(s[i]) then SpaceEnd(s, i + 1) else i
  }

  /** `s.lstrip(cs)`: drop the longest prefix made of characters in `cs`. */
  function TrimLeft(s: string, cs: CharClass): (r: string)
    ensures |r| <= |s| && r == s[|s| - |r|..]
    ensures forall i :: 0 <= i < |s| - |r| ==> InClass(s[i], cs)
    ensures r != [] ==> !InClass(r[0], cs)
  {
    if s != [] && InClass(s[0], cs) then TrimLeft(s[1..], cs) else s
  }

  /** `s.rstrip(cs)`: drop the longest suffix made of characters in `cs`. */
  function TrimRight(s: string, cs: CharClass): (r: string)
    ensures |r| <= |s| && r == s[..|r|]
    ensures forall i :: |r| <= i < |s| ==> InClass(s[i], cs)
    ensures r != [] ==> !InClass(r[|r| - 1], cs)
  {
    if s != [] && InClass(s[|s| - 1], cs) then TrimRight(s[..|s| - 1], cs) else s
  }

  /** `s.strip(cs)`: both ends, every character of `cs`, any number of times. */
  function StripChars(s: string, cs: CharClass): (r: string)
    ensures |r| <= |s|
    ensures r != [] ==> !InClass(r[0], cs) && !InClass(r[|r| - 1], cs)
    ensures (forall i :: 0 <= i < |s| ==> InClass(s[i], cs)) ==> r == []
  {
    var left := TrimLeft(s, cs);
    assert left != [] ==> left[0] == s[|s| - |left|];
    TrimRight(left, cs)
  }

  /** Stripping removes characters and adds none. */
  lemma StripKeepsOut(s: string, cs: CharClass, c: char)
    requires c !in s
    ensures c !in StripChars(s, cs)
  {
    var left := TrimLeft(s, cs);
    forall j | 0 <= j < |left| ensures left[j] != c {
      assert left[j] == s[|s| - |left| + j];
    }
    var r := TrimRight(left, cs);
    assert r == StripChars(s, cs);
    forall j | 0 <= j < |r| ensures r[j] != c {
      assert r[j] == left[j];
    }
  }

  /** `s.strip()`. */
  function Strip(s: string): string {
    StripChars(s, Spaces)
  }

  lemma {:induction false} TrimLeftNoop(s: string, cs: CharClass)
    requires s == [] || !InClass(s[0], cs)
    ensures TrimLeft(s, cs) == s
  {
  }

  predicate StartsWith(s: string, prefix: string) {
    |prefix| <= |s| && s[..|prefix|] == prefix
  }

  predicate EndsWith(s: string, suffix: string) {
    |suffix| <= |s| && s[|s| - |suffix|..] == suffix
  }

  /** `sub in s` for two strings. */
  predicate IsSubstring(sub: string, s: string)
    decreases |s|
  {
    StartsWith(s, sub) || (s != [] && IsSubstring(sub, s[1..]))
  }

  /** `s.find(c)` as an optional index. */
  function IndexOf(s: string, c: char): (r: Option<nat>)
    ensures r.None? <==> c !in s
    ensures r.Some? ==> r.value < |s| && s[r.value] == c && c !in s[..r.value]
  {
    if s == [] then None
    else if s[0] == c then Some(0)
    else match IndexOf(s[1..], c)
      case None => None
      case Some(i) => assert s[1..][..i] == s[1..i + 1]; Some(i + 1)
  }

  /** `s.split(sep)` for a one-character separator. */
  function Split(s: string, sep: char): (r: seq<string>)
    ensures |r| >= 1
    ensures forall k :: 0 <= k < |r| ==> sep !in r[k]
    decreases |s|
  {
    match IndexOf(s, sep)
    case None => [s]
    case Some(i) => [s[..i]] + Split(s[i + 1..], sep)
  }

  /** `sep.join(xs)`. */
  function Join(sep: string, xs: seq<string>): string
    decreases |xs|
  {
    if xs == [] then ""
    else if |xs| == 1 then xs[0]
    else xs[0] + sep + Join(sep, xs[1..])
  }

  lemma {:induction false} SplitJoin(s: string, sep: char)
    ensures Join([sep], Split(s, sep)) == s
    decreases |s|
  {
    match IndexOf(s, sep)
    case None =>
    case Some(i) =>
      var rest := Split(s[i + 1..], sep);
      SplitJoin(s[i + 1..], sep);
      assert Split(s, sep) == [s[..i]] + rest;
      assert s == s[..i] + [sep] + s[i + 1..];
  }

  /** Index of the first line break in `s`, or `|s|`. */
  function LineLength(s: string): (n: nat)
    ensures n <= |s|
    ensures forall i :: 0 <= i < n ==> !IsLineBreak(s[i])
    ensures n < |s| ==> IsLineBreak(s[n])
  {
    if s == [] || IsLineBreak(s[0]) then 0 else 1 + LineLength(s[1..])
  }

  /** `s.splitlines()`: lines without their terminators; no final empty line. */
  function SplitLines(s: string): (r: seq<string>)
    ensures forall k, i :: 0 <= k < |r| && 0 <= i < |r[k]| ==> !IsLineBreak(r[k][i])
    ensures s == [] <==> r == []
    decreases |s|
  {
    if s == [] then []
    else
      var n := LineLength(s);
      if n == |s| then [s]
      else
        var skip := if s[n] == '\r' && n + 1 < |s| && s[n + 1] == '\n' then 2 else 1;
        [s[..n]] + SplitLines(s[n + skip..])
  }

  function LowerChar(c: char): char {
    if 'A' <= c <= 'Z' then (c as int + 32) as char else c
  }

  /** `s.lower()` on ASCII letters. */
  function Lower(s: string): (r: string)
    ensures |r| == |s|
    ensures forall i :: 0 <= i < |s| ==> r[i] == LowerChar(s[i])
  {
    if s == [] then [] else [LowerChar(s[0])] + Lower(s[1..])
  }

  function DigitChar(d: nat): char
    requires d < 10
  {
    ('0' as int + d) as char
  }

  /** Decimal digits of a natural number, most significant first. */
  function NatDigits(n: nat): (r: string)
    ensures |r| >= 1
    ensures forall i :: 0 <= i < |r| ==> '0' <= r[i] <= '9'
    ensures n >= 10 ==> |r| >= 2
    ensures n < 10 ==> r == [DigitChar(n)]
  {
    if n < 10 then [DigitChar(n)] else NatDigits(n / 10) + [DigitChar(n % 10)]
  }

  /** `str(i)` for a Python int. */
  function Decimal(i: int): string {
    if i < 0 then "-" + NatDigits(-i) else NatDigits(i)
  }

  /** The only int whose `str()` is "1" is 1, and no int prints as a word. */
  lemma DecimalOne(i: int)
    ensures Decimal(i) == "1" <==> i == 1
    ensures Decimal(i) != "true" && Decimal(i) != "yes"
    ensures Lower(Decimal(i)) == Decimal(i)
  {
    if i < 0 {
      assert Decimal(i)[0] == '-';
    } else if i >= 10 {
      assert |Decimal(i)| >= 2;
      assert '0' <= Decimal(i)[0] <= '9';
    } else {
      assert Decimal(i) == [DigitChar(i)];
    }
  }
}
