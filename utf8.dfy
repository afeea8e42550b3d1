/** UTF-8 as the scripts use it: `bytes.decode('utf-8', errors='ignore')`
    turns file contents into text, dropping every byte that does not belong
    to a well-formed sequence, and `str.encode('utf-8')` turns the
    front-matter block back into bytes for the YAML library. The
    well-formed sequences are those of table 3-7 of the Unicode Standard. */
module Utf8 {
  import opened Wrappers

  newtype byte = x: int | 0 <= x < 256

  type bytes = seq<byte>

  predicate IsCont(b: byte) {
    0x80 <= b <= 0xBF
  }

  /** Number of bytes of the sequence a lead byte announces; 0 for a byte that cannot lead. */
  function SeqLength(b0: byte): nat {
    if b0 <= 0x7F then 1
    else if 0xC2 <= b0 <= 0xDF then 2
    else if 0xE0 <= b0 <= 0xEF then 3
    else if 0xF0 <= b0 <= 0xF4 then 4
    else 0
  }

  /** Bounds on the second byte: narrower after E0, ED, F0 and F4, which
      excludes overlong forms, surrogates and values above U+10FFFF. */
  function SecondLo(b0: byte): byte {
    if b0 == 0xE0 then 0xA0 else if b0 == 0xF0 then 0x90 else 0x80
  }

  function SecondHi(b0: byte): byte {
    if b0 == 0xED then 0x9F else if b0 == 0xF4 then 0x8F else 0xBF
  }

  /** `bs` starts with a well-formed sequence of `n` bytes. */
  predicate WellFormedPrefix(bs: bytes, n: nat) {
    && bs != []
    && n == SeqLength(bs[0])
    && 1 <= n <= |bs|
    && (n >= 2 ==> SecondLo(bs[0]) <= bs[1] <= SecondHi(bs[0]))
    && (n >= 3 ==> IsCont(bs[2]))
    && (n == 4 ==> IsCont(bs[3]))
  }

  predicate IsScalar(v: int) {
    (0 <= v < 0xD800) || (0xE000 <= v <= 0x10FFFF)
  }

  /** The code point a well-formed prefix encodes. */
  function CodePoint(bs: bytes, n: nat): (v: int)
    requires WellFormedPrefix(bs, n)
    ensures IsScalar(v)
    ensures n == 1 ==> v < 0x80
    ensures n == 2 ==> 0x80 <= v < 0x800
    ensures n == 3 ==> 0x800 <= v < 0x10000
    ensures n == 4 ==> 0x10000 <= v
  {
    var b0, b1, b2, b3 := bs[0] as int, if n >= 2 then bs[1] as int else 0x80,
                          if n >= 3 then bs[2] as int else 0x80, if n == 4 then bs[3] as int else 0x80;
    if n == 1 then b0
    else if n == 2 then (b0 - 0xC0) * 64 + (b1 - 0x80)
    else if n == 3 then
      assert b0 == 0xED ==> b1 <= 0x9F;
      (b0 - 0xE0) * 4096 + (b1 - 0x80) * 64 + (b2 - 0x80)
    else (b0 - 0xF0) * 262144 + (b1 - 0x80) * 4096 + (b2 - 0x80) * 64 + (b3 - 0x80)
  }

  /** The character at the front of `bs` and its length in bytes, if `bs`
      starts with a well-formed sequence. */
  function DecodeFirst(bs: bytes): (r: Option<(char, nat)>)
    ensures r.Some? ==> WellFormedPrefix(bs, r.value.1) && r.value.0 as int == CodePoint(bs, r.value.1)
    ensures r.None? ==> bs == [] || !WellFormedPrefix(bs, SeqLength(bs[0]))
  {
    if bs == [] then None
    else
      var n := SeqLength(bs[0]);
      if WellFormedPrefix(bs, n) then Some((CodePoint(bs, n) as char, n)) else None
  }

  /** `bs.decode('utf-8', errors='ignore')`. Skipping one byte at a time on
      an error drops exactly the ill-formed subsequences: a continuation
      byte never starts a well-formed sequence. */
  function Decode(bs: bytes): (s: string)
    ensures |s| <= |bs|
    decreases |bs|
  {
    if bs == [] then ""
    else match DecodeFirst(bs)
      case Some((c, n)) => [c] + Decode(bs[n..])
      case None => Decode(bs[1..])
  }

  /** The UTF-8 encoding of one character. */
  function EncodeChar(c: char): (r: bytes)
    ensures 1 <= |r| <= 4
  {
    var v := c as int;
    if v < 0x80 then [v as byte]
    else if v < 0x800 then [(0xC0 + v / 64) as byte, (0x80 + v % 64) as byte]
    else if v < 0x10000 then
      [(0xE0 + v / 4096) as byte, (0x80 + (v / 64) % 64) as byte, (0x80 + v % 64) as byte]
    else
      [(0xF0 + v / 262144) as byte, (0x80 + (v / 4096) % 64) as byte,
       (0x80 + (v / 64) % 64) as byte, (0x80 + v % 64) as byte]
  }

  /** `s.encode('utf-8')`. */
  function Encode(s: string): (r: bytes)
    ensures |r| >= |s|
  {
    if s == [] then [] else EncodeChar(s[0]) + Encode(s[1..])
  }

  lemma Split64(v: int)
    requires v >= 0
    ensures v == (v / 64) * 64 + v % 64
    ensures v / 64 == (v / 4096) * 64 + (v / 64) % 64
    ensures v / 4096 == (v / 262144) * 64 + (v / 4096) % 64
  {
  }

  /** Encoding a character produces a well-formed sequence that decodes back to it. */
  lemma DecodeFirstEncodeChar(c: char, rest: bytes)
    ensures DecodeFirst(EncodeChar(c) + rest) == Some((c, |EncodeChar(c)|))
  {
    var v := c as int;
    var e := EncodeChar(c);
    var bs := e + rest;
    Split64(v);
    assert bs[..|e|] == e;
    if v >= 0x80 {
      assert bs[0] == e[0] && bs[1] == e[1];
      if v >= 0x800 { assert bs[2] == e[2]; }
      if v >= 0x10000 { assert bs[3] == e[3]; }
    }
    assert WellFormedPrefix(bs, |e|);
    assert CodePoint(bs, |e|) == v;
  }

  /** Decoding undoes encoding: text survives the trip through bytes. */
  lemma {:induction false} DecodeEncode(s: string)
    ensures Decode(Encode(s)) == s
  {
    if s != [] {
      var e := EncodeChar(s[0]);
      var rest := Encode(s[1..]);
      DecodeFirstEncodeChar(s[0], rest);
      assert (e + rest)[|e|..] == rest;
      DecodeEncode(s[1..]);
    }
  }

  /** On ASCII bytes, decoding is the byte-to-character map. */
  lemma {:induction false} DecodeAscii(bs: bytes)
    requires forall k :: 0 <= k < |bs| ==> bs[k] <= 0x7F
    ensures |Decode(bs)| == |bs|
    ensures forall k :: 0 <= k < |bs| ==> Decode(bs)[k] as int == bs[k] as int
  {
    if bs != [] {
      assert DecodeFirst(bs) == Some(((bs[0] as int) as char, 1));
      DecodeAscii(bs[1..]);
    }
  }

  /** A byte that cannot start a sequence (a stray continuation byte, C0,
      C1, F5..FF) is dropped and decoding carries on after it. */
  lemma StrayByteDropped(b: byte, rest: bytes)
    requires SeqLength(b) == 0
    ensures Decode([b] + rest) == Decode(rest)
  {
    assert ([b] + rest)[1..] == rest;
  }
}
