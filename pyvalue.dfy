/** The Python values the scripts handle: what PyYAML's `safe_load` returns
    (restricted to None, bool, int, str, list and str-keyed dict) and the
    dicts the scripts build themselves. A dict is an association list because
    Python dicts keep insertion order, which shows in `repr` and in
    `', '.join(d)`. */
module PyValue {
  import opened Wrappers
  import opened PyText

  datatype Value =
    | PyNone
    | PyBool(b: bool)
    | PyInt(i: int)
    | PyStr(s: string)
    | PyList(elems: seq<Value>)
    | PyDict(fields: seq<(string, Value)>)

  type Fields = seq<(string, Value)>

  /** The keys of a dict, in insertion order. */
  function Keys(d: Fields): (r: seq<string>)
    ensures |r| == |d|
    ensures forall k :: 0 <= k < |d| ==> r[k] == d[k].0
  {
    if d == [] then [] else [d[0].0] + Keys(d[1..])
  }

  predicate HasKey(d: Fields, key: string) {
    key in Keys(d)
  }

  /** `d.get(key)`, with absence as `None`: the value of the first entry for `key`. */
  function Get(d: Fields, key: string): (r: Option<Value>)
    ensures r.None? <==> !HasKey(d, key)
    ensures r.Some? ==> (key, r.value) in d
  {
    if d == [] then None
    else if d[0].0 == key then Some(d[0].1)
    else Get(d[1..], key)
  }

  /** `d.get(key, default)`. */
  function GetOr(d: Fields, key: string, default: Value): Value {
    match Get(d, key)
    case Some(v) => v
    case None => default
  }

  /** `d[key] = v`: an existing key keeps its position, a new key goes last. */
  function Put(d: Fields, key: string, v: Value): Fields {
    if d == [] then [(key, v)]
    else if d[0].0 == key then [(key, v)] + d[1..]
    else [d[0]] + Put(d[1..], key, v)
  }

  /** After `d[key] = v`, `d[key]` is `v`. */
  lemma {:induction false} PutGet(d: Fields, key: string, v: Value)
    ensures Get(Put(d, key, v), key) == Some(v)
    decreases |d|
  {
    if d != [] && d[0].0 != key {
      PutGet(d[1..], key, v);
      assert Put(d, key, v)[1..] == Put(d[1..], key, v);
    }
  }

  /** `d[key] = v` leaves every other key as it was. */
  lemma {:induction false} PutOther(d: Fields, key: string, v: Value, other: string)
    requires other != key
    ensures Get(Put(d, key, v), other) == Get(d, other)
    decreases |d|
  {
    if d != [] {
      var r := Put(d, key, v);
      if d[0].0 == key {
        assert r[1..] == d[1..];
      } else if d[0].0 != other {
        PutOther(d[1..], key, v, other);
        assert r[1..] == Put(d[1..], key, v);
      }
    }
  }

  /** An existing key keeps its position; a new key goes last. */
  lemma {:induction false} PutKeys(d: Fields, key: string, v: Value)
    ensures Keys(Put(d, key, v)) == if HasKey(d, key) then Keys(d) else Keys(d) + [key]
    decreases |d|
  {
    if d != [] {
      var r := Put(d, key, v);
      assert Keys(d) == [d[0].0] + Keys(d[1..]);
      if d[0].0 == key {
        assert r[1..] == d[1..];
        assert Keys(r) == [key] + Keys(d[1..]);
      } else {
        PutKeys(d[1..], key, v);
        assert r[1..] == Put(d[1..], key, v);
        assert Keys(r) == [d[0].0] + Keys(Put(d[1..], key, v));
        assert HasKey(d, key) == HasKey(d[1..], key);
      }
    }
  }

  /** `bool(v)`. */
  predicate Truthy(v: Value) {
    match v
    case PyNone => false
    case PyBool(b) => b
    case PyInt(i) => i != 0
    case PyStr(s) => s != ""
    case PyList(elems) => elems != []
    case PyDict(fields) => fields != []
  }

  /** `needle in v` for a str needle: key test on a dict, element test on a
      list, substring test on a str; a TypeError on anything else. */
  function Contains(v: Value, needle: string): Outcome<bool> {
    match v
    case PyDict(fields) => Ok(HasKey(fields, needle))
    case PyList(elems) => Ok(PyStr(needle) in elems)
    case PyStr(s) => Ok(IsSubstring(needle, s))
    case _ => Raised
  }

  /** `v[key]` for a str key: KeyError or TypeError unless `v` is a dict holding `key`. */
  function Subscript(v: Value, key: string): (r: Outcome<Value>)
    ensures r.Ok? <==> v.PyDict? && HasKey(v.fields, key)
  {
    if v.PyDict? then
      match Get(v.fields, key)
      case Some(x) => Ok(x)
      case None => Raised
    else Raised
  }

  /** What `for x in v` visits: list elements, dict keys, one-character
      strings; a TypeError for None, bool and int. */
  function Iterate(v: Value): (r: Outcome<seq<Value>>)
    ensures v.PyList? ==> r == Ok(v.elems)
    ensures r.Raised? <==> !(v.PyList? || v.PyDict? || v.PyStr?)
    ensures r.Ok? && v.PyDict? ==> |r.value| == |v.fields|
    ensures r.Ok? && v.PyStr? ==> |r.value| == |v.s|
  {
    match v
    case PyList(elems) => Ok(elems)
    case PyDict(fields) => Ok(seq(|fields|, k requires 0 <= k < |fields| => PyStr(fields[k].0)))
    case PyStr(s) => Ok(seq(|s|, k requires 0 <= k < |s| => PyStr([s[k]])))
    case _ => Raised
  }

  function HexDigit(d: nat): char
    requires d < 16
  {
    if d < 10 then DigitChar(d) else ('a' as int + d - 10) as char
  }

  /** One character inside the quotes of a str `repr`. */
  function EscapeChar(c: char, quote: char): string {
    if c == '\\' then "\\\\"
    else if c == quote then ['\\', quote]
    else if c == '\n' then "\\n"
    else if c == '\r' then "\\r"
    else if c == '\t' then "\\t"
    else if c as int < 0x20 || 0x7f <= c as int <= 0xa0 then
      ['\\', 'x', HexDigit(c as int / 16), HexDigit(c as int % 16)]
    else [c]
  }

  function EscapeAll(s: string, quote: char): string {
    if s == [] then "" else EscapeChar(s[0], quote) + EscapeAll(s[1..], quote)
  }

  /** `repr(s)` for a str: double quotes only when `s` has a single quote and no double quote. */
  function QuoteStr(s: string): string {
    var quote := if '\'' in s && '"' !in s then '"' else '\'';
    [quote] + EscapeAll(s, quote) + [quote]
  }

  /** `repr(v)`. */
  function Repr(v: Value): string
    decreases v
  {
    match v
    case PyNone => "None"
    case PyBool(b) => if b then "True" else "False"
    case PyInt(i) => Decimal(i)
    case PyStr(s) => QuoteStr(s)
    case PyList(elems) =>
      "[" + Join(", ", seq(|elems|, k requires 0 <= k < |elems| => Repr(elems[k]))) + "]"
    case PyDict(fields) =>
      "{" + Join(", ", seq(|fields|, k requires 0 <= k < |fields| =>
                              QuoteStr(fields[k].0) + ": " + Repr(fields[k].1))) + "}"
  }

  /** `str(v)`, which is what an f-string interpolates. */
  function StrOf(v: Value): string {
    if v.PyStr? then v.s else Repr(v)
  }
}
