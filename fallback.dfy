/** The line-oriented fallback parser `simple_parse_yaml_like` of
    scripts/generate_features_index.py: it reads a `features:` list of
    `- key: value` items without a YAML library and never fails. */
module FallbackParser {
  import opened Wrappers
  import opened PyText
  import opened PyValue

  /** What `.strip(' "\'')` removes from the value of an inline `- key: value`. */
  const InlineStrip: CharClass := Chars({' ', '"', '\''})

  /** What `.strip('"\'')` removes from the value of a `key: value` line. */
  const QuoteChars: CharClass := Chars({'"', '\''})

  /** End of the run of word characters starting at `i`. */
  function WordEnd(s: string, i: nat): (j: nat)
    requires i <= |s|
    ensures i <= j <= |s|
    ensures forall k :: i <= k < j ==> IsWordChar(s[k])
    ensures j < |s| ==> !IsWordChar(s[j])
    decreases |s| - i
  {
    if i < |s| && IsWordChar(s[i]) then WordEnd(s, i + 1) else i
  }

  /** `s` up to its first '\n': what `.*` matches without DOTALL. */
  function UpToNewline(s: string): string {
    match IndexOf(s, '\n')
    case None => s
    case Some(i) => s[..i]
  }

  /** `s` has the shape `-\s+(\w+):` with the spaces at `s[1..a]` and the word at `s[a..b]`. */
  predicate InlineAt(s: string, a: nat, b: nat) {
    && 1 < a < b < |s|
    && s[0] == '-'
    && s[b] == ':'
    && (forall k :: 1 <= k < a ==> IsSpace(s[k]))
    && (forall k :: a <= k < b ==> IsWordChar(s[k]))
  }

  lemma WordIsNotSpace(c: char)
    requires IsWordChar(c)
    ensures !IsSpace(c)
  {
  }

  /** The spaces and the word of `-\s+(\w+):` are the maximal runs, so a match is unique. */
  lemma InlineAtUnique(s: string, a: nat, b: nat)
    requires InlineAt(s, a, b)
    ensures a == SpaceEnd(s, 1) && b == WordEnd(s, a)
  {
    WordIsNotSpace(s[a]);
    assert !IsWordChar(s[b]);
  }

  /** `re.match(r'^-\s+(\w+):\s*(.*)', s)`: the two groups, or no match. */
  function MatchInline(s: string): Option<(string, string)> {
    if |s| < 2 || s[0] != '-' then None
    else
      var a := SpaceEnd(s, 1);
      var b := WordEnd(s, a);
      if a == 1 || b == a || b == |s| || s[b] != ':' then None
      else Some((s[a..b], UpToNewline(s[SpaceEnd(s, b + 1)..])))
  }

  /** Where the pattern matches, the groups are the word and the rest of
      the line after the spaces that follow the colon. */
  lemma MatchInlineGroups(s: string, a: nat, b: nat)
    requires InlineAt(s, a, b)
    ensures MatchInline(s) == Some((s[a..b], UpToNewline(s[SpaceEnd(s, b + 1)..])))
  {
    InlineAtUnique(s, a, b);
    MatchAt(s, a, b);
  }

  lemma MatchAt(s: string, a: nat, b: nat)
    requires 1 < a < b < |s| && s[0] == '-' && s[b] == ':'
    requires a == SpaceEnd(s, 1) && b == WordEnd(s, a)
    ensures MatchInline(s) == Some((s[a..b], UpToNewline(s[SpaceEnd(s, b + 1)..])))
  {
    assert !(|s| < 2 || s[0] != '-');
    assert !(a == 1 || b == a || b == |s| || s[b] != ':');
  }

  /** The pattern fails exactly when no split of `s` has its shape. */
  lemma MatchInlineNone(s: string)
    ensures MatchInline(s).None? <==> forall a: nat, b: nat :: !InlineAt(s, a, b)
  {
    if MatchInline(s).Some? {
      var a := SpaceEnd(s, 1);
      var b := WordEnd(s, a);
      assert InlineAt(s, a, b);
    } else if a: nat, b: nat :| InlineAt(s, a, b) {
      MatchInlineGroups(s, a, b);
    }
  }

  /** The parser's state: the items so far, and whether `current` is the last of them. */
  datatype State = State(items: seq<Fields>, current: bool)

  const Init: State := State([], false)

  /** The field a `- key: value` line sets on its new item, if it has one. */
  function InlineField(s: string): Fields {
    match MatchInline(s)
    case Some(g) => [(g.0, PyStr(StripChars(g.1, InlineStrip)))]
    case None => []
  }

  /** The key and value of a `key: value` line, split at its first ':'. */
  function KeyOf(s: string): string
    requires ':' in s
  {
    Strip(s[..IndexOf(s, ':').value])
  }

  function ValueOf(s: string): string
    requires ':' in s
  {
    StripChars(Strip(s[IndexOf(s, ':').value + 1..]), QuoteChars)
  }

  /** Which branch of the loop body a stripped line takes. */
  datatype LineKind = Blank | Section | Item | Field | Other

  function Classify(s: string): LineKind {
    if s == "" then Blank
    else if StartsWith(s, "features:") then Section
    else if StartsWith(s, "-") then Item
    else if ':' in s then Field
    else Other
  }

  /** One iteration of the loop over the lines. */
  function Step(st: State, line: string): (r: State)
    requires st.current ==> st.items != []
    ensures r.current ==> r.items != []
  {
    var s := Strip(line);
    match Classify(s)
    case Blank => st
    case Section => State(st.items, false)
    case Item => State(st.items + [InlineField(s)], true)
    case Field =>
      if st.current then
        var last := |st.items| - 1;
        State(st.items[last := Put(st.items[last], KeyOf(s), PyStr(ValueOf(s)))], true)
      else st
    case Other => st
  }

  /** The loop run from `st` over `lines`, in order. */
  function Run(st: State, lines: seq<string>): (r: State)
    requires st.current ==> st.items != []
    ensures r.current ==> r.items != []
  {
    if lines == [] then st else Step(Run(st, lines[..|lines| - 1]), lines[|lines| - 1])
  }

  /** The dicts of `data['features']`. */
  function AsDicts(items: seq<Fields>): (r: seq<Value>)
    ensures |r| == |items|
    ensures forall k :: 0 <= k < |items| ==> r[k] == PyDict(items[k])
  {
    seq(|items|, k requires 0 <= k < |items| => PyDict(items[k]))
  }

  /** The value `simple_parse_yaml_like(raw)` returns. */
  function FallbackParse(raw: string): Value {
    PyDict([("features", PyList(AsDicts(Run(Init, SplitLines(raw)).items)))])
  }

  /** The generator's `simple_parse_yaml_like` (and the validator's copy
      of it, which is the same code), step by step. */
  method SimpleParseYamlLike(raw: string) returns (data: Value)
    ensures data == FallbackParse(raw)
  {
    var lines := SplitLines(raw);
    var features: seq<Fields> := [];
    var current: Option<nat> := None;
    for n := 0 to |lines|
      invariant current.Some? ==> current.value == |features| - 1
      invariant Run(Init, lines[..n]) == State(features, current.Some?)
    {
      RunPrefix(Init, lines, n);
      features, current := ParseLine(features, current, lines[n]);
    }
    assert lines[..|lines|] == lines;
    data := PyDict([("features", PyList(AsDicts(features)))]);
  }

  /** The body of the loop on one line: `current` is the index of the item
      that `key: value` lines fill, if there is one. */
  method ParseLine(features: seq<Fields>, current: Option<nat>, line: string)
      returns (features': seq<Fields>, current': Option<nat>)
    requires current.Some? ==> current.value == |features| - 1
    ensures current'.Some? ==> current'.value == |features'| - 1
    ensures State(features', current'.Some?) == Step(State(features, current.Some?), line)
  {
    ghost var before := State(features, current.Some?);
    var s := Strip(line);
    if s == "" {
      StepBlank(before, line);
      features', current' := features, current;
    } else if StartsWith(s, "features:") {
      StepSection(before, line);
      features', current' := features, None;
    } else if StartsWith(s, "-") {
      StepItem(before, line);
      features' := OpenItem(features, s);
      current' := Some(|features'| - 1);
    } else if ':' in s && current.Some? {
      StepField(before, line);
      features' := SetField(features, s);
      current' := current;
    } else {
      StepOther(before, line);
      features', current' := features, current;
    }
  }

  /** A dash line appends a new item, filled with the key and value of an
      inline `- key: value`. */
  method OpenItem(features: seq<Fields>, s: string) returns (features': seq<Fields>)
    ensures features' == features + [InlineField(s)]
  {
    var item: Fields := [];
    features' := features + [item];
    var current := |features'| - 1;
    var m := MatchInline(s);
    if m.Some? {
      var key := m.value.0;
      var val := StripChars(m.value.1, InlineStrip);
      features' := features'[current := Put(features'[current], key, PyStr(val))];
      FillNewItem(features, key, PyStr(val));
    }
  }

  /** A `key: value` line sets the key on the last item. */
  method SetField(features: seq<Fields>, s: string) returns (features': seq<Fields>)
    requires features != [] && ':' in s
    ensures features' == features[|features| - 1 := Put(features[|features| - 1], KeyOf(s), PyStr(ValueOf(s)))]
  {
    var current := |features| - 1;
    var i := IndexOf(s, ':').value;
    var k, v := s[..i], s[i + 1..];
    var key, val := Strip(k), StripChars(Strip(v), QuoteChars);
    assert key == KeyOf(s);
    assert val == ValueOf(s);
    features' := features[current := Put(features[current], key, PyStr(val))];
  }

  /** One more line is one more step. */
  lemma RunPrefix(st: State, lines: seq<string>, n: nat)
    requires st.current ==> st.items != []
    requires n < |lines|
    ensures Run(st, lines[..n + 1]) == Step(Run(st, lines[..n]), lines[n])
  {
    assert lines[..n + 1][..n] == lines[..n];
  }

  lemma FillNewItem(items: seq<Fields>, key: string, v: Value)
    ensures (items + [[]])[|items| := Put([], key, v)] == items + [[(key, v)]]
  {
  }

  lemma StepBlank(st: State, line: string)
    requires st.current ==> st.items != []
    requires Strip(line) == ""
    ensures Step(st, line) == st
  {
  }

  lemma StepSection(st: State, line: string)
    requires st.current ==> st.items != []
    requires Strip(line) != "" && StartsWith(Strip(line), "features:")
    ensures Step(st, line) == State(st.items, false)
  {
  }

  lemma StepItem(st: State, line: string)
    requires st.current ==> st.items != []
    requires Strip(line) != "" && !StartsWith(Strip(line), "features:") && StartsWith(Strip(line), "-")
    ensures Step(st, line) == State(st.items + [InlineField(Strip(line))], true)
  {
  }

  lemma StepField(st: State, line: string)
    requires st.current && st.items != []
    requires Strip(line) != "" && !StartsWith(Strip(line), "features:") && !StartsWith(Strip(line), "-")
    requires ':' in Strip(line)
    ensures Step(st, line) == State(st.items[|st.items| - 1 := Put(st.items[|st.items| - 1], KeyOf(Strip(line)), PyStr(ValueOf(Strip(line))))], true)
  {
    var s := Strip(line);
    assert Classify(s) == Field;
  }

  lemma StepOther(st: State, line: string)
    requires st.current ==> st.items != []
    requires Strip(line) != "" && !StartsWith(Strip(line), "features:") && !StartsWith(Strip(line), "-")
    requires ':' !in Strip(line) || !st.current
    ensures Step(st, line) == st
  {
  }

  // ----- properties of the parser -----

  predicate IsDashLine(line: string) {
    StartsWith(Strip(line), "-")
  }

  /** The number of lines whose stripped text starts with '-'. */
  function DashLines(lines: seq<string>): nat {
    if lines == [] then 0
    else DashLines(lines[..|lines| - 1]) + (if IsDashLine(lines[|lines| - 1]) then 1 else 0)
  }

  lemma StepItemCount(st: State, line: string)
    requires st.current ==> st.items != []
    ensures |Step(st, line).items| == |st.items| + (if IsDashLine(line) then 1 else 0)
  {
    var s := Strip(line);
    match Classify(s)
    case Blank =>
    case Section => assert !StartsWith(s, "-");
    case Item =>
    case Field =>
    case Other =>
  }

  /** Every dash line, and nothing else, adds one item. */
  lemma {:induction false} RunItemCount(st: State, lines: seq<string>)
    requires st.current ==> st.items != []
    ensures |Run(st, lines).items| == |st.items| + DashLines(lines)
  {
    if lines != [] {
      RunItemCount(st, lines[..|lines| - 1]);
      StepItemCount(Run(st, lines[..|lines| - 1]), lines[|lines| - 1]);
    }
  }

  /** The parser always returns `{'features': [...]}`, the list holding one
      dict per dash line, including `---` delimiter lines. */
  lemma FallbackShape(raw: string)
    ensures FallbackParse(raw).PyDict?
    ensures Keys(FallbackParse(raw).fields) == ["features"]
    ensures Truthy(FallbackParse(raw))
    ensures Contains(FallbackParse(raw), "features") == Ok(true)
    ensures Subscript(FallbackParse(raw), "features") == Ok(PyList(AsDicts(Run(Init, SplitLines(raw)).items)))
    ensures |AsDicts(Run(Init, SplitLines(raw)).items)| == DashLines(SplitLines(raw))
  {
    RunItemCount(Init, SplitLines(raw));
  }

  /** A `---` line opens an item with no fields. */
  lemma DelimiterLineMakesEmptyItem(st: State, line: string)
    requires st.current ==> st.items != []
    requires Strip(line) == "---"
    ensures Step(st, line) == State(st.items + [[]], true)
  {
    var s := Strip(line);
    assert Classify(s) == Item;
    assert SpaceEnd(s, 1) == 1;
    assert MatchInline(s).None?;
  }

  /** `- key: value` opens an item whose only field is `key`: the value is
      what follows the spaces after the colon, up to a '\n', with spaces
      and both kinds of quote stripped from both ends. */
  lemma InlineItem(st: State, line: string, spaces: string, key: string, pad: string, value: string)
    requires st.current ==> st.items != []
    requires Strip(line) == "-" + spaces + key + ":" + (pad + value)
    requires spaces != [] && forall k :: 0 <= k < |spaces| ==> IsSpace(spaces[k])
    requires key != [] && forall k :: 0 <= k < |key| ==> IsWordChar(key[k])
    requires (forall k :: 0 <= k < |pad| ==> IsSpace(pad[k])) && (value == [] || !IsSpace(value[0]))
    ensures Step(st, line) == State(st.items + [[(key, PyStr(StripChars(UpToNewline(value), InlineStrip)))]], true)
  {
    var s := Strip(line);
    assert s[0] == '-';
    assert "features:"[0] != s[0];
    assert Classify(s) == Item;
    InlineMatch(s, spaces, key, pad, value);
  }

  lemma InlineMatch(s: string, spaces: string, key: string, pad: string, value: string)
    requires s == "-" + spaces + key + ":" + (pad + value)
    requires spaces != [] && forall k :: 0 <= k < |spaces| ==> IsSpace(spaces[k])
    requires key != [] && forall k :: 0 <= k < |key| ==> IsWordChar(key[k])
    requires (forall k :: 0 <= k < |pad| ==> IsSpace(pad[k])) && (value == [] || !IsSpace(value[0]))
    ensures MatchInline(s) == Some((key, UpToNewline(value)))
  {
    var a, b := 1 + |spaces|, 1 + |spaces| + |key|;
    InlineShape(s, spaces, key, pad + value);
    SpaceEndAt(s, b + 1, pad, value);
    MatchGroups(s, a, b, SpaceEnd(s, b + 1), key, value);
  }

  lemma MatchGroups(s: string, a: nat, b: nat, c: nat, key: string, value: string)
    requires InlineAt(s, a, b) && s[a..b] == key
    requires c == SpaceEnd(s, b + 1) && s[c..] == value
    ensures MatchInline(s) == Some((key, UpToNewline(value)))
  {
    MatchInlineGroups(s, a, b);
  }

  /** The spaces after position `i` end where `pad` does. */
  lemma {:induction false} SpaceEndAt(s: string, i: nat, pad: string, value: string)
    requires i <= |s| && s[i..] == pad + value
    requires (forall k :: 0 <= k < |pad| ==> IsSpace(pad[k])) && (value == [] || !IsSpace(value[0]))
    ensures SpaceEnd(s, i) == i + |pad| && s[i + |pad|..] == value
    decreases |pad|
  {
    if pad == [] {
      assert s[i..] == value;
    } else {
      assert s[i] == pad[0];
      assert s[i + 1..] == pad[1..] + value;
      SpaceEndAt(s, i + 1, pad[1..], value);
    }
  }

  /** `-<spaces><key>:<rest>` has the shape the pattern matches. */
  lemma InlineShape(s: string, spaces: string, key: string, rest: string)
    requires s == "-" + spaces + key + ":" + rest
    requires spaces != [] && forall k :: 0 <= k < |spaces| ==> IsSpace(spaces[k])
    requires key != [] && forall k :: 0 <= k < |key| ==> IsWordChar(key[k])
    ensures InlineAt(s, 1 + |spaces|, 1 + |spaces| + |key|)
    ensures s[1 + |spaces|..1 + |spaces| + |key|] == key
    ensures s[1 + |spaces| + |key| + 1..] == rest
  {
    var a, b := 1 + |spaces|, 1 + |spaces| + |key|;
    InlineParts(s, spaces, key, rest);
    assert forall k :: 1 <= k < a ==> IsSpace(s[k]) by {
      forall k | 1 <= k < a ensures IsSpace(s[k]) {
        assert s[k] == spaces[k - 1];
      }
    }
    assert forall k :: a <= k < b ==> IsWordChar(s[k]) by {
      forall k | a <= k < b ensures IsWordChar(s[k]) {
        assert s[k] == key[k - a];
      }
    }
  }

  /** Where the parts of `-<spaces><key>:<rest>` sit. */
  lemma InlineParts(s: string, spaces: string, key: string, rest: string)
    requires s == "-" + spaces + key + ":" + rest
    ensures |s| == |spaces| + |key| + |rest| + 2
    ensures s[0] == '-' && s[1 + |spaces| + |key|] == ':'
    ensures s[1 + |spaces|..1 + |spaces| + |key|] == key
    ensures s[1 + |spaces| + |key| + 1..] == rest
    ensures forall k :: 1 <= k < 1 + |spaces| ==> s[k] == spaces[k - 1]
    ensures forall k :: 1 + |spaces| <= k < 1 + |spaces| + |key| ==> s[k] == key[k - 1 - |spaces|]
  {
    var head := "-" + spaces;
    assert s == head + key + (":" + rest);
    assert s[|head|..|head| + |key|] == key;
    assert s[|head| + |key| + 1..] == rest;
  }

  /** A `key: value` line sets the key before its first ':' on the current
      item, overwriting an earlier value (an inline `- id:` one too), and
      leaves everything else as it was. */
  lemma KeyLineSetsField(st: State, line: string)
    requires st.current && st.items != []
    requires Strip(line) != "" && !StartsWith(Strip(line), "features:") && !StartsWith(Strip(line), "-")
    requires ':' in Strip(line)
    ensures var s := Strip(line);
            var r := Step(st, line);
            var last := |st.items| - 1;
            && ':' !in KeyOf(s)
            && r.current
            && |r.items| == |st.items|
            && r.items[..last] == st.items[..last]
            && Get(r.items[last], KeyOf(s)) == Some(PyStr(ValueOf(s)))
            && (forall k :: k != KeyOf(s) ==> Get(r.items[last], k) == Get(st.items[last], k))
            && (st.items[last] != [] ==> r.items[last][0].0 == st.items[last][0].0)
  {
    var s := Strip(line);
    StepField(st, line);
    var i := IndexOf(s, ':').value;
    StripKeepsOut(s[..i], Spaces, ':');
    SetLast(st.items, KeyOf(s), PyStr(ValueOf(s)));
  }

  /** Setting a key on the last item of a list of items. */
  lemma SetLast(items: seq<Fields>, key: string, v: Value)
    requires items != []
    ensures var last := |items| - 1;
            var r := items[last := Put(items[last], key, v)];
            && |r| == |items|
            && r[..last] == items[..last]
            && Get(r[last], key) == Some(v)
            && (forall k :: k != key ==> Get(r[last], k) == Get(items[last], k))
            && (items[last] != [] ==> r[last][0].0 == items[last][0].0)
  {
    var f := items[|items| - 1];
    PutGet(f, key, v);
    forall k | k != key ensures Get(Put(f, key, v), k) == Get(f, k) {
      PutOther(f, key, v, k);
    }
  }

  /** Before any dash line, or after a `features:` line, key lines change nothing. */
  lemma {:induction false} NoCurrentNoChange(st: State, lines: seq<string>)
    requires !st.current
    requires forall k :: 0 <= k < |lines| ==> !IsDashLine(lines[k])
    ensures Run(st, lines) == st
  {
    if lines != [] {
      NoCurrentNoChange(st, lines[..|lines| - 1]);
    }
  }

  /** A `features:` line ends the current item. */
  lemma FeaturesLineResets(st: State, line: string)
    requires st.current ==> st.items != []
    requires StartsWith(Strip(line), "features:")
    ensures Step(st, line) == State(st.items, false)
  {
    assert Strip(line) != "";
  }
}
