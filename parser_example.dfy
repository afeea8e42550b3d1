/** The input of the generator's parser unit test, run through the model of
    `simple_parse_yaml_like`: a `features:` line, one `- id:` item and four
    field lines give exactly one item, with the id and the title the test
    reads back. */
module ParserExample {
  import opened Wrappers
  import opened PyText
  import opened PyValue
  import opened TextFacts
  import opened FallbackParser
  import Validator
  import Render

  /** Lines joined with a terminating "\n" after each. */
  function Terminated(ls: seq<string>): string {
    if ls == [] then "" else ls[0] + "\n" + Terminated(ls[1..])
  }

  predicate NoBreak(a: string) {
    forall i :: 0 <= i < |a| ==> !IsLineBreak(a[i])
  }

  lemma {:induction false} LineLengthOf(a: string, rest: string)
    requires NoBreak(a)
    requires rest != [] && IsLineBreak(rest[0])
    ensures LineLength(a + rest) == |a|
    decreases |a|
  {
    if a != [] {
      assert (a + rest)[1..] == a[1..] + rest;
      LineLengthOf(a[1..], rest);
    }
  }

  /** Splitting lines undoes terminating them with "\n". */
  lemma {:induction false} SplitTerminated(ls: seq<string>)
    requires forall k :: 0 <= k < |ls| ==> NoBreak(ls[k])
    ensures SplitLines(Terminated(ls)) == ls
    decreases |ls|
  {
    if ls != [] {
      var a, b := ls[0], Terminated(ls[1..]);
      var s := a + "\n" + b;
      LineLengthOf(a, "\n" + b);
      assert a + ("\n" + b) == s;
      assert s[|a|] == '\n';
      assert s[..|a|] == a;
      assert s[|a| + 1..] == b;
      SplitTerminated(ls[1..]);
      assert [a] + ls[1..] == ls;
    }
  }

  lemma RunSnoc(st: State, lines: seq<string>, line: string)
    requires st.current ==> st.items != []
    ensures Run(st, lines + [line]) == Step(Run(st, lines), line)
  {
    assert (lines + [line])[..|lines|] == lines;
  }

  /** `k: v` splits at the colon after `k` when `k` has none. */
  lemma SplitField(k: string, v: string)
    requires ':' !in k
    ensures ':' in k + ":" + v
    ensures KeyOf(k + ":" + v) == Strip(k)
    ensures ValueOf(k + ":" + v) == StripChars(Strip(v), QuoteChars)
  {
    var s := k + ":" + v;
    assert s[|k|] == ':';
    assert s[..|k|] == k;
    assert s[|k| + 1..] == v;
    assert IndexOf(s, ':') == Some(|k|);
  }

  lemma StripNoop(s: string, cs: CharClass)
    requires s != [] && !InClass(s[0], cs) && !InClass(s[|s| - 1], cs)
    ensures StripChars(s, cs) == s
  {
    TrimLeftNoop(s, cs);
  }

  /** A field line `pad + k + ":" + v` with a plain key sets `k` on the
      current item to the stripped value. */
  lemma FieldLine(st: State, line: string, pad: string, k: string, v: string, val: string)
    requires st.current && st.items != []
    requires line == pad + (k + ":" + v)
    requires AllSpaces(pad)
    requires Render.Trimmed(k) && ':' !in k && k[0] != '-' && k[0] != 'f'
    requires v != [] && !IsSpace(v[|v| - 1])
    requires Strip(v) == val && StripChars(val, QuoteChars) == val
    ensures Step(st, line) ==
              State(st.items[|st.items| - 1 := Put(st.items[|st.items| - 1], k, PyStr(val))], true)
  {
    NotSectionOrItem(k, v);
    StripPadded(pad, k + ":" + v);
    SplitField(k, v);
    StripNoop(k, Spaces);
    StepField(st, line);
  }

  lemma NotSectionOrItem(k: string, v: string)
    requires k != [] && k[0] != '-' && k[0] != 'f' && !IsSpace(k[0])
    requires v != [] && !IsSpace(v[|v| - 1])
    ensures !IsSpace((k + ":" + v)[0]) && !IsSpace((k + ":" + v)[|k + ":" + v| - 1])
    ensures !StartsWith(k + ":" + v, "features:") && !StartsWith(k + ":" + v, "-")
    ensures k + ":" + v != ""
  {
    var s := k + ":" + v;
    assert s[0] == k[0];
    assert s[|s| - 1] == v[|v| - 1];
    assert "features:"[0] == 'f';
  }

  /** An item line `pad + "-" + sp + key + ":" + vpad + value` opens an
      item holding `key` with a plain value. */
  lemma ItemLine(st: State, line: string, pad: string, sp: string, key: string, vpad: string, value: string)
    requires st.current ==> st.items != []
    requires line == pad + ("-" + sp + key + ":" + (vpad + value))
    requires AllSpaces(pad) && sp != [] && AllSpaces(sp) && AllSpaces(vpad)
    requires key != [] && forall k :: 0 <= k < |key| ==> IsWordChar(key[k])
    requires PlainValue(value)
    ensures Step(st, line) == State(st.items + [[(key, PyStr(value))]], true)
  {
    var s := "-" + sp + key + ":" + (vpad + value);
    assert s[0] == '-' && s[|s| - 1] == value[|value| - 1];
    StripPadded(pad, s);
    SpacesAreSpace(sp);
    SpacesAreSpace(vpad);
    InlineItem(st, line, sp, key, vpad, value);
    PlainUnquoted(value);
  }

  lemma SpacesAreSpace(sp: string)
    requires AllSpaces(sp)
    ensures forall k :: 0 <= k < |sp| ==> IsSpace(sp[k])
  {
    forall k | 0 <= k < |sp| ensures IsSpace(sp[k]) {
      assert InClass(sp[k], Spaces);
    }
  }

  /** A value that survives both strips unchanged: non-empty, no space or
      quote at either end, no line break. */
  predicate PlainValue(v: string) {
    && v != []
    && !IsSpace(v[0]) && !IsSpace(v[|v| - 1])
    && v[0] != '"' && v[0] != '\'' && v[|v| - 1] != '"' && v[|v| - 1] != '\''
    && NoBreak(v)
  }

  lemma PlainStrips(sp: string, value: string)
    requires AllSpaces(sp) && PlainValue(value)
    ensures Strip(sp + value) == value
    ensures TrimLeft(sp + value, Spaces) == value
    ensures !IsSpace((sp + value)[|sp + value| - 1])
  {
    StripPadded(sp, value);
    TrimSpaces(sp, value);
  }

  lemma PlainUnquoted(value: string)
    requires PlainValue(value)
    ensures StripChars(value, QuoteChars) == value
    ensures StripChars(value, InlineStrip) == value
    ensures UpToNewline(value) == value
  {
    StripNoop(value, QuoteChars);
    StripNoop(value, InlineStrip);
    assert '\n' !in value by {
      forall i | 0 <= i < |value| ensures value[i] != '\n' {
        assert !IsLineBreak(value[i]);
      }
    }
  }

  /** The lines of one item in the unit test's layout. */
  function ItemLines(id: string, title: string, desc: string, impl: string, tags: string): seq<string> {
    [
      "",
      "features:",
      "  - id: " + id,
      "    title: " + title,
      "    description: " + desc,
      "    implemented: " + impl,
      "    tags: " + tags
    ]
  }

  lemma PrefixNoBreak(prefix: string, v: string)
    requires NoBreak(prefix) && NoBreak(v)
    ensures NoBreak(prefix + v)
  {
    forall i | 0 <= i < |prefix + v| ensures !IsLineBreak((prefix + v)[i]) {
      if i >= |prefix| { assert (prefix + v)[i] == v[i - |prefix|]; }
    }
  }

  lemma ItemLinesSplit(id: string, title: string, desc: string, impl: string, tags: string)
    requires PlainValue(id) && PlainValue(title) && PlainValue(desc) && PlainValue(impl) && PlainValue(tags)
    ensures SplitLines(Terminated(ItemLines(id, title, desc, impl, tags))) == ItemLines(id, title, desc, impl, tags)
  {
    var L := ItemLines(id, title, desc, impl, tags);
    PrefixNoBreak("  - id: ", id);
    PrefixNoBreak("    title: ", title);
    PrefixNoBreak("    description: ", desc);
    PrefixNoBreak("    implemented: ", impl);
    PrefixNoBreak("    tags: ", tags);
    assert NoBreak("");
    assert NoBreak("features:");
    SplitTerminated(L);
  }

  lemma BlankLine(line: string)
    requires line == ""
    ensures Strip(line) == ""
  {
  }

  lemma SectionLine(line: string)
    requires line == "features:"
    ensures StartsWith(Strip(line), "features:")
  {
    StripNoop(line, Spaces);
  }

  /** The blank line and `features:` leave the parser with no item. */
  lemma Prologue(L: seq<string>)
    requires |L| >= 2 && L[0] == "" && L[1] == "features:"
    ensures Run(Init, L[..2]) == State([], false)
  {
    BlankLine(L[0]);
    StepBlank(Init, L[0]);
    SectionLine(L[1]);
    StepSection(Init, L[1]);
    RunFirst(L);
    RunPrefix(Init, L, 1);
  }

  lemma RunFirst(L: seq<string>)
    requires L != []
    ensures Run(Init, L[..1]) == Step(Init, L[0])
  {
    assert L[..1] == [L[0]];
    assert [L[0]][..0] == [];
  }

  lemma IdLineShape(id: string)
    ensures "  - id: " + id == "  " + ("-" + " " + "id" + ":" + (" " + id))
    ensures AllSpaces("  ") && AllSpaces(" ") && " " != []
    ensures forall k :: 0 <= k < |"id"| ==> IsWordChar("id"[k])
  {
  }

  /** `  - id: <id>` opens an item whose id is set inline. */
  lemma IdStep(st: State, line: string, id: string)
    requires st.current ==> st.items != []
    requires line == "  - id: " + id
    requires PlainValue(id)
    ensures Step(st, line) == State(st.items + [[("id", PyStr(id))]], true)
  {
    IdLineShape(id);
    ItemLine(st, line, "  ", " ", "id", " ", id);
  }

  /** The prologue and the id line leave one item holding the id. */
  lemma IdLine(L: seq<string>, id: string)
    requires |L| >= 3 && L[0] == "" && L[1] == "features:" && L[2] == "  - id: " + id
    requires PlainValue(id)
    ensures Run(Init, L[..3]) == State([[("id", PyStr(id))]], true)
  {
    Prologue(L);
    IdStep(State([], false), L[2], id);
    RunPrefix(Init, L, 2);
  }

  /** What a field line needs of its padded value. */
  lemma PaddedField(sp: string, value: string)
    requires AllSpaces(sp) && PlainValue(value)
    ensures sp + value != [] && !IsSpace((sp + value)[|sp + value| - 1])
    ensures Strip(sp + value) == value && StripChars(value, QuoteChars) == value
  {
    PlainStrips(sp, value);
    PlainUnquoted(value);
  }

  /** The same line at position `n` of `lines`. */
  lemma RunFieldLine(lines: seq<string>, n: nat, pad: string, k: string, v: string, value: string)
    requires n < |lines|
    requires lines[n] == pad + (k + ":" + v)
    requires AllSpaces(pad)
    requires Run(Init, lines[..n]).current && Run(Init, lines[..n]).items != []
    requires Render.Trimmed(k) && ':' !in k && k[0] != '-' && k[0] != 'f'
    requires v != [] && !IsSpace(v[|v| - 1])
    requires Strip(v) == value && StripChars(value, QuoteChars) == value
    ensures var st := Run(Init, lines[..n]);
            Run(Init, lines[..n + 1]) ==
              State(st.items[|st.items| - 1 := Put(st.items[|st.items| - 1], k, PyStr(value))], true)
  {
    var st := Run(Init, lines[..n]);
    var last := |st.items| - 1;
    assert Step(st, lines[n]) == State(st.items[last := Put(st.items[last], k, PyStr(value))], true) by {
      FieldLine(st, lines[n], pad, k, v, value);
    }
    RunPrefix(Init, lines, n);
  }

  lemma KeyFacts()
    ensures Render.Trimmed("title") && ':' !in "title"
    ensures Render.Trimmed("description") && ':' !in "description"
    ensures Render.Trimmed("implemented") && ':' !in "implemented"
    ensures Render.Trimmed("tags") && ':' !in "tags"
  {
  }

  lemma OneSpace()
    ensures AllSpaces(" ")
  {
  }

  lemma FourSpaces()
    ensures AllSpaces("    ")
  {
  }

  /** A field line after a single open item adds its key to that item. */
  lemma FillItem(lines: seq<string>, n: nat, f: Fields, pad: string, k: string, value: string)
    requires n < |lines|
    requires lines[n] == pad + (k + ":" + (" " + value))
    requires AllSpaces(pad)
    requires Run(Init, lines[..n]) == State([f], true)
    requires Render.Trimmed(k) && ':' !in k && k[0] != '-' && k[0] != 'f'
    requires PlainValue(value)
    ensures Run(Init, lines[..n + 1]) == State([Put(f, k, PyStr(value))], true)
  {
    OneSpace();
    PaddedField(" ", value);
    RunFieldLine(lines, n, pad, k, " " + value, value);
    ReplaceOnly(f, Put(f, k, PyStr(value)));
  }

  /** Replacing the last element of a one-element list. */
  lemma ReplaceOnly(f: Fields, g: Fields)
    ensures [f][|[f]| - 1 := g] == [g]
  {
  }

  /** An item written in the unit test's layout parses into exactly one
      item: the inline `- id:` sets its id and each field line adds its
      key, with spaces and quotes stripped from the values. */
  lemma ParseItemLines(id: string, title: string, desc: string, impl: string, tags: string)
    requires PlainValue(id) && PlainValue(title) && PlainValue(desc) && PlainValue(impl) && PlainValue(tags)
    ensures var items := Run(Init, SplitLines(Terminated(ItemLines(id, title, desc, impl, tags)))).items;
            && |items| == 1
            && Get(items[0], "id") == Some(PyStr(id))
            && Get(items[0], "title") == Some(PyStr(title))
            && Get(items[0], "description") == Some(PyStr(desc))
            && Get(items[0], "implemented") == Some(PyStr(impl))
            && Get(items[0], "tags") == Some(PyStr(tags))
  {
    var L := ItemLines(id, title, desc, impl, tags);
    ItemLinesShape(id, title, desc, impl, tags);
    var f4 := ItemFields(L, id, title, desc, impl, tags);
    assert "id" != "title" && "id" != "description" && "id" != "implemented" && "id" != "tags";
    assert "title" != "description" && "title" != "implemented" && "title" != "tags";
    assert "description" != "implemented" && "description" != "tags" && "implemented" != "tags";
    PutFour("id", "title", "description", "implemented", "tags", PyStr(id), PyStr(title), PyStr(desc), PyStr(impl), PyStr(tags));
    ItemLinesSplit(id, title, desc, impl, tags);
    RunWhole(L, 7);
  }

  lemma ItemLinesShape(id: string, title: string, desc: string, impl: string, tags: string)
    ensures Layout(ItemLines(id, title, desc, impl, tags), id, title, desc, impl, tags)
  {
  }

  lemma RunWhole(L: seq<string>, n: nat)
    requires |L| == n
    ensures Run(Init, L[..n]) == Run(Init, L)
  {
    assert L[..n] == L;
  }

  /** Four writes of distinct new keys after a first key keep all five. */
  lemma PutFour(k0: string, k1: string, k2: string, k3: string, k4: string,
                v0: Value, v1: Value, v2: Value, v3: Value, v4: Value)
    requires k0 != k1 && k0 != k2 && k0 != k3 && k0 != k4
    requires k1 != k2 && k1 != k3 && k1 != k4 && k2 != k3 && k2 != k4 && k3 != k4
    ensures var f := Put(Put(Put(Put([(k0, v0)], k1, v1), k2, v2), k3, v3), k4, v4);
            && Get(f, k0) == Some(v0) && Get(f, k1) == Some(v1) && Get(f, k2) == Some(v2)
            && Get(f, k3) == Some(v3) && Get(f, k4) == Some(v4)
  {
    var f0: Fields := [(k0, v0)];
    var f1 := Put(f0, k1, v1);
    var f2 := Put(f1, k2, v2);
    var f3 := Put(f2, k3, v3);
    var f4 := Put(f3, k4, v4);
    assert Get(f0, k0) == Some(v0);
    PutGet(f3, k4, v4);
    PutOther(f0, k1, v1, k0);
    PutOther(f1, k2, v2, k0);
    PutGet(f0, k1, v1);
    PutGet(f1, k2, v2);
    PutGet(f2, k3, v3);
    PutOther(f1, k2, v2, k1);
    PutOther(f2, k3, v3, k0);
    PutOther(f2, k3, v3, k1);
    PutOther(f2, k3, v3, k2);
    PutOther(f3, k4, v4, k0);
    PutOther(f3, k4, v4, k1);
    PutOther(f3, k4, v4, k2);
    PutOther(f3, k4, v4, k3);
  }

  /** The lines of one item in the unit test's layout, as facts about `L`. */
  predicate Layout(L: seq<string>, id: string, title: string, desc: string, impl: string, tags: string) {
    && |L| == 7 && L[0] == "" && L[1] == "features:" && L[2] == "  - id: " + id
    && L[3] == "    " + ("title" + ":" + (" " + title))
    && L[4] == "    " + ("description" + ":" + (" " + desc))
    && L[5] == "    " + ("implemented" + ":" + (" " + impl))
    && L[6] == "    " + ("tags" + ":" + (" " + tags))
  }

  /** The id line and the title line. */
  lemma UpToTitle(L: seq<string>, id: string, title: string, desc: string, impl: string, tags: string)
    returns (f: Fields)
    requires Layout(L, id, title, desc, impl, tags)
    requires PlainValue(id) && PlainValue(title)
    ensures Run(Init, L[..4]) == State([f], true)
    ensures f == Put([("id", PyStr(id))], "title", PyStr(title))
  {
    IdLine(L, id);
    KeyFacts();
    FourSpaces();
    FillItem(L, 3, [("id", PyStr(id))], "    ", "title", title);
    f := Put([("id", PyStr(id))], "title", PyStr(title));
  }

  lemma UpToDescription(L: seq<string>, id: string, title: string, desc: string, impl: string, tags: string)
    returns (f: Fields)
    requires Layout(L, id, title, desc, impl, tags)
    requires PlainValue(id) && PlainValue(title) && PlainValue(desc)
    ensures Run(Init, L[..5]) == State([f], true)
    ensures f == Put(Put([("id", PyStr(id))], "title", PyStr(title)), "description", PyStr(desc))
  {
    var f1 := UpToTitle(L, id, title, desc, impl, tags);
    KeyFacts();
    FourSpaces();
    FillItem(L, 4, f1, "    ", "description", desc);
    f := Put(f1, "description", PyStr(desc));
  }

  lemma UpToImplemented(L: seq<string>, id: string, title: string, desc: string, impl: string, tags: string)
    returns (f: Fields)
    requires Layout(L, id, title, desc, impl, tags)
    requires PlainValue(id) && PlainValue(title) && PlainValue(desc) && PlainValue(impl)
    ensures Run(Init, L[..6]) == State([f], true)
    ensures f == Put(Put(Put([("id", PyStr(id))], "title", PyStr(title)), "description", PyStr(desc)),
                     "implemented", PyStr(impl))
  {
    var f2 := UpToDescription(L, id, title, desc, impl, tags);
    KeyFacts();
    FourSpaces();
    FillItem(L, 5, f2, "    ", "implemented", impl);
    f := Put(f2, "implemented", PyStr(impl));
  }

  /** The fields of the one item, reached line by line. */
  lemma ItemFields(L: seq<string>, id: string, title: string, desc: string, impl: string, tags: string)
    returns (f: Fields)
    requires Layout(L, id, title, desc, impl, tags)
    requires PlainValue(id) && PlainValue(title) && PlainValue(desc) && PlainValue(impl) && PlainValue(tags)
    ensures Run(Init, L[..7]) == State([f], true)
    ensures f == Put(Put(Put(Put([("id", PyStr(id))], "title", PyStr(title)), "description", PyStr(desc)),
                         "implemented", PyStr(impl)), "tags", PyStr(tags))
  {
    var f3 := UpToImplemented(L, id, title, desc, impl, tags);
    KeyFacts();
    FourSpaces();
    FillItem(L, 6, f3, "    ", "tags", tags);
    f := Put(f3, "tags", PyStr(tags));
  }

  /** The triple-quoted input of the generator's parser unit test. */
  function TestInput(): string {
    Terminated(ItemLines("TEST-001", "Test Feature", "Unit test feature", "true", "[test, unit]"))
  }

  /** The parser finds one item in the unit test's input, with the id the
      test expects. */
  lemma UnitTestParse()
    ensures var items := Run(Init, SplitLines(TestInput())).items;
            && |items| == 1
            && Get(items[0], "id") == Some(PyStr("TEST-001"))
            && Get(items[0], "title") == Some(PyStr("Test Feature"))
  {
    TestValuesPlain();
    ParseItemLines("TEST-001", "Test Feature", "Unit test feature", "true", "[test, unit]");
  }

  lemma TestValuesPlain()
    ensures PlainValue("TEST-001") && PlainValue("Test Feature") && PlainValue("Unit test feature")
    ensures PlainValue("true") && PlainValue("[test, unit]")
  {
  }

  /** Without the YAML library the validator accepts the unit test's file:
      its one item has both an `id` and a `title`. */
  lemma UnitTestValid()
    ensures Validator.CheckMeta(FallbackParse(TestInput())) == Ok(0)
  {
    UnitTestParse();
    SingleItemValid(TestInput());
  }

  /** A parse of one item that has an id and a title passes validation. */
  lemma SingleItemValid(raw: string)
    requires var items := Run(Init, SplitLines(raw)).items;
             |items| == 1 && Get(items[0], "id").Some? && Get(items[0], "title").Some?
    ensures Validator.CheckMeta(FallbackParse(raw)) == Ok(0)
  {
    var items := Run(Init, SplitLines(raw)).items;
    OneItemKeys(items);
    Validator.FallbackVerdict(raw);
  }

  lemma OneItemKeys(items: seq<Fields>)
    requires |items| == 1 && Get(items[0], "id").Some? && Get(items[0], "title").Some?
    ensures forall k :: 0 <= k < |items| ==> HasKey(items[k], "id") && HasKey(items[k], "title")
  {
    var f := items[0];
    assert HasKey(f, "id") && HasKey(f, "title");
  }
}
