/** `build_markdown` of scripts/generate_features_index.py: the consolidated
    index page, with the generation time `now` as a parameter. */
module Render {
  import opened Wrappers
  import opened PyText
  import opened PyValue

  // ----- the partition -----

  /** `str(f.get('implemented', '')).lower() in ('1', 'true', 'yes')`. */
  predicate IsImplemented(f: Fields) {
    Lower(StrOf(GetOr(f, "implemented", PyStr("")))) in {"1", "true", "yes"}
  }

  /** `str(v).lower() in ('1', 'true', 'yes')` holds exactly for `True`, the
      int 1 and the strings "1", "true", "yes" in any letter case. */
  lemma {:induction false} TruthyFlag(v: Value)
    ensures Lower(StrOf(v)) in {"1", "true", "yes"} <==>
              v == PyBool(true) || v == PyInt(1) || (v.PyStr? && Lower(v.s) in {"1", "true", "yes"})
  {
    match v
    case PyNone =>
      assert Lower("None") == "none";
    case PyBool(b) =>
      assert Lower("True") == "true";
      assert Lower("False") == "false";
    case PyInt(i) =>
      DecimalOne(i);
    case PyStr(s) =>
    case PyList(elems) =>
      ReprHead(v, '[');
    case PyDict(fields) =>
      ReprHead(v, '{');
  }

  /** A string that starts with a bracket lower-cases to none of the three words. */
  lemma ReprHead(v: Value, c: char)
    requires c == '[' || c == '{'
    requires StrOf(v) != [] && StrOf(v)[0] == c
    ensures Lower(StrOf(v)) !in {"1", "true", "yes"}
  {
    assert Lower(StrOf(v))[0] == c;
  }

  /** The values that count as implemented. */
  lemma ImplementedValues(f: Fields)
    ensures IsImplemented(f) <==>
              Get(f, "implemented").Some? &&
              var v := Get(f, "implemented").value;
              v == PyBool(true) || v == PyInt(1) || (v.PyStr? && Lower(v.s) in {"1", "true", "yes"})
  {
    TruthyFlag(GetOr(f, "implemented", PyStr("")));
    assert Lower("") == "";
  }

  /** The comprehension `[f for f in features if ...]` over dicts, for any
      test `flag`: the records whose flag is `want`, in their original order. */
  function Filter(flag: Fields -> bool, ds: seq<Fields>, want: bool): (r: seq<Fields>)
    ensures forall k :: 0 <= k < |r| ==> flag(r[k]) == want
  {
    if ds == [] then []
    else Filter(flag, ds[..|ds| - 1], want) + (if flag(ds[|ds| - 1]) == want then [ds[|ds| - 1]] else [])
  }

  /** The two groups of `build_markdown`. */
  function Select(ds: seq<Fields>, want: bool): seq<Fields> {
    Filter(IsImplemented, ds, want)
  }

  /** Every record lands in exactly one of the two groups, with its multiplicity. */
  lemma {:induction false} FilterPartition(flag: Fields -> bool, ds: seq<Fields>)
    ensures |Filter(flag, ds, true)| + |Filter(flag, ds, false)| == |ds|
    ensures multiset(Filter(flag, ds, true)) + multiset(Filter(flag, ds, false)) == multiset(ds)
  {
    if ds != [] {
      var init, d := ds[..|ds| - 1], ds[|ds| - 1];
      FilterPartition(flag, init);
      assert ds == init + [d];
      assert multiset(ds) == multiset(init) + multiset{d};
      if flag(d) {
        assert Filter(flag, ds, true) == Filter(flag, init, true) + [d];
        assert Filter(flag, ds, false) == Filter(flag, init, false);
      } else {
        assert Filter(flag, ds, true) == Filter(flag, init, true);
        assert Filter(flag, ds, false) == Filter(flag, init, false) + [d];
      }
    }
  }

  /** Filtering a concatenation filters each part, so the input order is kept. */
  lemma {:induction false} FilterConcat(flag: Fields -> bool, a: seq<Fields>, b: seq<Fields>, want: bool)
    ensures Filter(flag, a + b, want) == Filter(flag, a, want) + Filter(flag, b, want)
    decreases |b|
  {
    if b != [] {
      var init := b[..|b| - 1];
      FilterConcat(flag, a, init, want);
      assert (a + b)[..|a + b| - 1] == a + init;
    } else {
      assert a + b == a;
    }
  }

  lemma {:induction false} FilterMembers(flag: Fields -> bool, ds: seq<Fields>, want: bool, d: Fields)
    ensures d in Filter(flag, ds, want) <==> d in ds && flag(d) == want
  {
    if ds != [] {
      FilterMembers(flag, ds[..|ds| - 1], want, d);
      assert ds == ds[..|ds| - 1] + [ds[|ds| - 1]];
    }
  }

  // ----- the cells of a row -----

  /** `f.get('title', f.get('id', 'untitled'))`, interpolated. */
  function TitleCell(f: Fields): string {
    StrOf(GetOr(f, "title", GetOr(f, "id", PyStr("untitled"))))
  }

  /** The title falls back to the id and then to "untitled"; a present
      title wins even when it is `None` or empty. */
  lemma TitleFallback(f: Fields)
    ensures HasKey(f, "title") ==> TitleCell(f) == StrOf(Get(f, "title").value)
    ensures !HasKey(f, "title") && HasKey(f, "id") ==> TitleCell(f) == StrOf(Get(f, "id").value)
    ensures !HasKey(f, "title") && !HasKey(f, "id") ==> TitleCell(f) == "untitled"
  {
  }

  /** `f.get('repo', '')`, interpolated. */
  function RepoCell(f: Fields): string {
    StrOf(GetOr(f, "repo", PyStr("")))
  }

  const Brackets: CharClass := Chars({'[', ']'})

  /** A non-empty string with no space at either end. */
  predicate Trimmed(t: string) {
    t != "" && !InClass(t[0], Spaces) && !InClass(t[|t| - 1], Spaces)
  }

  /** `[t.strip() for t in parts if t.strip()]`. */
  function NonEmptyStripped(parts: seq<string>): (r: seq<string>)
    ensures |r| <= |parts|
    ensures forall k :: 0 <= k < |r| ==> Trimmed(r[k])
  {
    if parts == [] then []
    else
      var t := Strip(parts[0]);
      var rest := NonEmptyStripped(parts[1..]);
      assert t != "" ==> Trimmed(t);
      if t != "" then [t] + rest else rest
  }

  /** Stripping introduces no comma. */
  lemma {:induction false} NonEmptyStrippedCommaFree(parts: seq<string>)
    requires forall k :: 0 <= k < |parts| ==> ',' !in parts[k]
    ensures forall k :: 0 <= k < |NonEmptyStripped(parts)| ==> ',' !in NonEmptyStripped(parts)[k]
  {
    if parts != [] {
      StripKeepsOut(parts[0], Spaces, ',');
      assert forall k :: 0 <= k < |parts[1..]| ==> parts[1..][k] == parts[k + 1];
      NonEmptyStrippedCommaFree(parts[1..]);
    }
  }

  /** A string `tags` value: brackets stripped from both ends, split on
      commas, pieces trimmed, empty pieces dropped. */
  function TagPieces(s: string): (r: seq<string>)
    ensures forall k :: 0 <= k < |r| ==> Trimmed(r[k]) && ',' !in r[k]
  {
    NonEmptyStrippedCommaFree(Split(StripChars(s, Brackets), ','));
    NonEmptyStripped(Split(StripChars(s, Brackets), ','))
  }

  /** The strings of a list, or `None` when one element is not a str
      (`', '.join` raises then). */
  function StrsOf(xs: seq<Value>): (r: Option<seq<string>>)
    ensures r.Some? <==> forall k :: 0 <= k < |xs| ==> xs[k].PyStr?
    ensures r.Some? ==> |r.value| == |xs| && forall k :: 0 <= k < |xs| ==> r.value[k] == xs[k].s
  {
    if xs == [] then Some([])
    else if !xs[0].PyStr? then None
    else match StrsOf(xs[1..])
      case None => None
      case Some(rest) => Some([xs[0].s] + rest)
  }

  /** `', '.join(tags_val)` after `tags_val = f.get('tags', []) or []` and
      the string conversion. */
  function TagsCell(f: Fields): Outcome<string> {
    var v := GetOr(f, "tags", PyList([]));
    var tv := if Truthy(v) then v else PyList([]);
    if tv.PyStr? then Ok(Join(", ", TagPieces(tv.s)))
    else
      match Iterate(tv)
      case Raised => Raised
      case Ok(xs) =>
        match StrsOf(xs)
        case None => Raised
        case Some(ts) => Ok(Join(", ", ts))
  }

  /** `link`, rewritten to `/{repo}/{link.lstrip('/')}` unless empty or
      already starting with `http` or `/`. A truthy non-str link has no
      `startswith` and raises. */
  function LinkCell(f: Fields): Outcome<string> {
    var link := GetOr(f, "link", PyStr(""));
    if !Truthy(link) then Ok(StrOf(link))
    else if !link.PyStr? then Raised
    else if StartsWith(link.s, "http") || StartsWith(link.s, "/") then Ok(link.s)
    else Ok("/" + RepoCell(f) + "/" + TrimLeft(link.s, Chars({'/'})))
  }

  /** `f"| {title} | {repo} | {tags} | {link} |"`. */
  function RowText(title: string, repo: string, tags: string, link: string): string {
    "| " + title + " | " + repo + " | " + tags + " | " + link + " |"
  }

  /** One table row; an exception in the tags or the link escapes. */
  function RowOf(f: Fields): Outcome<string> {
    match TagsCell(f)
    case Raised => Raised
    case Ok(tags) =>
      match LinkCell(f)
      case Raised => Raised
      case Ok(link) => Ok(RowText(TitleCell(f), RepoCell(f), tags, link))
  }

  // ----- the page -----

  const TableHead := "| Title | Repo | Tags | Link |"
  const TableRule := "| --- | --- | --- | --- |"
  const NoCurrent := "*No implemented features found.*"
  const NoBacklog := "*No backlog items found.*"

  /** The rows of one section, in order, each rendered by `row`; an
      exception in any row escapes. */
  function RowsBy(row: Fields -> Outcome<string>, fs: seq<Fields>): (r: Outcome<seq<string>>)
    ensures r.Ok? <==> forall k :: 0 <= k < |fs| ==> row(fs[k]).Ok?
    ensures r.Ok? ==> |r.value| == |fs| && forall k :: 0 <= k < |fs| ==> r.value[k] == row(fs[k]).value
  {
    if fs == [] then Ok([])
    else
      var init := fs[..|fs| - 1];
      assert forall k :: 0 <= k < |init| ==> init[k] == fs[k];
      match RowsBy(row, init)
      case Raised => Raised
      case Ok(rows) =>
        match row(fs[|fs| - 1])
        case Raised => Raised
        case Ok(last) => Ok(rows + [last])
  }

  /** One section: the placeholder when it has no records, otherwise the
      table heading and one row per record. */
  function Section(row: Fields -> Outcome<string>, fs: seq<Fields>, placeholder: string): Outcome<seq<string>> {
    if fs == [] then Ok([placeholder])
    else
      match RowsBy(row, fs)
      case Raised => Raised
      case Ok(rows) => Ok([TableHead, TableRule] + rows)
  }

  /** A section is the placeholder alone exactly when it has no records;
      otherwise the heading and one row per record, unless a row raises. */
  lemma SectionShape(row: Fields -> Outcome<string>, fs: seq<Fields>, placeholder: string)
    ensures fs == [] ==> Section(row, fs, placeholder) == Ok([placeholder])
    ensures fs != [] ==> (Section(row, fs, placeholder).Ok? <==> forall k :: 0 <= k < |fs| ==> row(fs[k]).Ok?)
    ensures fs != [] && Section(row, fs, placeholder).Ok? ==>
              && |Section(row, fs, placeholder).value| == |fs| + 2
              && Section(row, fs, placeholder).value[..2] == [TableHead, TableRule]
              && forall k :: 0 <= k < |fs| ==> Section(row, fs, placeholder).value[k + 2] == row(fs[k]).value
  {
  }

  const FrontOpen := "---\nlayout: default\ntitle: \"Features Index (Consolidated)\"\nlastmod: "
  const FrontClose := "\n---\n\n"
  const Rule := "\n\n---\n"
  const Footer := "*This index is generated automatically by `/scripts/generate_features_index.py`."

  function Front(now: string): string {
    FrontOpen + now + FrontClose
  }

  /** `header = header_template or ''`, appended only when non-empty. */
  function HeaderLines(header: Option<string>): seq<string> {
    if header.Some? && header.value != "" then [header.value] else []
  }

  function Closing(now: string): seq<string> {
    [Rule, Footer, "\n", "Last updated: " + now]
  }

  /** The two sections with their headings, rows rendered by `row`. */
  function Body(row: Fields -> Outcome<string>, implemented: seq<Fields>, pending: seq<Fields>): Outcome<seq<string>> {
    match Section(row, implemented, NoCurrent)
    case Raised => Raised
    case Ok(current) =>
      match Section(row, pending, NoBacklog)
      case Raised => Raised
      case Ok(backlog) =>
        Ok(["## Current Features", "\n"] + current + ["\n\n## Requested / Backlog Features", "\n"] + backlog)
  }

  predicate AllDicts(features: seq<Value>) {
    forall k :: 0 <= k < |features| ==> features[k].PyDict?
  }

  function FieldsOf(features: seq<Value>): (r: seq<Fields>)
    requires AllDicts(features)
    ensures |r| == |features| && forall k :: 0 <= k < |features| ==> r[k] == features[k].fields
  {
    if features == [] then [] else FieldsOf(features[..|features| - 1]) + [features[|features| - 1].fields]
  }

  /** The page for records grouped by `flag` and rendered by `row`: a
      non-dict record has no `.get` and raises in the first comprehension. */
  function Page(flag: Fields -> bool, row: Fields -> Outcome<string>, features: seq<Value>, header: Option<string>, now: string)
    : Outcome<string>
  {
    if !AllDicts(features) then Raised
    else
      var ds := FieldsOf(features);
      match Body(row, Filter(flag, ds, true), Filter(flag, ds, false))
      case Raised => Raised
      case Ok(body) => Ok(Join("\n", [Front(now)] + HeaderLines(header) + body + Closing(now)))
  }

  /** The result of `build_markdown(features, header_template)` at time `now`. */
  function Markdown(features: seq<Value>, header: Option<string>, now: string): Outcome<string> {
    Page(IsImplemented, RowOf, features, header, now)
  }

  // ----- the imperative page builder -----

  /** The row loop of one section. */
  method AppendRows(row: Fields -> Outcome<string>, lines: seq<string>, fs: seq<Fields>) returns (out: seq<string>, raised: bool)
    ensures raised <==> RowsBy(row, fs).Raised?
    ensures !raised ==> out == lines + RowsBy(row, fs).value
  {
    out := lines;
    for j := 0 to |fs|
      invariant RowsBy(row, fs[..j]).Ok? && out == lines + RowsBy(row, fs[..j]).value
    {
      assert fs[..j + 1][..j] == fs[..j];
      var line := row(fs[j]);
      if line.Raised? {
        return out, true;
      }
      out := out + [line.value];
    }
    assert fs[..|fs|] == fs;
    return out, false;
  }

  /** One section after its heading: the table, or the placeholder sentence. */
  method AppendSection(row: Fields -> Outcome<string>, lines: seq<string>, fs: seq<Fields>, placeholder: string)
    returns (out: seq<string>, raised: bool)
    ensures raised <==> Section(row, fs, placeholder).Raised?
    ensures !raised ==> out == lines + Section(row, fs, placeholder).value
  {
    if fs == [] {
      return lines + [placeholder], false;
    }
    ghost var rows := RowsBy(row, fs);
    out, raised := AppendRows(row, lines + [TableHead, TableRule], fs);
    if !raised {
      assert out == lines + ([TableHead, TableRule] + rows.value);
    }
  }

  /** Both sections, each after its heading. */
  method AppendBody(row: Fields -> Outcome<string>, lines: seq<string>, implemented: seq<Fields>, pending: seq<Fields>)
    returns (out: seq<string>, raised: bool)
    ensures raised <==> Body(row, implemented, pending).Raised?
    ensures !raised ==> out == lines + Body(row, implemented, pending).value
  {
    out := lines + ["## Current Features", "\n"];
    out, raised := AppendSection(row, out, implemented, NoCurrent);
    if raised {
      return;
    }
    ghost var current := Section(row, implemented, NoCurrent).value;
    ghost var middle := out;
    out := out + ["\n\n## Requested / Backlog Features", "\n"];
    out, raised := AppendSection(row, out, pending, NoBacklog);
    if raised {
      return;
    }
    ghost var backlog := Section(row, pending, NoBacklog).value;
    assert out == lines + (["## Current Features", "\n"] + current + ["\n\n## Requested / Backlog Features", "\n"] + backlog);
  }

  lemma DictsSnoc(features: seq<Value>, i: nat)
    requires i < |features| && AllDicts(features[..i]) && features[i].PyDict?
    ensures AllDicts(features[..i + 1])
    ensures FieldsOf(features[..i + 1]) == FieldsOf(features[..i]) + [features[i].fields]
  {
    assert features[..i + 1] == features[..i] + [features[i]];
  }

  lemma FilterSnoc(flag: Fields -> bool, ds: seq<Fields>, d: Fields, want: bool)
    ensures Filter(flag, ds + [d], want) == Filter(flag, ds, want) + (if flag(d) == want then [d] else [])
  {
    assert (ds + [d])[..|ds|] == ds;
  }

  lemma NotAllDicts(features: seq<Value>, i: nat)
    requires i < |features| && !features[i].PyDict?
    ensures !AllDicts(features)
  {
  }

  /** One more record in the comprehension. */
  lemma SelectSnoc(flag: Fields -> bool, features: seq<Value>, i: nat, want: bool)
    requires i < |features| && AllDicts(features[..i]) && features[i].PyDict?
    ensures AllDicts(features[..i + 1])
    ensures Filter(flag, FieldsOf(features[..i + 1]), want) ==
              Filter(flag, FieldsOf(features[..i]), want) +
              (if flag(features[i].fields) == want then [features[i].fields] else [])
  {
    DictsSnoc(features, i);
    FilterSnoc(flag, FieldsOf(features[..i]), features[i].fields, want);
  }

  /** `[f for f in features if flag(f) == want]`: `f.get` raises on a record that is not a dict. */
  method Comprehension(flag: Fields -> bool, features: seq<Value>, want: bool) returns (r: Outcome<seq<Fields>>)
    ensures r.Ok? <==> AllDicts(features)
    ensures r.Ok? ==> r.value == Filter(flag, FieldsOf(features), want)
  {
    var selected: seq<Fields> := [];
    for i := 0 to |features|
      invariant AllDicts(features[..i])
      invariant selected == Filter(flag, FieldsOf(features[..i]), want)
    {
      var f := features[i];
      if !f.PyDict? {
        NotAllDicts(features, i);
        return Raised;
      }
      SelectSnoc(flag, features, i, want);
      if flag(f.fields) == want {
        selected := selected + [f.fields];
      }
    }
    assert features[..|features|] == features;
    assert AllDicts(features);
    return Ok(selected);
  }

  /** The body of `build_markdown` with the grouping test and the row
      format as parameters. */
  method BuildPage(flag: Fields -> bool, row: Fields -> Outcome<string>, features: seq<Value>, headerTemplate: Option<string>, now: string)
    returns (r: Outcome<string>)
    ensures r == Page(flag, row, features, headerTemplate, now)
  {
    var header := if headerTemplate.Some? then headerTemplate.value else "";
    var contentLines := [Front(now)];
    if header != "" {
      contentLines := contentLines + [header];
    }
    assert contentLines == [Front(now)] + HeaderLines(headerTemplate);
    var implemented := Comprehension(flag, features, true);
    if implemented.Raised? {
      return Raised;
    }
    var pending := Comprehension(flag, features, false);
    ghost var opening := contentLines;
    var raised;
    contentLines, raised := AppendBody(row, contentLines, implemented.value, pending.value);
    if raised {
      return Raised;
    }
    ghost var body := Body(row, implemented.value, pending.value).value;
    contentLines := contentLines + Closing(now);
    assert contentLines == opening + body + Closing(now);
    return Ok(Join("\n", contentLines));
  }

  method BuildMarkdown(features: seq<Value>, headerTemplate: Option<string>, now: string) returns (r: Outcome<string>)
    ensures r == Markdown(features, headerTemplate, now)
  {
    r := BuildPage(IsImplemented, RowOf, features, headerTemplate, now);
  }
}
