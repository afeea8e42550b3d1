/** What the page of `build_markdown` promises: when it raises, how it
    begins and ends, that every record has its row on it, and how the tag
    and link cells behave. */
module RenderProps {
  import opened Wrappers
  import opened PyText
  import opened PyValue
  import opened Render
  import opened TextFacts

  // ----- the page, for any grouping test and row format -----

  /** A body is produced exactly when every row of both groups can be rendered. */
  lemma BodyOk(row: Fields -> Outcome<string>, implemented: seq<Fields>, pending: seq<Fields>)
    ensures Body(row, implemented, pending).Ok? <==>
              (forall k :: 0 <= k < |implemented| ==> row(implemented[k]).Ok?) &&
              (forall k :: 0 <= k < |pending| ==> row(pending[k]).Ok?)
  {
    SectionShape(row, implemented, NoCurrent);
    SectionShape(row, pending, NoBacklog);
  }

  /** Every record is in one of the two groups, so all rows of the groups
      render exactly when all rows of the records do. */
  lemma GroupsOk(flag: Fields -> bool, row: Fields -> Outcome<string>, ds: seq<Fields>)
    ensures (forall k :: 0 <= k < |ds| ==> row(ds[k]).Ok?) <==>
              (forall k :: 0 <= k < |Filter(flag, ds, true)| ==> row(Filter(flag, ds, true)[k]).Ok?) &&
              (forall k :: 0 <= k < |Filter(flag, ds, false)| ==> row(Filter(flag, ds, false)[k]).Ok?)
  {
    var imp, pend := Filter(flag, ds, true), Filter(flag, ds, false);
    if forall k :: 0 <= k < |ds| ==> row(ds[k]).Ok? {
      forall k | 0 <= k < |imp| ensures row(imp[k]).Ok? {
        FilterMembers(flag, ds, true, imp[k]);
      }
      forall k | 0 <= k < |pend| ensures row(pend[k]).Ok? {
        FilterMembers(flag, ds, false, pend[k]);
      }
    }
    if (forall k :: 0 <= k < |imp| ==> row(imp[k]).Ok?) && (forall k :: 0 <= k < |pend| ==> row(pend[k]).Ok?) {
      forall k | 0 <= k < |ds| ensures row(ds[k]).Ok? {
        var d := ds[k];
        FilterMembers(flag, ds, flag(d), d);
      }
    }
  }

  /** The page is produced exactly when every record is a dict and every
      record's row can be rendered. */
  lemma PageOk(flag: Fields -> bool, row: Fields -> Outcome<string>, features: seq<Value>, header: Option<string>, now: string)
    ensures Page(flag, row, features, header, now).Ok? <==>
              AllDicts(features) && forall k :: 0 <= k < |features| ==> row(features[k].fields).Ok?
  {
    if AllDicts(features) {
      var ds := FieldsOf(features);
      BodyOk(row, Filter(flag, ds, true), Filter(flag, ds, false));
      GroupsOk(flag, row, ds);
      if forall k :: 0 <= k < |ds| ==> row(ds[k]).Ok? {
        forall k | 0 <= k < |features| ensures row(features[k].fields).Ok? {
          assert ds[k] == features[k].fields;
        }
      } else {
        var k :| 0 <= k < |ds| && !row(ds[k]).Ok?;
        assert features[k].fields == ds[k];
      }
    }
  }

  /** The lines of a page that was produced. */
  function Lines(flag: Fields -> bool, row: Fields -> Outcome<string>, features: seq<Value>, header: Option<string>, now: string)
    : (r: seq<string>)
    requires AllDicts(features)
    requires Body(row, Filter(flag, FieldsOf(features), true), Filter(flag, FieldsOf(features), false)).Ok?
    ensures Page(flag, row, features, header, now) == Ok(Join("\n", r))
    ensures r[0] == Front(now) && r[|r| - 1] == "Last updated: " + now
    ensures header.Some? && header.value != "" ==> r[1] == header.value
  {
    var ds := FieldsOf(features);
    [Front(now)] + HeaderLines(header) + Body(row, Filter(flag, ds, true), Filter(flag, ds, false)).value + Closing(now)
  }

  /** The page opens with the front matter, then the header template when
      there is one, and closes with the generation time. */
  lemma PageFrame(flag: Fields -> bool, row: Fields -> Outcome<string>, features: seq<Value>, header: Option<string>, now: string)
    requires Page(flag, row, features, header, now).Ok?
    ensures StartsWith(Page(flag, row, features, header, now).value, Front(now))
    ensures header.Some? && header.value != "" ==>
              StartsWith(Page(flag, row, features, header, now).value, Front(now) + "\n" + header.value)
    ensures EndsWith(Page(flag, row, features, header, now).value, "Last updated: " + now)
  {
    var lines := Lines(flag, row, features, header, now);
    JoinFirst("\n", lines);
    JoinLast("\n", lines);
    if header.Some? && header.value != "" {
      JoinFirst("\n", lines[1..]);
      assert Join("\n", lines) == Front(now) + "\n" + Join("\n", lines[1..]);
    }
  }

  /** Every record's row is on the page. */
  lemma PageRows(flag: Fields -> bool, row: Fields -> Outcome<string>, features: seq<Value>, header: Option<string>, now: string, k: nat)
    requires Page(flag, row, features, header, now).Ok?
    requires k < |features|
    ensures features[k].PyDict? && row(features[k].fields).Ok?
    ensures IsSubstring(row(features[k].fields).value, Page(flag, row, features, header, now).value)
  {
    PageOk(flag, row, features, header, now);
    var ds := FieldsOf(features);
    var d := ds[k];
    var g := Filter(flag, ds, flag(d));
    FilterMembers(flag, ds, flag(d), d);
    var j :| 0 <= j < |g| && g[j] == d;
    var placeholder := if flag(d) then NoCurrent else NoBacklog;
    SectionShape(row, g, placeholder);
    var section := Section(row, g, placeholder).value;
    assert row(d).value == section[j + 2];
    var lines := Lines(flag, row, features, header, now);
    assert row(d).value in lines;
    JoinMember("\n", lines, row(d).value);
  }

  /** The body has the two headings and, per section, the placeholder for
      an empty group or the table heading, rule and one row per record. */
  lemma BodyShape(row: Fields -> Outcome<string>, implemented: seq<Fields>, pending: seq<Fields>)
    requires Body(row, implemented, pending).Ok?
    ensures var b := Body(row, implemented, pending).value;
            var n := if implemented == [] then 1 else |implemented| + 2;
            && |b| == 4 + n + (if pending == [] then 1 else |pending| + 2)
            && b[0] == "## Current Features"
            && (b[2] == NoCurrent <==> implemented == [])
            && b[n + 2] == "\n\n## Requested / Backlog Features"
            && (b[n + 4] == NoBacklog <==> pending == [])
  {
    SectionShape(row, implemented, NoCurrent);
    SectionShape(row, pending, NoBacklog);
  }

  // ----- the page of `build_markdown` -----

  /** `build_markdown` raises exactly when a record is not a dict or one
      record's tags or link cannot be rendered. */
  lemma MarkdownOk(features: seq<Value>, header: Option<string>, now: string)
    ensures Markdown(features, header, now).Ok? <==>
              AllDicts(features) &&
              forall k :: 0 <= k < |features| ==> TagsCell(features[k].fields).Ok? && LinkCell(features[k].fields).Ok?
  {
    PageOk(IsImplemented, RowOf, features, header, now);
  }

  /** Every record's row, with its title, is on the page. */
  lemma MarkdownRows(features: seq<Value>, header: Option<string>, now: string, k: nat)
    requires Markdown(features, header, now).Ok?
    requires k < |features|
    ensures features[k].PyDict? && RowOf(features[k].fields).Ok?
    ensures IsSubstring(RowOf(features[k].fields).value, Markdown(features, header, now).value)
    ensures IsSubstring(TitleCell(features[k].fields), Markdown(features, header, now).value)
  {
    PageRows(IsImplemented, RowOf, features, header, now, k);
    RowHasTitle(features[k].fields);
    SubstringTrans(TitleCell(features[k].fields), RowOf(features[k].fields).value, Markdown(features, header, now).value);
  }

  /** Every record's title is on the page. */
  lemma MarkdownTitle(features: seq<Value>, header: Option<string>, now: string, k: nat)
    requires Markdown(features, header, now).Ok?
    requires k < |features|
    ensures features[k].PyDict?
    ensures IsSubstring(TitleCell(features[k].fields), Markdown(features, header, now).value)
  {
    MarkdownRows(features, header, now, k);
  }

  /** A row carries its record's title. */
  lemma RowHasTitle(f: Fields)
    requires RowOf(f).Ok?
    ensures IsSubstring(TitleCell(f), RowOf(f).value)
  {
    var tags, link := TagsCell(f).value, LinkCell(f).value;
    RowTextHasTitle(TitleCell(f), RepoCell(f), tags, link);
  }

  lemma RowTextHasTitle(title: string, repo: string, tags: string, link: string)
    ensures IsSubstring(title, RowText(title, repo, tags, link))
  {
    var rest := " | " + repo + " | " + tags + " | " + link + " |";
    assert RowText(title, repo, tags, link) == "| " + title + rest;
    SubstringMiddle("| ", title, rest);
  }

  /** A substring of a substring is a substring. */
  lemma {:induction false} SubstringTrans(a: string, b: string, c: string)
    requires IsSubstring(a, b) && IsSubstring(b, c)
    ensures IsSubstring(a, c)
    decreases |c|
  {
    if StartsWith(c, b) {
      PrefixSubstring(a, b, c);
    } else {
      SubstringTrans(a, b, c[1..]);
    }
  }

  lemma {:induction false} PrefixSubstring(a: string, b: string, c: string)
    requires IsSubstring(a, b) && StartsWith(c, b)
    ensures IsSubstring(a, c)
    decreases |b|
  {
    if StartsWith(b, a) {
      assert c[..|a|] == b[..|a|];
    } else {
      assert c != [] && StartsWith(c[1..], b[1..]) by {
        assert c[1..][..|b| - 1] == c[..|b|][1..];
      }
      PrefixSubstring(a, b[1..], c[1..]);
    }
  }

  // ----- the tags cell -----

  /** A tag as the string form can carry it: non-empty, no space at either
      end, no comma and no bracket. */
  predicate PlainTag(t: string) {
    Trimmed(t) && ',' !in t && '[' !in t && ']' !in t
  }

  function AsStrs(ts: seq<string>): (r: seq<Value>)
    ensures |r| == |ts| && forall k :: 0 <= k < |ts| ==> r[k] == PyStr(ts[k])
  {
    seq(|ts|, k requires 0 <= k < |ts| => PyStr(ts[k]))
  }

  /** Splitting a joined list of plain tags on commas and stripping the
      pieces gives the tags back, whatever spaces follow each comma. */
  lemma {:induction false} PiecesOfJoin(pad: string, sp: string, ts: seq<string>)
    requires AllSpaces(pad) && AllSpaces(sp)
    requires forall k :: 0 <= k < |ts| ==> PlainTag(ts[k])
    ensures NonEmptyStripped(Split(pad + Join("," + sp, ts), ',')) == ts
    decreases |ts|, 1
  {
    if ts == [] {
      PiecesOfNothing(pad, "," + sp);
    } else if |ts| == 1 {
      assert ts == [ts[0]];
      PiecesOfOne(pad, "," + sp, ts[0]);
    } else {
      PiecesOfLonger(pad, sp, ts);
    }
  }

  /** The step of the induction: the first tag, a comma, then the rest. */
  lemma {:induction false} PiecesOfLonger(pad: string, sp: string, ts: seq<string>)
    requires AllSpaces(pad) && AllSpaces(sp)
    requires forall k :: 0 <= k < |ts| ==> PlainTag(ts[k])
    requires |ts| > 1
    ensures NonEmptyStripped(Split(pad + Join("," + sp, ts), ',')) == ts
    decreases |ts|, 0
  {
    var sep := "," + sp;
    var t, rest := ts[0], ts[1..];
    var j := Join(sep, rest);
    PlainRest(ts);
    PiecesOfJoin(sp, sp, rest);
    PiecesStep(pad, t, sp, j, rest);
    JoinCons(sep, ts);
    ConsRest(ts);
  }

  lemma PlainRest(ts: seq<string>)
    requires ts != [] && forall k :: 0 <= k < |ts| ==> PlainTag(ts[k])
    ensures forall k :: 0 <= k < |ts[1..]| ==> PlainTag(ts[1..][k])
  {
    forall k | 0 <= k < |ts[1..]| ensures PlainTag(ts[1..][k]) {
      assert ts[1..][k] == ts[k + 1];
    }
  }

  lemma ConsRest(ts: seq<string>)
    requires ts != []
    ensures [ts[0]] + ts[1..] == ts
  {
  }

  /** The text before the first comma strips to the first tag. */
  lemma FirstPiece(pad: string, t: string)
    requires AllSpaces(pad) && PlainTag(t)
    ensures ',' !in pad + t && Strip(pad + t) == t && t != ""
  {
    StripPadded(pad, t);
    NoCommaInSpaces(pad);
  }

  /** One comma-separated piece in front of the rest. */
  lemma PiecesStep(pad: string, t: string, sp: string, j: string, rest: seq<string>)
    requires AllSpaces(pad) && PlainTag(t)
    requires NonEmptyStripped(Split(sp + j, ',')) == rest
    ensures NonEmptyStripped(Split(pad + (t + ("," + sp) + j), ',')) == [t] + rest
  {
    Regroup(pad, t, sp, j);
    FirstPiece(pad, t);
    SplitAt(pad + t, sp + j, ',');
    StrippedCons(pad + t, Split(sp + j, ','));
  }

  lemma PiecesOfNothing(pad: string, sep: string)
    requires AllSpaces(pad)
    ensures NonEmptyStripped(Split(pad + Join(sep, []), ',')) == []
  {
    assert pad + Join(sep, []) == pad;
    NoCommaInSpaces(pad);
    SplitNone(pad, ',');
    StripPadded(pad, "");
    assert pad + "" == pad;
    assert [pad][1..] == [];
  }

  lemma PiecesOfOne(pad: string, sep: string, t: string)
    requires AllSpaces(pad) && PlainTag(t)
    ensures NonEmptyStripped(Split(pad + Join(sep, [t]), ',')) == [t]
  {
    assert Join(sep, [t]) == t;
    NoCommaInSpaces(pad);
    assert ',' !in pad + t;
    SplitNone(pad + t, ',');
    StripPadded(pad, t);
    StrippedCons(pad + t, []);
    assert [pad + t] + [] == [pad + t];
  }

  lemma NoCommaInSpaces(pad: string)
    requires AllSpaces(pad)
    ensures ',' !in pad
  {
    forall i | 0 <= i < |pad| ensures pad[i] != ',' {
      assert InClass(pad[i], Spaces);
    }
  }

  lemma Regroup(pad: string, t: string, sp: string, j: string)
    ensures pad + (t + ("," + sp) + j) == (pad + t) + [','] + (sp + j)
  {
  }

  lemma JoinCons(sep: string, ts: seq<string>)
    requires |ts| > 1
    ensures Join(sep, ts) == ts[0] + sep + Join(sep, ts[1..])
  {
  }

  lemma StrippedCons(p: string, rest: seq<string>)
    requires Strip(p) != ""
    ensures NonEmptyStripped([p] + rest) == [Strip(p)] + NonEmptyStripped(rest)
  {
    assert ([p] + rest)[1..] == rest;
  }

  /** Stripping brackets from `[...]` around text that neither starts nor
      ends with a bracket leaves that text; without the brackets it already is. */
  lemma StripBrackets(s: string)
    requires s == [] || (!InClass(s[0], Brackets) && !InClass(s[|s| - 1], Brackets))
    ensures StripChars("[" + s + "]", Brackets) == s
    ensures StripChars(s, Brackets) == s
  {
    var b := "[" + s + "]";
    assert b[1..] == s + "]";
    if s == [] {
      assert TrimLeft("]", Brackets) == "";
    } else {
      assert (s + "]")[0] == s[0];
      assert TrimLeft(s + "]", Brackets) == s + "]";
      assert (s + "]")[..|s|] == s;
      assert TrimRight(s + "]", Brackets) == TrimRight(s, Brackets);
    }
  }

  /** The string form of a list of tags: separated by a comma and the
      spaces `sp`, optionally in brackets. */
  function TagString(sp: string, ts: seq<string>, bracketed: bool): string {
    if bracketed then "[" + Join("," + sp, ts) + "]" else Join("," + sp, ts)
  }

  /** The string forms `"[a, b]"`, `"a, b"` and `"a,b"` parse into the
      tags they list. */
  lemma TagsRoundTrip(sp: string, ts: seq<string>, bracketed: bool)
    requires AllSpaces(sp)
    requires forall k :: 0 <= k < |ts| ==> PlainTag(ts[k])
    ensures TagPieces(TagString(sp, ts, bracketed)) == ts
  {
    var j := Join("," + sp, ts);
    if ts != [] {
      JoinFirst("," + sp, ts);
      JoinLast("," + sp, ts);
      assert j[0] == ts[0][0];
      assert j[|j| - 1] == ts[|ts| - 1][|ts[|ts| - 1]| - 1];
    }
    StripBrackets(j);
    PiecesOfJoin("", sp, ts);
    assert "" + j == j;
  }

  /** A list of plain tags and its string form render the same cell. */
  lemma TagFormsAgree(f: Fields, g: Fields, sp: string, ts: seq<string>, bracketed: bool)
    requires AllSpaces(sp)
    requires forall k :: 0 <= k < |ts| ==> PlainTag(ts[k])
    requires Get(f, "tags") == Some(PyList(AsStrs(ts)))
    requires Get(g, "tags") == Some(PyStr(TagString(sp, ts, bracketed)))
    ensures TagsCell(f) == Ok(Join(", ", ts))
    ensures TagsCell(g) == TagsCell(f)
  {
    var s := TagString(sp, ts, bracketed);
    TagsRoundTrip(sp, ts, bracketed);
    TagsOfList(f, ts);
    if s == "" {
      TagsOfNothing(g);
      assert ts == [];
    } else {
      TagsOfString(g, s);
    }
  }

  lemma TagsOfList(f: Fields, ts: seq<string>)
    requires Get(f, "tags") == Some(PyList(AsStrs(ts)))
    ensures TagsCell(f) == Ok(Join(", ", ts))
  {
    var xs := AsStrs(ts);
    assert GetOr(f, "tags", PyList([])) == PyList(xs);
    assert forall k :: 0 <= k < |xs| ==> xs[k].PyStr?;
    assert StrsOf(xs).value == ts;
  }

  lemma TagsOfString(f: Fields, s: string)
    requires Get(f, "tags") == Some(PyStr(s)) && s != ""
    ensures TagsCell(f) == Ok(Join(", ", TagPieces(s)))
  {
    assert GetOr(f, "tags", PyList([])) == PyStr(s);
  }

  lemma TagsOfNothing(f: Fields)
    requires Get(f, "tags").Some? && !Truthy(Get(f, "tags").value)
    ensures TagsCell(f) == Ok("")
  {
    assert !Truthy(GetOr(f, "tags", PyList([])));
  }

  /** Only a truthy int or bool, or a list holding something other than a
      str, makes the tags cell raise; a str or a dict never does. */
  lemma TagsRaises(f: Fields)
    ensures var v := GetOr(f, "tags", PyList([]));
            TagsCell(f).Raised? <==>
              Truthy(v) && (v.PyInt? || v.PyBool? || (v.PyList? && exists k :: 0 <= k < |v.elems| && !v.elems[k].PyStr?))
  {
  }

  // ----- the link cell -----

  /** A truthy link that is not a str has no `startswith`: exactly then the cell raises. */
  lemma LinkRaises(f: Fields)
    ensures var link := GetOr(f, "link", PyStr(""));
            LinkCell(f).Raised? <==> Truthy(link) && !link.PyStr?
  {
  }

  /** A str link is rendered empty, absolute (`http...`) or site-rooted (`/...`). */
  lemma LinkShape(f: Fields)
    requires GetOr(f, "link", PyStr("")).PyStr?
    ensures LinkCell(f).Ok?
    ensures var l := LinkCell(f).value;
            l == "" || StartsWith(l, "http") || StartsWith(l, "/")
  {
  }

  /** A relative link is placed under the record's repository; it has no
      leading slash, so `lstrip('/')` leaves it as it is. */
  lemma LinkRewrite(f: Fields, s: string)
    requires Get(f, "link") == Some(PyStr(s))
    requires s != "" && !StartsWith(s, "http") && !StartsWith(s, "/")
    ensures LinkCell(f) == Ok("/" + RepoCell(f) + "/" + s)
  {
    assert s[0] != '/' by {
      assert s[..1] == [s[0]];
    }
    TrimLeftNoop(s, Chars({'/'}));
  }

  /** Rendering a rendered str link again changes nothing. */
  lemma LinkIdempotent(f: Fields)
    requires GetOr(f, "link", PyStr("")).PyStr?
    ensures LinkCell(f).Ok?
    ensures LinkCell(Put(f, "link", PyStr(LinkCell(f).value))) == LinkCell(f)
  {
    LinkShape(f);
    var g := Put(f, "link", PyStr(LinkCell(f).value));
    PutGet(f, "link", PyStr(LinkCell(f).value));
    assert GetOr(g, "link", PyStr("")) == PyStr(LinkCell(f).value);
  }

  // ----- the two records of the unit test -----

  /** A record shaped like the first one of the unit test: implemented,
      tags given as a list, a site-rooted link. */
  lemma CellsOfListRecord(f: Fields, title: string, ts: seq<string>, link: string)
    requires Get(f, "title") == Some(PyStr(title))
    requires Get(f, "implemented") == Some(PyBool(true))
    requires Get(f, "tags") == Some(PyList(AsStrs(ts)))
    requires Get(f, "link") == Some(PyStr(link)) && StartsWith(link, "/")
    ensures IsImplemented(f)
    ensures RowOf(f) == Ok(RowText(title, RepoCell(f), Join(", ", ts), link))
  {
    ImplementedValues(f);
    TagsOfList(f, ts);
    LinkOfRooted(f, link);
    assert RowOf(f) == Ok(RowText(TitleCell(f), RepoCell(f), Join(", ", ts), link));
    TitleFallback(f);
  }

  /** A record shaped like the second one: pending, tags given as the
      string `"x,y"`. */
  lemma CellsOfStringRecord(f: Fields, title: string, ts: seq<string>, link: string)
    requires Get(f, "title") == Some(PyStr(title))
    requires Get(f, "implemented") == Some(PyBool(false))
    requires forall k :: 0 <= k < |ts| ==> PlainTag(ts[k])
    requires Get(f, "tags") == Some(PyStr(TagString("", ts, false))) && ts != []
    requires Get(f, "link") == Some(PyStr(link)) && StartsWith(link, "/")
    ensures !IsImplemented(f)
    ensures RowOf(f) == Ok(RowText(title, RepoCell(f), Join(", ", ts), link))
  {
    ImplementedValues(f);
    var s := TagString("", ts, false);
    assert s != "" by {
      JoinFirst("," + "", ts);
    }
    TagsRoundTrip("", ts, false);
    TagsOfString(f, s);
    assert TagsCell(f) == Ok(Join(", ", ts));
    LinkOfRooted(f, link);
    assert RowOf(f) == Ok(RowText(TitleCell(f), RepoCell(f), Join(", ", ts), link));
    TitleFallback(f);
  }

  lemma LinkOfRooted(f: Fields, link: string)
    requires Get(f, "link") == Some(PyStr(link)) && StartsWith(link, "/")
    ensures LinkCell(f) == Ok(link)
  {
    assert GetOr(f, "link", PyStr("")) == PyStr(link);
  }

  /** When every record is a dict whose tags and link render, the page is
      produced and names every record's title. */
  lemma TitlesOnPage(features: seq<Value>, header: Option<string>, now: string)
    requires AllDicts(features)
    requires forall k :: 0 <= k < |features| ==> TagsCell(features[k].fields).Ok? && LinkCell(features[k].fields).Ok?
    ensures Markdown(features, header, now).Ok?
    ensures forall k :: 0 <= k < |features| ==> IsSubstring(TitleCell(features[k].fields), Markdown(features, header, now).value)
  {
    MarkdownOk(features, header, now);
    forall k | 0 <= k < |features|
      ensures IsSubstring(TitleCell(features[k].fields), Markdown(features, header, now).value)
    {
      MarkdownTitle(features, header, now, k);
    }
  }
}
