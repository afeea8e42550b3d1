/** `read_yaml_bytes` and `parse_frontmatter_from_md_bytes` of
    scripts/generate_features_index.py: the YAML library behind its import
    guard, and the front-matter block `^---\s*\n(.*?)\n---\s*\n` (DOTALL)
    of a Markdown file. */
module FrontMatter {
  import opened Wrappers
  import opened PyText
  import opened PyValue
  import opened Utf8

  /** What one call of `yaml.safe_load` does: return a value or raise. */
  datatype Loaded = Parsed(v: Value) | ParseError

  /** The `yaml` module: not importable, or importable with its `safe_load`. */
  datatype YamlLib = Missing | Available(safeLoad: bytes -> Loaded)

  /** `read_yaml_bytes(raw)`: `None` without the library or when it raises. */
  function ReadYamlBytes(lib: YamlLib, raw: bytes): (r: Value)
    ensures lib.Missing? ==> r == PyNone
    ensures lib.Available? && lib.safeLoad(raw).ParseError? ==> r == PyNone
    ensures lib.Available? && lib.safeLoad(raw).Parsed? ==> r == lib.safeLoad(raw).v
  {
    match lib
    case Missing => PyNone
    case Available(load) =>
      match load(raw)
      case Parsed(v) => v
      case ParseError => PyNone
  }

  /** `^---\s*\n` matches `s[..p]`. */
  predicate OpensAt(s: string, p: nat) {
    && 4 <= p <= |s|
    && s[..3] == "---"
    && s[p - 1] == '\n'
    && (forall k :: 3 <= k < p - 1 ==> IsSpace(s[k]))
  }

  /** `\s*\n` matches somewhere from `i` on. */
  predicate SpacesThenNewline(s: string, i: nat)
    decreases |s| - i
  {
    i < |s| && (s[i] == '\n' || (IsSpace(s[i]) && SpacesThenNewline(s, i + 1)))
  }

  /** `\n---\s*\n` matches from `q` on. */
  predicate ClosesAt(s: string, q: nat) {
    && q + 4 <= |s|
    && s[q] == '\n'
    && s[q + 1..q + 4] == "---"
    && SpacesThenNewline(s, q + 4)
  }

  /** The match the regex engine reports: the opening with the longest
      `\s*` that has any closing after it (greedy, backtracking), and its
      nearest closing (lazy `.*?`). */
  ghost predicate Chosen(s: string, p: nat, q: nat) {
    && OpensAt(s, p)
    && p <= q
    && ClosesAt(s, q)
    && (forall q': nat :: p <= q' < q ==> !ClosesAt(s, q'))
    && (forall p': nat, q': nat :: p < p' <= q' && OpensAt(s, p') ==> !ClosesAt(s, q'))
  }

  /** The nearest closing at or after `i`. */
  function FirstClose(s: string, i: nat): (r: Option<nat>)
    ensures r.Some? ==> i <= r.value && ClosesAt(s, r.value)
    ensures r.Some? ==> forall q: nat :: i <= q < r.value ==> !ClosesAt(s, q)
    ensures r.None? ==> forall q: nat :: i <= q ==> !ClosesAt(s, q)
    decreases |s| - i
  {
    if |s| < i + 4 then None
    else if ClosesAt(s, i) then Some(i)
    else FirstClose(s, i + 1)
  }

  /** Backtracking over the openings `p`, `p - 1`, ..., 4. */
  function TryOpen(s: string, p: nat): (r: Option<(nat, nat)>)
    ensures r.Some? ==> r.value.0 <= p && OpensAt(s, r.value.0) && FirstClose(s, r.value.0) == Some(r.value.1)
    ensures r.Some? ==> forall p': nat :: r.value.0 < p' <= p && OpensAt(s, p') ==> FirstClose(s, p').None?
    ensures r.None? ==> forall p': nat :: p' <= p && OpensAt(s, p') ==> FirstClose(s, p').None?
    decreases p
  {
    if p < 4 then None
    else if OpensAt(s, p) && FirstClose(s, p).Some? then Some((p, FirstClose(s, p).value))
    else TryOpen(s, p - 1)
  }

  /** No opening reaches past the run of whitespace after the first `---`. */
  lemma OpeningWithinSpaces(s: string, p: nat)
    requires OpensAt(s, p)
    ensures p <= SpaceEnd(s, 3)
  {
    var w := SpaceEnd(s, 3);
    assert IsSpace(s[p - 1]);
    assert w < |s| ==> !IsSpace(s[w]);
  }

  /** `m.group(1)` of the front-matter regex, or `None` when it does not match. */
  function Extract(s: string): (r: Option<string>)
    ensures r.None? <==> forall p: nat, q: nat :: !(OpensAt(s, p) && p <= q && ClosesAt(s, q))
    ensures forall p: nat, q: nat :: Chosen(s, p, q) ==> r == Some(s[p..q])
    ensures r.Some? ==> exists p: nat, q: nat :: Chosen(s, p, q) && r.value == s[p..q]
  {
    if |s| < 4 || s[..3] != "---" then None
    else
      var w := SpaceEnd(s, 3);
      assert forall p: nat :: OpensAt(s, p) ==> p <= w by {
        forall p: nat | OpensAt(s, p) ensures p <= w {
          OpeningWithinSpaces(s, p);
        }
      }
      match TryOpen(s, w)
      case None => None
      case Some((p, q)) =>
        assert Chosen(s, p, q) by {
          forall p': nat, q': nat | p < p' <= q' && OpensAt(s, p') ensures !ClosesAt(s, q') {
            assert FirstClose(s, p').None?;
          }
        }
        assert forall p': nat, q': nat :: Chosen(s, p', q') ==> p' == p && q' == q by {
          forall p': nat, q': nat | Chosen(s, p', q') ensures p' == p && q' == q {
            ChosenUnique(s, p, q, p', q');
          }
        }
        Some(s[p..q])
  }

  /** The reported match is determined by the text. */
  lemma ChosenUnique(s: string, p: nat, q: nat, p': nat, q': nat)
    requires Chosen(s, p, q) && Chosen(s, p', q')
    ensures p == p' && q == q'
  {
    assert !(p < p' <= q');
    assert !(p' < p <= q);
  }

  /** `parse_frontmatter_from_md_bytes(b)`: decode, cut out the block and
      hand its UTF-8 encoding to the YAML library. */
  function ParseFrontmatter(lib: YamlLib, b: bytes): Value {
    match Extract(Decode(b))
    case Some(block) => ReadYamlBytes(lib, Encode(block))
    case None => PyNone
  }

  /** Without a front-matter block the parse is `None`, whatever the library
      does; with one, the library sees exactly the block's text. */
  lemma FrontmatterReachesLoader(lib: YamlLib, b: bytes)
    ensures Extract(Decode(b)).None? ==> ParseFrontmatter(lib, b) == PyNone
    ensures Extract(Decode(b)).Some? ==>
              exists raw :: ParseFrontmatter(lib, b) == ReadYamlBytes(lib, raw) && Decode(raw) == Extract(Decode(b)).value
  {
    if Extract(Decode(b)).Some? {
      var raw := Encode(Extract(Decode(b)).value);
      DecodeEncode(Extract(Decode(b)).value);
      assert ParseFrontmatter(lib, b) == ReadYamlBytes(lib, raw);
    }
  }

  /** Without the library no Markdown file yields metadata. */
  lemma NoLibraryNoFrontmatter(b: bytes)
    ensures ParseFrontmatter(Missing, b) == PyNone
  {
  }

  /** With a plain `---` opening line, the block ends at the first closing
      line after it: any later `---` line belongs to the body. */
  lemma FirstClosingWins(s: string, q: nat)
    requires StartsWith(s, "---\n") && |s| > 4 && !IsSpace(s[4])
    requires 4 <= q && ClosesAt(s, q)
    requires forall q': nat :: 4 <= q' < q ==> !ClosesAt(s, q')
    ensures Extract(s) == Some(s[4..q])
  {
    assert s[..3] == "---" && s[3] == '\n';
    assert OpensAt(s, 4);
    assert forall p': nat :: OpensAt(s, p') ==> p' == 4;
    assert Chosen(s, 4, q);
  }

  /** `\s*\n` finds a newline. */
  lemma {:induction false} NewlineAhead(s: string, i: nat)
    requires SpacesThenNewline(s, i)
    ensures exists k :: i <= k < |s| && s[k] == '\n'
    decreases |s| - i
  {
    if s[i] != '\n' {
      NewlineAhead(s, i + 1);
    }
  }

  /** A closing `---` with no newline after it, at the end of the text, closes
      nothing: without an earlier closing line there is no block. */
  lemma ClosingNeedsNewline(body: string, sp: string)
    requires forall k :: 0 <= k < |sp| ==> sp[k] != '\n'
    requires forall q: nat :: q < |body| ==> !ClosesAt(body + "\n---" + sp, q)
    ensures Extract(body + "\n---" + sp) == None
  {
    TailClosesNothing(body, sp);
    NoClosingNoBlock(body + "\n---" + sp);
  }

  /** No closing line starts at the final `---` or after it. */
  lemma TailClosesNothing(body: string, sp: string)
    requires forall k :: 0 <= k < |sp| ==> sp[k] != '\n'
    ensures forall q: nat :: |body| <= q ==> !ClosesAt(body + "\n---" + sp, q)
  {
    var s := body + "\n---" + sp;
    forall q: nat | |body| <= q ensures !ClosesAt(s, q) {
      if ClosesAt(s, q) {
        NewlineAhead(s, q + 4);
      }
    }
  }

  /** A text with no closing line has no block. */
  lemma NoClosingNoBlock(s: string)
    requires forall q: nat :: !ClosesAt(s, q)
    ensures Extract(s) == None
  {
  }

  /** The opening `---` must start the text. */
  lemma OpeningAtStart(s: string)
    requires !StartsWith(s, "---")
    ensures Extract(s) == None
  {
  }
}
