/** `collect_from_local` of scripts/generate_features_index.py: scan the
    sibling directories of a workspace for feature metadata files. */
module LocalCollector {
  import opened Wrappers
  import opened PyText
  import opened PyValue
  import opened Utf8
  import opened FrontMatter
  import opened Records
  import FallbackParser
  import Sorting

  /** A path as its components: `os.path.join(root, name, 'features')` is `root + [name, "features"]`. */
  type Path = seq<string>

  /** A directory with what `os.listdir` returns for it (`None`: listing it
      raises, as for a directory without read permission), or a file whose
      contents `open(..., 'rb').read()` returns (`None`: opening or reading raises). */
  datatype Node = Dir(listing: Option<seq<string>>) | File(content: Option<bytes>)

  /** The file system: the nodes that exist. */
  type Fs = map<Path, Node>

  /** `os.path.isdir(p)`. */
  predicate IsDir(fs: Fs, p: Path) {
    p in fs && fs[p].Dir?
  }

  /** `os.listdir(p)` returns instead of raising. */
  predicate Listable(fs: Fs, p: Path) {
    IsDir(fs, p) && fs[p].listing.Some?
  }

  /** What `os.listdir(p)` returns. */
  function Entries(fs: Fs, p: Path): seq<string>
    requires Listable(fs, p)
  {
    fs[p].listing.value
  }

  /** What reading `p` yields; nothing for a directory, a missing path or an unreadable file. */
  function ReadBytes(fs: Fs, p: Path): Option<bytes> {
    if p in fs && fs[p].File? then fs[p].content else None
  }

  const FeatDir: Path := ["pages", "_about", "features"]

  /** The per-repository candidate files, in the order they are tried. */
  const Candidates: seq<Path> := [
    ["features", "features.yml"],
    ["features", "features.yaml"],
    ["FEATURES.yml"],
    ["FEATURES.yaml"],
    ["FEATURES.md"],
    ["features.md"]
  ]

  function LastIndexOf(s: string, c: char): (r: Option<nat>)
    ensures r.None? <==> c !in s
    ensures r.Some? ==> r.value < |s| && s[r.value] == c && c !in s[r.value + 1..]
  {
    if s == [] then None
    else if s[|s| - 1] == c then Some(|s| - 1)
    else
      var r := LastIndexOf(s[..|s| - 1], c);
      assert r.Some? ==> s[r.value + 1..] == s[..|s| - 1][r.value + 1..] + [s[|s| - 1]];
      r
  }

  /** `os.path.splitext(f)[1]` for a name without '/': from the last dot on,
      unless only dots precede that dot (`.md` and `..md` have no extension). */
  function Extension(f: string): (e: string)
    ensures e != "" ==> e[0] == '.' && EndsWith(f, e) && '.' !in e[1..]
  {
    match LastIndexOf(f, '.')
    case None => ""
    case Some(d) => if forall i | 0 <= i < d :: f[i] == '.' then "" else f[d..]
  }

  predicate IsMarkdownName(f: string) {
    Extension(f) in {".md", ".markdown"}
  }

  /** Something other than a dot comes before the last `k` characters. */
  predicate HasStem(f: string, k: nat) {
    exists i :: 0 <= i < |f| - k && f[i] != '.'
  }

  /** A listed file is read exactly when its name ends in `.md` or
      `.markdown` and something other than dots comes before that suffix. */
  lemma MarkdownNames(f: string)
    ensures IsMarkdownName(f) <==>
              (EndsWith(f, ".md") && HasStem(f, 3)) || (EndsWith(f, ".markdown") && HasStem(f, 9))
  {
    if EndsWith(f, ".md") {
      SuffixHoldsLastDot(f, ".md");
    } else if EndsWith(f, ".markdown") {
      SuffixHoldsLastDot(f, ".markdown");
    }
    if IsMarkdownName(f) {
      var d := LastIndexOf(f, '.').value;
      assert Extension(f) == f[d..];
    }
  }

  lemma SuffixHoldsLastDot(f: string, ext: string)
    requires EndsWith(f, ext) && ext != [] && ext[0] == '.' && '.' !in ext[1..]
    ensures LastIndexOf(f, '.') == Some(|f| - |ext|)
  {
    var d := |f| - |ext|;
    assert f[d] == ext[0];
    assert f[d + 1..] == ext[1..];
    assert forall k :: d < k < |f| ==> f[k] == f[d + 1..][k - d - 1];
    var r := LastIndexOf(f, '.').value;
    assert forall k :: r < k < |f| ==> f[k] == f[r + 1..][k - r - 1];
  }

  /** What a yaml candidate yields: the library's value, or the fallback
      parser's when that value is `None`. */
  function LoadYamlCandidate(lib: YamlLib, b: bytes): (meta: Value)
    ensures ReadYamlBytes(lib, b) != PyNone ==> meta == ReadYamlBytes(lib, b)
    ensures ReadYamlBytes(lib, b) == PyNone ==> meta == FallbackParser.FallbackParse(Decode(b))
  {
    var meta := ReadYamlBytes(lib, b);
    if meta == PyNone then FallbackParser.FallbackParse(Decode(b)) else meta
  }

  predicate IsMdPath(p: Path) {
    p != [] && EndsWith(p[|p| - 1], ".md")
  }

  // ----- the collected records, as functions of the file system -----

  /** One file listed in `pages/_about/features`; its exceptions are swallowed. */
  function FileRecords(fs: Fs, lib: YamlLib, dir: Path, name: string, f: string): seq<Value> {
    if !IsMarkdownName(f) then []
    else match ReadBytes(fs, dir + [f])
      case None => []
      case Some(b) => Contribute(ParseFrontmatter(lib, b), name).records
  }

  function DirRecords(fs: Fs, lib: YamlLib, dir: Path, name: string, files: seq<string>): seq<Value> {
    if files == [] then []
    else DirRecords(fs, lib, dir, name, files[..|files| - 1]) + FileRecords(fs, lib, dir, name, files[|files| - 1])
  }

  /** One candidate file; its exceptions are swallowed. */
  function CandidateRecords(fs: Fs, lib: YamlLib, repo: Path, name: string, cand: Path): seq<Value> {
    var p := repo + cand;
    if p !in fs then []
    else match ReadBytes(fs, p)
      case None => []
      case Some(b) =>
        if IsMdPath(p) then Contribute(ParseFrontmatter(lib, b), name).records
        else Contribute(LoadYamlCandidate(lib, b), name).records
  }

  function CandidatesRecords(fs: Fs, lib: YamlLib, repo: Path, name: string, cands: seq<Path>): seq<Value> {
    if cands == [] then []
    else CandidatesRecords(fs, lib, repo, name, cands[..|cands| - 1]) + CandidateRecords(fs, lib, repo, name, cands[|cands| - 1])
  }

  /** Everything one repository directory contributes: the Markdown files of
      its features folder first, then every candidate file present. */
  function RepoRecords(fs: Fs, lib: YamlLib, root: Path, name: string): seq<Value> {
    var repo := root + [name];
    var dir := repo + FeatDir;
    (if Listable(fs, dir) then DirRecords(fs, lib, dir, name, Entries(fs, dir)) else [])
      + CandidatesRecords(fs, lib, repo, name, Candidates)
  }

  /** The entries that are scanned: directories whose name does not start with '.'. */
  predicate Visited(fs: Fs, root: Path, name: string) {
    IsDir(fs, root + [name]) && !StartsWith(name, ".")
  }

  function NamesRecords(fs: Fs, lib: YamlLib, root: Path, names: seq<string>): seq<Value> {
    if names == [] then []
    else
      var name := names[|names| - 1];
      NamesRecords(fs, lib, root, names[..|names| - 1]) + (if Visited(fs, root, name) then RepoRecords(fs, lib, root, name) else [])
  }

  /** The features folder of repository `name` exists but cannot be listed.
      That `os.listdir` is outside every `try`, so the whole scan raises. */
  predicate FeatDirFails(fs: Fs, root: Path, name: string) {
    IsDir(fs, root + [name] + FeatDir) && !Listable(fs, root + [name] + FeatDir)
  }

  /** The loop over `names`: it raises when it reaches a visited repository
      whose features folder cannot be listed, and otherwise collects the
      records of every visited repository, in order. */
  function ScanNames(fs: Fs, lib: YamlLib, root: Path, names: seq<string>): Outcome<seq<Value>> {
    if exists k :: 0 <= k < |names| && Visited(fs, root, names[k]) && FeatDirFails(fs, root, names[k]) then Raised
    else Ok(NamesRecords(fs, lib, root, names))
  }

  /** The result of `collect_from_local(root)`: `os.listdir(root)` raises
      unless `root` is a directory that can be listed, and nothing catches that. */
  function LocalRecords(fs: Fs, lib: YamlLib, root: Path): Outcome<seq<Value>> {
    if Listable(fs, root) then ScanNames(fs, lib, root, Sorting.Sort(Entries(fs, root))) else Raised
  }

  // ----- the scan itself -----

  method CollectFromLocal(fs: Fs, lib: YamlLib, root: Path) returns (r: Outcome<seq<Value>>)
    ensures r == LocalRecords(fs, lib, root)
  {
    if !Listable(fs, root) {
      return Raised;
    }
    var names := Sorting.Sort(Entries(fs, root));
    var features: seq<Value> := [];
    for i := 0 to |names|
      invariant features == NamesRecords(fs, lib, root, names[..i])
      invariant forall k :: 0 <= k < i ==> !(Visited(fs, root, names[k]) && FeatDirFails(fs, root, names[k]))
    {
      NamesPrefix(fs, lib, root, names, i);
      var name := names[i];
      var path := root + [name];
      if !IsDir(fs, path) {
        continue;
      }
      if StartsWith(name, ".") {
        continue;
      }
      var raised;
      features, raised := ScanRepo(fs, lib, root, name, features);
      if raised {
        assert Visited(fs, root, names[i]) && FeatDirFails(fs, root, names[i]);
        return Raised;
      }
    }
    assert names[..|names|] == names;
    return Ok(features);
  }

  /** The body of the loop for one visited repository directory. */
  method ScanRepo(fs: Fs, lib: YamlLib, root: Path, name: string, features: seq<Value>) returns (out: seq<Value>, raised: bool)
    ensures raised == FeatDirFails(fs, root, name)
    ensures !raised ==> out == features + RepoRecords(fs, lib, root, name)
  {
    var path := root + [name];
    var featDir := path + FeatDir;
    ghost var dirPart := if Listable(fs, featDir) then DirRecords(fs, lib, featDir, name, Entries(fs, featDir)) else [];
    out, raised := features, false;
    if IsDir(fs, featDir) {
      if fs[featDir].listing.None? {
        return out, true;
      }
      out := ScanFeatureDir(fs, lib, featDir, name, out);
    }
    out := ScanCandidates(fs, lib, path, name, out);
    RepoParts(fs, lib, root, name);
    Assoc(features, dirPart, CandidatesRecords(fs, lib, path, name, Candidates));
  }

  /** The loop over `pages/_about/features` of one repository. */
  method ScanFeatureDir(fs: Fs, lib: YamlLib, featDir: Path, name: string, features: seq<Value>) returns (out: seq<Value>)
    requires Listable(fs, featDir)
    ensures out == features + DirRecords(fs, lib, featDir, name, Entries(fs, featDir))
  {
    out := features;
    var files := fs[featDir].listing.value;
    for j := 0 to |files|
      invariant out == features + DirRecords(fs, lib, featDir, name, files[..j])
    {
      DirPrefix(fs, lib, featDir, name, files, j);
      ghost var prev := out;
      var f := files[j];
      var fp := featDir + [f];
      if Extension(f) in {".md", ".markdown"} {
        var content := ReadBytes(fs, fp);
        if content.Some? {
          var mdMeta := ParseFrontmatter(lib, content.value);
          var raised;
          out, raised := AddFromMeta(out, mdMeta, name);
        }
      }
      assert out == prev + FileRecords(fs, lib, featDir, name, f);
      Assoc(features, DirRecords(fs, lib, featDir, name, files[..j]), FileRecords(fs, lib, featDir, name, f));
    }
    assert files[..|files|] == files;
  }

  /** The loop over the candidate files of one repository. */
  method ScanCandidates(fs: Fs, lib: YamlLib, path: Path, name: string, features: seq<Value>) returns (out: seq<Value>)
    ensures out == features + CandidatesRecords(fs, lib, path, name, Candidates)
  {
    out := features;
    for j := 0 to |Candidates|
      invariant out == features + CandidatesRecords(fs, lib, path, name, Candidates[..j])
    {
      CandidatesPrefix(fs, lib, path, name, Candidates, j);
      ghost var prev := out;
      var candidate := path + Candidates[j];
      if candidate in fs {
        var data := ReadBytes(fs, candidate);
        if data.Some? {
          var raised;
          if IsMdPath(candidate) {
            var meta := ParseFrontmatter(lib, data.value);
            out, raised := AddFromMeta(out, meta, name);
          } else {
            var meta := ReadYamlBytes(lib, data.value);
            if meta == PyNone {
              meta := FallbackParser.SimpleParseYamlLike(Decode(data.value));
            }
            out, raised := AddFromMeta(out, meta, name);
          }
        }
      }
      assert out == prev + CandidateRecords(fs, lib, path, name, Candidates[j]);
      Assoc(features, CandidatesRecords(fs, lib, path, name, Candidates[..j]), CandidateRecords(fs, lib, path, name, Candidates[j]));
    }
    assert Candidates[..|Candidates|] == Candidates;
  }

  lemma Assoc(a: seq<Value>, b: seq<Value>, c: seq<Value>)
    ensures (a + b) + c == a + (b + c)
  {
  }

  lemma RepoParts(fs: Fs, lib: YamlLib, root: Path, name: string)
    ensures RepoRecords(fs, lib, root, name) ==
              (if Listable(fs, root + [name] + FeatDir) then DirRecords(fs, lib, root + [name] + FeatDir, name, Entries(fs, root + [name] + FeatDir)) else [])
              + CandidatesRecords(fs, lib, root + [name], name, Candidates)
  {
  }

  lemma NamesPrefix(fs: Fs, lib: YamlLib, root: Path, names: seq<string>, i: nat)
    requires i < |names|
    ensures NamesRecords(fs, lib, root, names[..i + 1]) ==
              NamesRecords(fs, lib, root, names[..i]) + (if Visited(fs, root, names[i]) then RepoRecords(fs, lib, root, names[i]) else [])
  {
    assert names[..i + 1][..i] == names[..i];
  }

  lemma DirPrefix(fs: Fs, lib: YamlLib, dir: Path, name: string, files: seq<string>, j: nat)
    requires j < |files|
    ensures DirRecords(fs, lib, dir, name, files[..j + 1]) ==
              DirRecords(fs, lib, dir, name, files[..j]) + FileRecords(fs, lib, dir, name, files[j])
  {
    assert files[..j + 1][..j] == files[..j];
  }

  lemma CandidatesPrefix(fs: Fs, lib: YamlLib, repo: Path, name: string, cands: seq<Path>, j: nat)
    requires j < |cands|
    ensures CandidatesRecords(fs, lib, repo, name, cands[..j + 1]) ==
              CandidatesRecords(fs, lib, repo, name, cands[..j]) + CandidateRecords(fs, lib, repo, name, cands[j])
  {
    assert cands[..j + 1][..j] == cands[..j];
  }

  // ----- properties of the scan -----

  predicate TaggedWith(r: Value, name: string) {
    r.PyDict? && Get(r.fields, "repo") == Some(PyStr(name))
  }

  predicate AllTagged(rs: seq<Value>, name: string) {
    forall k :: 0 <= k < |rs| ==> TaggedWith(rs[k], name)
  }

  lemma AllTaggedConcat(a: seq<Value>, b: seq<Value>, name: string)
    requires AllTagged(a, name) && AllTagged(b, name)
    ensures AllTagged(a + b, name)
  {
  }

  lemma {:induction false} DirTagged(fs: Fs, lib: YamlLib, dir: Path, name: string, files: seq<string>)
    ensures AllTagged(DirRecords(fs, lib, dir, name, files), name)
  {
    if files != [] {
      DirTagged(fs, lib, dir, name, files[..|files| - 1]);
      var f := files[|files| - 1];
      match ReadBytes(fs, dir + [f])
      case None =>
      case Some(b) => ContributeTags(ParseFrontmatter(lib, b), name);
      AllTaggedConcat(DirRecords(fs, lib, dir, name, files[..|files| - 1]), FileRecords(fs, lib, dir, name, f), name);
    }
  }

  lemma {:induction false} CandidatesTagged(fs: Fs, lib: YamlLib, repo: Path, name: string, cands: seq<Path>)
    ensures AllTagged(CandidatesRecords(fs, lib, repo, name, cands), name)
  {
    if cands != [] {
      CandidatesTagged(fs, lib, repo, name, cands[..|cands| - 1]);
      var p := repo + cands[|cands| - 1];
      match ReadBytes(fs, p)
      case None =>
      case Some(b) =>
        ContributeTags(ParseFrontmatter(lib, b), name);
        ContributeTags(LoadYamlCandidate(lib, b), name);
      AllTaggedConcat(CandidatesRecords(fs, lib, repo, name, cands[..|cands| - 1]),
                      CandidateRecords(fs, lib, repo, name, cands[|cands| - 1]), name);
    }
  }

  /** Every record collected from a repository carries `repo = name`. */
  lemma RepoTagged(fs: Fs, lib: YamlLib, root: Path, name: string)
    ensures AllTagged(RepoRecords(fs, lib, root, name), name)
  {
    var dir := root + [name] + FeatDir;
    DirTagged(fs, lib, dir, name, if Listable(fs, dir) then Entries(fs, dir) else []);
    CandidatesTagged(fs, lib, root + [name], name, Candidates);
  }

  /** `r` is a dict whose `repo` is one of `names`, a scanned directory. */
  predicate TaggedFrom(fs: Fs, root: Path, names: seq<string>, r: Value) {
    && r.PyDict?
    && Get(r.fields, "repo").Some?
    && Get(r.fields, "repo").value.PyStr?
    && Get(r.fields, "repo").value.s in names
    && Visited(fs, root, Get(r.fields, "repo").value.s)
  }

  /** Every record of the scan is a dict whose `repo` names a scanned
      directory: a listed, non-hidden directory of the root. */
  lemma {:induction false} NamesTagged(fs: Fs, lib: YamlLib, root: Path, names: seq<string>)
    ensures forall k :: 0 <= k < |NamesRecords(fs, lib, root, names)| ==>
              TaggedFrom(fs, root, names, NamesRecords(fs, lib, root, names)[k])
  {
    if names != [] {
      var init := names[..|names| - 1];
      var name := names[|names| - 1];
      NamesTagged(fs, lib, root, init);
      RepoTagged(fs, lib, root, name);
      var a := NamesRecords(fs, lib, root, init);
      var b := if Visited(fs, root, name) then RepoRecords(fs, lib, root, name) else [];
      forall k | 0 <= k < |a + b| ensures TaggedFrom(fs, root, names, (a + b)[k]) {
        if k < |a| {
          assert (a + b)[k] == a[k];
          var n := Get(a[k].fields, "repo").value.s;
          assert n in init;
          assert n in names by {
            var m :| 0 <= m < |init| && init[m] == n;
            assert names[m] == n;
          }
        } else {
          assert (a + b)[k] == b[k - |a|];
          assert name == names[|names| - 1];
        }
      }
    }
  }

  /** Every record `collect_from_local` returns is tagged with the directory it came from. */
  lemma LocalTagged(fs: Fs, lib: YamlLib, root: Path)
    requires LocalRecords(fs, lib, root).Ok?
    ensures forall k :: 0 <= k < |LocalRecords(fs, lib, root).value| ==>
              TaggedFrom(fs, root, Entries(fs, root), LocalRecords(fs, lib, root).value[k])
  {
    var names := Sorting.Sort(Entries(fs, root));
    assert LocalRecords(fs, lib, root).value == NamesRecords(fs, lib, root, names);
    NamesTagged(fs, lib, root, names);
    forall n | n in names ensures n in Entries(fs, root) {
      assert n in multiset(names);
    }
  }

  /** The scan does not depend on the order `os.listdir` lists the root in. */
  lemma ListingOrderIrrelevant(fs: Fs, lib: YamlLib, root: Path, entries: seq<string>)
    requires Listable(fs, root) && multiset(entries) == multiset(Entries(fs, root))
    ensures LocalRecords(fs, lib, root) == ScanNames(fs, lib, root, Sorting.Sort(entries))
  {
    Sorting.SortedUnique(Sorting.Sort(entries), Sorting.Sort(Entries(fs, root)));
  }

  /** A visited repository whose features folder cannot be listed aborts the
      whole scan: records of the other repositories are lost too. */
  lemma UnlistableFeatureDirAborts(fs: Fs, lib: YamlLib, root: Path, name: string)
    requires Listable(fs, root) && name in Entries(fs, root)
    requires Visited(fs, root, name) && FeatDirFails(fs, root, name)
    ensures LocalRecords(fs, lib, root) == Raised
  {
    var names := Sorting.Sort(Entries(fs, root));
    assert name in multiset(Entries(fs, root));
    assert name in names by {
      assert name in multiset(names);
    }
    var k :| 0 <= k < |names| && names[k] == name;
    assert Visited(fs, root, names[k]) && FeatDirFails(fs, root, names[k]);
  }

  /** A yaml candidate the library cannot read yields the fallback parser's
      items, one record per dash line, and the scan goes on. */
  lemma YamlCandidateFallback(fs: Fs, lib: YamlLib, repo: Path, name: string, cand: Path, b: bytes)
    requires repo + cand in fs && ReadBytes(fs, repo + cand) == Some(b)
    requires !IsMdPath(repo + cand)
    requires ReadYamlBytes(lib, b) == PyNone
    ensures |CandidateRecords(fs, lib, repo, name, cand)| == FallbackParser.DashLines(SplitLines(Decode(b)))
    ensures AllTagged(CandidateRecords(fs, lib, repo, name, cand), name)
  {
    ContributeFallback(Decode(b), name);
    ContributeTags(LoadYamlCandidate(lib, b), name);
  }

  /** Without the library every yaml candidate goes to the fallback parser. */
  lemma MissingLibraryUsesFallback(b: bytes)
    ensures LoadYamlCandidate(Missing, b) == FallbackParser.FallbackParse(Decode(b))
  {
  }
}
