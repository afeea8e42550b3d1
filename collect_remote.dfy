/** `collect_from_github` of scripts/generate_features_index.py: fetch each
    repository's metadata file through the GitHub contents API. */
module RemoteCollector {
  import opened Wrappers
  import opened PyText
  import opened PyValue
  import opened Utf8
  import opened FrontMatter
  import opened Records

  /** `fetch_github_file(owner, repo, path, token)` for the run's owner and
      token: the file's bytes, or `None` when the request fails. */
  type Fetch = (string, string) -> Option<bytes>

  /** The paths tried in each repository, in order. */
  const CandidatePaths: seq<string> := [
    "features/features.yml",
    "features/features.yaml",
    "FEATURES.yml",
    "FEATURES.yaml",
    "FEATURES.md",
    "features.md",
    "pages/_about/features/index.md"
  ]

  /** `not data`: a failed fetch or an empty file. */
  predicate NoData(data: Option<bytes>) {
    data.None? || data.value == []
  }

  /** The metadata of a fetched file: front matter for `.md` paths, the
      YAML library otherwise, with no fallback parser. */
  function MetaOf(lib: YamlLib, path: string, b: bytes): Value {
    if EndsWith(path, ".md") then ParseFrontmatter(lib, b) else ReadYamlBytes(lib, b)
  }

  /** The candidate loop for one repository from `paths` on: the first file
      whose metadata has `features` is used and the loop breaks. An
      exception escapes `collect_from_github`. */
  function Probe(fetch: Fetch, lib: YamlLib, repo: string, paths: seq<string>): (r: Outcome<seq<Value>>)
    decreases |paths|
  {
    if paths == [] then Ok([])
    else
      var data := fetch(repo, paths[0]);
      if NoData(data) then Probe(fetch, lib, repo, paths[1..])
      else
        var meta := MetaOf(lib, paths[0], data.value);
        match HasFeatures(meta)
        case Raised => Raised
        case Ok(false) => Probe(fetch, lib, repo, paths[1..])
        case Ok(true) =>
          var t := Contribute(meta, repo);
          if t.raised then Raised else Ok(t.records)
  }

  /** The repository loop over `repos`, in order. */
  function ReposRecords(fetch: Fetch, lib: YamlLib, repos: seq<string>): Outcome<seq<Value>> {
    if repos == [] then Ok([])
    else
      match ReposRecords(fetch, lib, repos[..|repos| - 1])
      case Raised => Raised
      case Ok(a) =>
        match Probe(fetch, lib, repos[|repos| - 1], CandidatePaths)
        case Raised => Raised
        case Ok(b) => Ok(a + b)
  }

  /** The result of `collect_from_github`: the given repositories, or the
      owner's listing (`None`: the listing request or its decoding failed,
      and the result is empty). */
  function RemoteRecords(fetch: Fetch, lib: YamlLib, listing: Option<seq<string>>, repos: Option<seq<string>>): Outcome<seq<Value>> {
    var names := if repos.Some? then repos else listing;
    match names
    case None => Ok([])
    case Some(rs) => ReposRecords(fetch, lib, rs)
  }

  method CollectFromGithub(fetch: Fetch, lib: YamlLib, listing: Option<seq<string>>, repos: Option<seq<string>>)
    returns (r: Outcome<seq<Value>>)
    ensures r == RemoteRecords(fetch, lib, listing, repos)
  {
    var features: seq<Value> := [];
    var names: seq<string>;
    if repos.None? {
      if listing.None? {
        return Ok(features);
      }
      names := listing.value;
    } else {
      names := repos.value;
    }
    assert RemoteRecords(fetch, lib, listing, repos) == ReposRecords(fetch, lib, names);
    for i := 0 to |names|
      invariant ReposRecords(fetch, lib, names[..i]) == Ok(features)
    {
      ReposPrefix(fetch, lib, names, i);
      var r := ProbeRepo(fetch, lib, names[i], features);
      if r.Raised? {
        ReposRaised(fetch, lib, names, i + 1);
        return Raised;
      }
      features := r.value;
    }
    assert names[..|names|] == names;
    return Ok(features);
  }

  /** The loop over the candidate paths of one repository, appending to
      `features` the items of the first file that has `features`. */
  method ProbeRepo(fetch: Fetch, lib: YamlLib, repo: string, features: seq<Value>) returns (r: Outcome<seq<Value>>)
    ensures Probe(fetch, lib, repo, CandidatePaths).Raised? ==> r == Raised
    ensures Probe(fetch, lib, repo, CandidatePaths).Ok? ==> r == Ok(features + Probe(fetch, lib, repo, CandidatePaths).value)
  {
    var out := features;
    var j := 0;
    while j < |CandidatePaths|
      invariant j <= |CandidatePaths|
      invariant out == features
      invariant Probe(fetch, lib, repo, CandidatePaths) == Probe(fetch, lib, repo, CandidatePaths[j..])
    {
      var path := CandidatePaths[j];
      var data := fetch(repo, path);
      if NoData(data) {
        ProbeSkip(fetch, lib, repo, CandidatePaths, j);
        j := j + 1;
        continue;
      }
      var meta: Value;
      if EndsWith(path, ".md") {
        meta := ParseFrontmatter(lib, data.value);
      } else {
        meta := ReadYamlBytes(lib, data.value);
      }
      assert meta == MetaOf(lib, path, data.value);
      var has := HasFeatures(meta);
      if has.Raised? {
        ProbeRaises(fetch, lib, repo, CandidatePaths, j);
        return Raised;
      }
      if has.value {
        ProbeHit(fetch, lib, repo, CandidatePaths, j);
        var raised;
        out, raised := AddFromMeta(out, meta, repo);
        if raised {
          return Raised;
        }
        return Ok(out);
      }
      ProbeSkip(fetch, lib, repo, CandidatePaths, j);
      j := j + 1;
    }
    assert CandidatePaths[j..] == [];
    assert out + [] == out;
    return Ok(out);
  }

  lemma ReposPrefix(fetch: Fetch, lib: YamlLib, names: seq<string>, i: nat)
    requires i < |names|
    ensures ReposRecords(fetch, lib, names[..i + 1]) ==
              match ReposRecords(fetch, lib, names[..i])
              case Raised => Raised
              case Ok(a) =>
                match Probe(fetch, lib, names[i], CandidatePaths)
                case Raised => Raised
                case Ok(b) => Ok(a + b)
  {
    assert names[..i + 1][..i] == names[..i];
  }

  /** Once a repository raises, the whole collection has raised. */
  lemma {:induction false} ReposRaised(fetch: Fetch, lib: YamlLib, names: seq<string>, i: nat)
    requires i <= |names|
    requires ReposRecords(fetch, lib, names[..i]).Raised?
    ensures ReposRecords(fetch, lib, names).Raised?
    decreases |names| - i
  {
    if i < |names| {
      ReposPrefix(fetch, lib, names, i);
      ReposRaised(fetch, lib, names, i + 1);
    } else {
      assert names[..i] == names;
    }
  }

  lemma ProbeSkip(fetch: Fetch, lib: YamlLib, repo: string, paths: seq<string>, j: nat)
    requires j < |paths|
    requires NoData(fetch(repo, paths[j])) || HasFeatures(MetaOf(lib, paths[j], fetch(repo, paths[j]).value)) == Ok(false)
    ensures Probe(fetch, lib, repo, paths[j..]) == Probe(fetch, lib, repo, paths[j + 1..])
  {
    assert paths[j..][1..] == paths[j + 1..];
  }

  lemma ProbeRaises(fetch: Fetch, lib: YamlLib, repo: string, paths: seq<string>, j: nat)
    requires j < |paths|
    requires !NoData(fetch(repo, paths[j])) && HasFeatures(MetaOf(lib, paths[j], fetch(repo, paths[j]).value)).Raised?
    ensures Probe(fetch, lib, repo, paths[j..]) == Raised
  {
  }

  lemma ProbeHit(fetch: Fetch, lib: YamlLib, repo: string, paths: seq<string>, j: nat)
    requires j < |paths| && Hit(fetch, lib, repo, paths[j])
    ensures var t := Contribute(MetaOf(lib, paths[j], fetch(repo, paths[j]).value), repo);
            Probe(fetch, lib, repo, paths[j..]) == if t.raised then Raised else Ok(t.records)
  {
  }

  // ----- properties of the remote collector -----

  /** Without the YAML library nothing is found: there is no fallback. */
  lemma {:induction false} ProbeWithoutLibrary(fetch: Fetch, repo: string, paths: seq<string>)
    ensures Probe(fetch, Missing, repo, paths) == Ok([])
    decreases |paths|
  {
    if paths != [] {
      ProbeWithoutLibrary(fetch, repo, paths[1..]);
    }
  }

  lemma {:induction false} ReposWithoutLibrary(fetch: Fetch, repos: seq<string>)
    ensures ReposRecords(fetch, Missing, repos) == Ok([])
  {
    if repos != [] {
      ReposWithoutLibrary(fetch, repos[..|repos| - 1]);
      ProbeWithoutLibrary(fetch, repos[|repos| - 1], CandidatePaths);
      var empty: seq<Value> := [];
      assert empty + empty == empty;
    }
  }

  lemma RemoteWithoutLibrary(fetch: Fetch, listing: Option<seq<string>>, repos: Option<seq<string>>)
    ensures RemoteRecords(fetch, Missing, listing, repos) == Ok([])
  {
    match (if repos.Some? then repos else listing)
    case None =>
    case Some(rs) => ReposWithoutLibrary(fetch, rs);
  }

  /** A path "hits" when its file is non-empty and its metadata has `features`. */
  predicate Hit(fetch: Fetch, lib: YamlLib, repo: string, path: string) {
    var data := fetch(repo, path);
    !NoData(data) && HasFeatures(MetaOf(lib, path, data.value)) == Ok(true)
  }

  /** Paths after the first hit are never looked at. */
  lemma {:induction false} ProbeStopsAtFirstHit(fetch: Fetch, lib: YamlLib, repo: string, paths: seq<string>, j: nat)
    requires j < |paths| && Hit(fetch, lib, repo, paths[j])
    ensures Probe(fetch, lib, repo, paths) == Probe(fetch, lib, repo, paths[..j + 1])
    decreases j
  {
    var pre := paths[..j + 1];
    assert pre[0] == paths[0];
    if j > 0 {
      assert pre[1..] == paths[1..][..j];
      ProbeStopsAtFirstHit(fetch, lib, repo, paths[1..], j - 1);
    }
  }

  /** A hit whose items are all dicts contributes them, tagged, and nothing else. */
  lemma HitContributes(fetch: Fetch, lib: YamlLib, repo: string, paths: seq<string>)
    requires paths != [] && Hit(fetch, lib, repo, paths[0])
    requires !Contribute(MetaOf(lib, paths[0], fetch(repo, paths[0]).value), repo).raised
    ensures Probe(fetch, lib, repo, paths) == Ok(Contribute(MetaOf(lib, paths[0], fetch(repo, paths[0]).value), repo).records)
  {
  }

  /** Unlike the local scan, a non-dict item in the used file aborts the whole collection. */
  lemma NonDictItemRaises(fetch: Fetch, lib: YamlLib, repo: string, paths: seq<string>)
    requires paths != [] && Hit(fetch, lib, repo, paths[0])
    requires Contribute(MetaOf(lib, paths[0], fetch(repo, paths[0]).value), repo).raised
    ensures Probe(fetch, lib, repo, paths) == Raised
  {
  }

  /** A failed listing yields an empty result. */
  lemma ListingFailure(fetch: Fetch, lib: YamlLib)
    ensures RemoteRecords(fetch, lib, None, None) == Ok([])
  {
  }

  lemma {:induction false} ProbeTagged(fetch: Fetch, lib: YamlLib, repo: string, paths: seq<string>)
    ensures Probe(fetch, lib, repo, paths).Ok? ==>
              forall k :: 0 <= k < |Probe(fetch, lib, repo, paths).value| ==>
                Probe(fetch, lib, repo, paths).value[k].PyDict? &&
                Get(Probe(fetch, lib, repo, paths).value[k].fields, "repo") == Some(PyStr(repo))
    decreases |paths|
  {
    if paths != [] {
      ProbeTagged(fetch, lib, repo, paths[1..]);
      var data := fetch(repo, paths[0]);
      if !NoData(data) {
        ContributeTags(MetaOf(lib, paths[0], data.value), repo);
      }
    }
  }

  /** `r` is a dict whose `repo` is one of `repos`. */
  predicate TaggedIn(r: Value, repos: seq<string>) {
    r.PyDict? && exists n :: n in repos && Get(r.fields, "repo") == Some(PyStr(n))
  }

  /** Every record of the collection is a dict whose `repo` is one of the repositories. */
  lemma {:induction false} ReposTagged(fetch: Fetch, lib: YamlLib, repos: seq<string>)
    ensures ReposRecords(fetch, lib, repos).Ok? ==>
              forall k :: 0 <= k < |ReposRecords(fetch, lib, repos).value| ==>
                TaggedIn(ReposRecords(fetch, lib, repos).value[k], repos)
  {
    if repos != [] && ReposRecords(fetch, lib, repos).Ok? {
      var init := repos[..|repos| - 1];
      var last := repos[|repos| - 1];
      ReposTagged(fetch, lib, init);
      ProbeTagged(fetch, lib, last, CandidatePaths);
      var a := ReposRecords(fetch, lib, init).value;
      var b := Probe(fetch, lib, last, CandidatePaths).value;
      assert ReposRecords(fetch, lib, repos).value == a + b;
      forall k | 0 <= k < |a + b| ensures TaggedIn((a + b)[k], repos) {
        if k < |a| {
          assert (a + b)[k] == a[k];
          var n :| n in init && Get(a[k].fields, "repo") == Some(PyStr(n));
          var m :| 0 <= m < |init| && init[m] == n;
          assert repos[m] == n;
        } else {
          assert (a + b)[k] == b[k - |a|];
          assert last in repos;
        }
      }
    }
  }

  /** Every record `collect_from_github` returns is a dict tagged with one of the repositories
      it probed: the given ones, or else the listed ones. */
  lemma RemoteTagged(fetch: Fetch, lib: YamlLib, listing: Option<seq<string>>, repos: Option<seq<string>>)
    requires RemoteRecords(fetch, lib, listing, repos).Ok?
    ensures var names := if repos.Some? then repos else listing;
            forall k :: 0 <= k < |RemoteRecords(fetch, lib, listing, repos).value| ==>
              names.Some? && TaggedIn(RemoteRecords(fetch, lib, listing, repos).value[k], names.value)
  {
    match (if repos.Some? then repos else listing)
    case None =>
    case Some(rs) => ReposTagged(fetch, lib, rs);
  }
}
