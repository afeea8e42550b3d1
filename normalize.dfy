/** The normalisation loop of `main` in scripts/generate_features_index.py:
    a bare string becomes a dict with that title, anything else is kept. */
module Normalizer {
  import opened PyValue
  import LocalCollector
  import RemoteCollector
  import FrontMatter
  import opened Wrappers

  /** The dict a bare string `s` stands for. */
  function FromTitle(s: string): (r: Value)
    ensures r.PyDict? && Keys(r.fields) == ["title", "description", "implemented"]
    ensures Get(r.fields, "title") == Some(PyStr(s))
    ensures Get(r.fields, "implemented") == Some(PyBool(false))
  {
    var r := PyDict([("title", PyStr(s)), ("description", PyStr("")), ("implemented", PyBool(false))]);
    assert Keys(r.fields) == ["title"] + Keys(r.fields[1..]);
    r
  }

  /** One step of the loop: `isinstance(f, str)` picks the branch. */
  function NormalizeOne(f: Value): Value {
    if f.PyStr? then FromTitle(f.s) else f
  }

  /** The `normalized` list: one entry per input, in order. */
  function NormalizeAll(fs: seq<Value>): (r: seq<Value>)
    ensures |r| == |fs|
    ensures forall k :: 0 <= k < |fs| ==> r[k] == NormalizeOne(fs[k])
  {
    if fs == [] then [] else NormalizeAll(fs[..|fs| - 1]) + [NormalizeOne(fs[|fs| - 1])]
  }

  method Normalize(features: seq<Value>) returns (normalized: seq<Value>)
    ensures normalized == NormalizeAll(features)
  {
    normalized := [];
    for i := 0 to |features|
      invariant normalized == NormalizeAll(features[..i])
    {
      assert features[..i + 1][..i] == features[..i];
      var f := features[i];
      if f.PyStr? {
        normalized := normalized + [FromTitle(f.s)];
      } else {
        normalized := normalized + [f];
      }
    }
    assert features[..|features|] == features;
  }

  /** No entry of the result is a string, so a second pass changes nothing. */
  lemma NormalizeIdempotent(fs: seq<Value>)
    ensures forall k :: 0 <= k < |NormalizeAll(fs)| ==> !NormalizeAll(fs)[k].PyStr?
    ensures NormalizeAll(NormalizeAll(fs)) == NormalizeAll(fs)
  {
  }

  /** Without bare strings the loop is the identity. */
  lemma NormalizeWithoutStrings(fs: seq<Value>)
    requires forall k :: 0 <= k < |fs| ==> !fs[k].PyStr?
    ensures NormalizeAll(fs) == fs
  {
  }

  /** Exactly the string entries change, each into a dict titled with it. */
  lemma NormalizeChanges(fs: seq<Value>, k: nat)
    requires k < |fs|
    ensures NormalizeAll(fs)[k] != fs[k] <==> fs[k].PyStr?
    ensures fs[k].PyStr? ==> Get(NormalizeAll(fs)[k].fields, "title") == Some(fs[k])
  {
  }

  /** The collectors only ever return dicts, so on their output the
      normalisation changes nothing. */
  lemma LocalOutputUnchanged(fs: LocalCollector.Fs, lib: FrontMatter.YamlLib, root: LocalCollector.Path)
    requires LocalCollector.LocalRecords(fs, lib, root).Ok?
    ensures NormalizeAll(LocalCollector.LocalRecords(fs, lib, root).value) == LocalCollector.LocalRecords(fs, lib, root).value
  {
    LocalCollector.LocalTagged(fs, lib, root);
    NormalizeWithoutStrings(LocalCollector.LocalRecords(fs, lib, root).value);
  }

  lemma RemoteOutputUnchanged(fetch: RemoteCollector.Fetch, lib: FrontMatter.YamlLib,
                              listing: Option<seq<string>>, repos: Option<seq<string>>)
    requires RemoteCollector.RemoteRecords(fetch, lib, listing, repos).Ok?
    ensures NormalizeAll(RemoteCollector.RemoteRecords(fetch, lib, listing, repos).value) ==
              RemoteCollector.RemoteRecords(fetch, lib, listing, repos).value
  {
    RemoteCollector.RemoteTagged(fetch, lib, listing, repos);
    NormalizeWithoutStrings(RemoteCollector.RemoteRecords(fetch, lib, listing, repos).value);
  }
}
