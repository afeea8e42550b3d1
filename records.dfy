/** What both collectors of scripts/generate_features_index.py do with a
    parsed metadata value: test `meta and 'features' in meta`, walk
    `meta['features']`, set `item['repo']` on each item and append it. */
module Records {
  import opened Wrappers
  import opened PyText
  import opened PyValue
  import FallbackParser

  /** `meta and 'features' in meta`; the `in` raises on a truthy bool or int. */
  function HasFeatures(meta: Value): (r: Outcome<bool>)
    ensures !Truthy(meta) ==> r == Ok(false)
    ensures meta.PyDict? ==> r == Ok(HasKey(meta.fields, "features"))
    ensures r.Raised? <==> Truthy(meta) && (meta.PyBool? || meta.PyInt?)
  {
    if !Truthy(meta) then Ok(false) else Contains(meta, "features")
  }

  /** An item after `item['repo'] = name`. */
  function Tag(item: Fields, name: string): (r: Value)
    ensures r.PyDict? && Get(r.fields, "repo") == Some(PyStr(name))
  {
    PutGet(item, "repo", PyStr(name));
    PyDict(Put(item, "repo", PyStr(name)))
  }

  /** Tagging changes no other key of the item. */
  lemma TagKeepsOthers(item: Fields, name: string, k: string)
    requires k != "repo"
    ensures Get(Tag(item, name).fields, k) == Get(item, k)
  {
    PutOther(item, "repo", PyStr(name), k);
  }

  /** The records appended by one `for item in ...` loop, and whether it
      stopped on an exception. */
  datatype Tagged = Tagged(records: seq<Value>, raised: bool)

  /** The loop over `items`, one item at a time: a dict is tagged and
      appended; anything else makes the assignment raise and ends the loop. */
  function TagItems(items: seq<Value>, name: string): Tagged {
    if items == [] then Tagged([], false)
    else
      var t := TagItems(items[..|items| - 1], name);
      var last := items[|items| - 1];
      if t.raised then t
      else if last.PyDict? then Tagged(t.records + [Tag(last.fields, name)], false)
      else Tagged(t.records, true)
  }

  /** The loop appends, in order, the tagged dicts of a prefix of `items`. */
  lemma {:induction false} TagItemsRecords(items: seq<Value>, name: string)
    ensures var r := TagItems(items, name);
            && |r.records| <= |items|
            && forall k :: 0 <= k < |r.records| ==> items[k].PyDict? && r.records[k] == Tag(items[k].fields, name)
    decreases |items|
  {
    if items != [] {
      var init := items[..|items| - 1];
      TagItemsRecords(init, name);
      TagItemsRaises(init, name);
      var t, r := TagItems(init, name), TagItems(items, name);
      forall k | 0 <= k < |r.records| ensures items[k].PyDict? && r.records[k] == Tag(items[k].fields, name) {
        if k < |t.records| {
          assert r.records[k] == t.records[k] && init[k] == items[k];
        } else {
          assert !t.raised && |t.records| == |init|;
          assert r.records == t.records + [Tag(items[|items| - 1].fields, name)];
        }
      }
    }
  }

  /** When it raises, the loop stops at the first item that is not a dict. */
  lemma {:induction false} TagItemsStops(items: seq<Value>, name: string)
    ensures var r := TagItems(items, name);
            r.raised ==> |r.records| < |items| && !items[|r.records|].PyDict?
    decreases |items|
  {
    if items != [] {
      var init := items[..|items| - 1];
      TagItemsStops(init, name);
      TagItemsRaises(init, name);
      var t := TagItems(init, name);
      if t.raised {
        assert init[|t.records|] == items[|t.records|];
      }
    }
  }

  /** The loop raises exactly when some item is not a dict; otherwise every
      item is appended. */
  lemma {:induction false} TagItemsRaises(items: seq<Value>, name: string)
    ensures var r := TagItems(items, name);
            && (!r.raised <==> forall k :: 0 <= k < |items| ==> items[k].PyDict?)
            && (!r.raised ==> |r.records| == |items|)
    decreases |items|
  {
    if items != [] {
      var init := items[..|items| - 1];
      TagItemsRaises(init, name);
      var t, r := TagItems(init, name), TagItems(items, name);
      var last := items[|items| - 1];
      if t.raised {
        assert r == t;
        var j :| 0 <= j < |init| && !init[j].PyDict?;
        assert !items[j].PyDict?;
      } else if last.PyDict? {
        assert r == Tagged(t.records + [Tag(last.fields, name)], false);
        forall k | 0 <= k < |items| ensures items[k].PyDict? {
          if k < |init| {
            assert items[k] == init[k];
          }
        }
      } else {
        assert r == Tagged(t.records, true);
      }
    }
  }

  /** The whole `if meta and 'features' in meta: for item in meta['features']: ...`. */
  function Contribute(meta: Value, name: string): (r: Tagged)
    ensures HasFeatures(meta) == Ok(false) ==> r == Tagged([], false)
    ensures HasFeatures(meta).Raised? ==> r == Tagged([], true)
  {
    match HasFeatures(meta)
    case Raised => Tagged([], true)
    case Ok(false) => Tagged([], false)
    case Ok(true) =>
      match Subscript(meta, "features")
      case Raised => Tagged([], true)
      case Ok(v) =>
        match Iterate(v)
        case Raised => Tagged([], true)
        case Ok(items) => TagItems(items, name)
  }

  /** Every appended record is a dict whose `repo` is the repository's name. */
  lemma ContributeTags(meta: Value, name: string)
    ensures forall k :: 0 <= k < |Contribute(meta, name).records| ==>
              Contribute(meta, name).records[k].PyDict? &&
              Get(Contribute(meta, name).records[k].fields, "repo") == Some(PyStr(name))
  {
    if HasFeatures(meta) == Ok(true) && Subscript(meta, "features").Ok? {
      var v := Subscript(meta, "features").value;
      if Iterate(v).Ok? {
        TagItemsRecords(Iterate(v).value, name);
      }
    }
  }

  /** On metadata with a `features` list of dicts, every item is tagged and
      appended in order and nothing raises. */
  lemma ContributeDictList(fields: Fields, items: seq<Fields>, name: string)
    requires Get(fields, "features") == Some(PyList(FallbackParser.AsDicts(items)))
    ensures Contribute(PyDict(fields), name) ==
              Tagged(seq(|items|, k requires 0 <= k < |items| => Tag(items[k], name)), false)
  {
    var t := Contribute(PyDict(fields), name);
    var dicts := FallbackParser.AsDicts(items);
    TagItemsRecords(dicts, name);
    TagItemsRaises(dicts, name);
    assert HasKey(fields, "features");
    assert |t.records| == |items|;
  }

  /** The fallback parser's output never makes tagging raise. */
  lemma ContributeFallback(raw: string, name: string)
    ensures !Contribute(FallbackParser.FallbackParse(raw), name).raised
    ensures |Contribute(FallbackParser.FallbackParse(raw), name).records| ==
              FallbackParser.DashLines(SplitLines(raw))
  {
    FallbackParser.FallbackShape(raw);
    var items := FallbackParser.Run(FallbackParser.Init, SplitLines(raw)).items;
    ContributeDictList([("features", PyList(FallbackParser.AsDicts(items)))], items, name);
  }

  /** The `for item in ...` loop itself. */
  method AppendTagged(features: seq<Value>, items: seq<Value>, name: string) returns (out: seq<Value>, raised: bool)
    ensures out == features + TagItems(items, name).records
    ensures raised == TagItems(items, name).raised
  {
    out := features;
    raised := false;
    var n := 0;
    while n < |items|
      invariant n <= |items|
      invariant !TagItems(items[..n], name).raised
      invariant out == features + TagItems(items[..n], name).records
    {
      TagItemsSnoc(items, n, name);
      if !items[n].PyDict? {
        raised := true;
        TagItemsPrefix(items, n + 1, name);
        return;
      }
      out := out + [Tag(items[n].fields, name)];
      n := n + 1;
    }
    TagItemsWhole(items, n, name);
  }

  /** One more item: tagged and appended when it is a dict, else the loop raises. */
  lemma TagItemsSnoc(items: seq<Value>, n: nat, name: string)
    requires n < |items|
    ensures var t := TagItems(items[..n], name);
            TagItems(items[..n + 1], name) ==
              if t.raised then t
              else if items[n].PyDict? then Tagged(t.records + [Tag(items[n].fields, name)], false)
              else Tagged(t.records, true)
  {
    assert items[..n + 1][..n] == items[..n];
  }

  lemma TagItemsWhole(items: seq<Value>, n: nat, name: string)
    requires n == |items|
    ensures TagItems(items[..n], name) == TagItems(items, name)
  {
    assert items[..n] == items;
  }

  /** Once the loop has raised, the remaining items are not visited. */
  lemma {:induction false} TagItemsPrefix(items: seq<Value>, n: nat, name: string)
    requires n <= |items|
    requires TagItems(items[..n], name).raised
    ensures TagItems(items, name) == TagItems(items[..n], name)
    decreases |items| - n
  {
    if n < |items| {
      assert items[..n + 1][..n] == items[..n];
      TagItemsPrefix(items, n + 1, name);
    } else {
      assert items[..n] == items;
    }
  }

  /** `if meta and 'features' in meta:` followed by the tagging loop. */
  method AddFromMeta(features: seq<Value>, meta: Value, name: string) returns (out: seq<Value>, raised: bool)
    ensures out == features + Contribute(meta, name).records
    ensures raised == Contribute(meta, name).raised
  {
    out, raised := features, false;
    var has := HasFeatures(meta);
    if has.Raised? {
      raised := true;
      return;
    }
    if !has.value {
      return;
    }
    var list := Subscript(meta, "features");
    if list.Raised? {
      raised := true;
      return;
    }
    var items := Iterate(list.value);
    if items.Raised? {
      raised := true;
      return;
    }
    out, raised := AppendTagged(features, items.value, name);
  }
}
