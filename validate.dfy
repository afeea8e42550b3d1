/** scripts/validate_features.py: load a features file with the YAML
    library, falling back to the line parser, and accept it when every
    item has an `id` and a `title`. Exit code 0 means valid, 1 invalid or
    missing. */
module Validator {
  import opened Wrappers
  import opened PyValue
  import opened PyText
  import opened Utf8
  import opened FrontMatter
  import FallbackParser

  /** What the file system offers at the path: nothing, a file that
      cannot be opened, or its bytes. */
  datatype FileState = Absent | Unreadable | Present(content: bytes)

  /** `load_yaml` on the bytes of the file: the library's value when the
      library is there and does not raise, even when that value is `None`;
      otherwise the line parser on the decoded text. */
  function LoadYaml(lib: YamlLib, data: bytes): (r: Value)
    ensures lib.Available? && lib.safeLoad(data).Parsed? ==> r == lib.safeLoad(data).v
    ensures (lib.Missing? || lib.safeLoad(data).ParseError?) ==> r == FallbackParser.FallbackParse(Decode(data))
  {
    if lib.Available? && lib.safeLoad(data).Parsed? then lib.safeLoad(data).v
    else FallbackParser.FallbackParse(Decode(data))
  }

  /** The item loop: 1 at the first item lacking `id` or `title`, 0 when
      there is none; `in` raises on an item that is no container. */
  function CheckItems(items: seq<Value>): (r: Outcome<int>)
    ensures r == Ok(0) <==> forall k :: 0 <= k < |items| ==> HasIdAndTitle(items[k])
    ensures r.Ok? ==> r.value == 0 || r.value == 1
  {
    if items == [] then Ok(0)
    else
      var rest := CheckItems(items[1..]);
      assert forall k :: 0 <= k < |items[1..]| ==> items[1..][k] == items[k + 1];
      match Contains(items[0], "id")
      case Raised => Raised
      case Ok(false) => Ok(1)
      case Ok(true) =>
        match Contains(items[0], "title")
        case Raised => Raised
        case Ok(false) => Ok(1)
        case Ok(true) => rest
  }

  /** `'id' in item and 'title' in item` evaluates to true. */
  predicate HasIdAndTitle(item: Value) {
    Contains(item, "id") == Ok(true) && Contains(item, "title") == Ok(true)
  }

  /** Item `k` is the first to fail the test, and it fails without raising. */
  predicate FailsAt(items: seq<Value>, k: nat)
    requires k < |items|
  {
    && (forall j :: 0 <= j < k ==> HasIdAndTitle(items[j]))
    && (Contains(items[k], "id") == Ok(false) ||
        (Contains(items[k], "id") == Ok(true) && Contains(items[k], "title") == Ok(false)))
  }

  /** Everything `validate` does after loading the metadata `meta`. */
  function CheckMeta(meta: Value): (r: Outcome<int>)
    ensures !Truthy(meta) ==> r == Ok(1)
    ensures meta.PyDict? && !HasKey(meta.fields, "features") ==> r == Ok(1)
    ensures meta.PyDict? && Get(meta.fields, "features") == Some(PyList([])) ==> r == Ok(0)
  {
    if !Truthy(meta) then Ok(1)
    else
      match Contains(meta, "features")
      case Raised => Raised
      case Ok(false) => Ok(1)
      case Ok(true) =>
        match Subscript(meta, "features")
        case Raised => Raised
        case Ok(list) =>
          match Iterate(list)
          case Raised => Raised
          case Ok(items) => CheckItems(items)
  }

  /** The loop stops with 1 exactly when some item fails the test, quietly,
      after every item before it passed. */
  lemma {:induction false} FirstFailure(items: seq<Value>)
    ensures CheckItems(items) == Ok(1) <==> exists k :: 0 <= k < |items| && FailsAt(items, k)
  {
    if items != [] {
      FirstFailure(items[1..]);
      var rest := items[1..];
      if CheckItems(items) == Ok(1) {
        if Contains(items[0], "id") == Ok(true) && Contains(items[0], "title") == Ok(true) {
          var k :| 0 <= k < |rest| && FailsAt(rest, k);
          assert forall j :: 0 <= j < k ==> rest[j] == items[j + 1];
          assert FailsAt(items, k + 1);
        } else {
          assert FailsAt(items, 0);
        }
      }
      if exists k :: 0 <= k < |items| && FailsAt(items, k) {
        var k :| 0 <= k < |items| && FailsAt(items, k);
        if k > 0 {
          assert HasIdAndTitle(items[0]);
          assert forall j :: 0 <= j < k - 1 ==> rest[j] == items[j + 1];
          assert FailsAt(rest, k - 1);
        }
      }
    }
  }

  /** `validate(path)`: the exit code, or an exception out of `open`. */
  function Validate(file: FileState, lib: YamlLib): (r: Outcome<int>)
    ensures file.Absent? ==> r == Ok(1)
    ensures file.Unreadable? ==> r == Raised
    ensures file.Present? ==> r == CheckMeta(LoadYaml(lib, file.content))
  {
    match file
    case Absent => Ok(1)
    case Unreadable => Raised
    case Present(data) => CheckMeta(LoadYaml(lib, data))
  }

  /** A value of `None` from the library is kept, so the file is rejected
      without trying the line parser. */
  lemma LibraryNoneRejected(lib: YamlLib, data: bytes)
    requires lib.Available? && lib.safeLoad(data) == Parsed(PyNone)
    ensures Validate(Present(data), lib) == Ok(1)
  {
  }

  /** The exit code is 0 or 1 whenever `validate` returns. */
  lemma ExitCodes(file: FileState, lib: YamlLib)
    ensures Validate(file, lib).Ok? ==> Validate(file, lib).value in {0, 1}
  {
  }

  /** After the `features` lookup succeeds, the verdict is the item loop's. */
  lemma MetaWithList(meta: Value, items: seq<Value>)
    requires Truthy(meta) && Contains(meta, "features") == Ok(true)
    requires Subscript(meta, "features") == Ok(PyList(items))
    ensures CheckMeta(meta) == CheckItems(items)
  {
  }

  /** On the line parser's output the key test always passes, so the
      verdict is exactly whether every dash item has both keys. */
  lemma FallbackVerdict(raw: string)
    ensures var items := FallbackParser.Run(FallbackParser.Init, SplitLines(raw)).items;
            CheckMeta(FallbackParser.FallbackParse(raw)) ==
              Ok(if forall k :: 0 <= k < |items| ==> HasKey(items[k], "id") && HasKey(items[k], "title") then 0 else 1)
  {
    var items := FallbackParser.Run(FallbackParser.Init, SplitLines(raw)).items;
    FallbackParser.FallbackShape(raw);
    MetaWithList(FallbackParser.FallbackParse(raw), FallbackParser.AsDicts(items));
    DictItems(items);
  }

  /** On dicts the item loop never raises and tests the two keys directly. */
  lemma {:induction false} DictItems(items: seq<Fields>)
    ensures CheckItems(FallbackParser.AsDicts(items)) ==
              Ok(if forall k :: 0 <= k < |items| ==> HasKey(items[k], "id") && HasKey(items[k], "title") then 0 else 1)
  {
    var dicts := FallbackParser.AsDicts(items);
    if items != [] {
      DictItems(items[1..]);
      assert dicts[1..] == FallbackParser.AsDicts(items[1..]);
    }
  }

  /** Without the library, a file is valid exactly when every item the
      line parser finds in its decoded text has both keys. */
  lemma WithoutLibrary(data: bytes)
    ensures var items := FallbackParser.Run(FallbackParser.Init, SplitLines(Decode(data))).items;
            Validate(Present(data), Missing) ==
              Ok(if forall k :: 0 <= k < |items| ==> HasKey(items[k], "id") && HasKey(items[k], "title") then 0 else 1)
  {
    FallbackVerdict(Decode(data));
  }
}
