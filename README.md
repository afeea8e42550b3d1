# Features index generator and validator, in Dafny

This project models the feature-metadata pipeline of the site repository:

- `scripts/generate_features_index.py` collects per-repository feature records. It scans sibling
  checkouts on disk (`collect_from_local`) or fetches candidate files from GitHub
  (`collect_from_github`).
- It reads each file's metadata. YAML files go through PyYAML, with a line-oriented fallback
  parser locally. Markdown files go through their `---` front-matter block.
- It tags every record with its repository and turns bare strings into records (the
  normalisation loop in `main`). It then renders the consolidated Markdown index
  (`build_markdown`).
- `scripts/validate_features.py` loads one metadata file and returns exit code 0 or 1
  (`validate`).

The model is written over Python values (`PyValue.Value`): `None`, bools, ints, strings, lists
and dicts. Dicts keep insertion order, as Python's do.

An exception escaping an operation is the `Raised` outcome (`Wrappers.Outcome`).

Outside effects become parameters:

- the file system is a map from paths to directories and files (`LocalCollector.Fs`);
- GitHub is a fetch function and an optional repository listing (`RemoteCollector.Fetch`);
- PyYAML is either missing or an abstract `safe_load` that returns a value or fails
  (`FrontMatter.YamlLib`);
- the clock is a `now` string.

The modules, in dependency order:

- `Wrappers`, `PyText`, `TextFacts`, `Utf8`, `PyValue`, `Sorting`: the Python built-ins the
  scripts rely on, written out. These are `str.strip`, `split`, `join`, `splitlines`, `lower`,
  `str()` and `repr`, `dict.get`, assignment to a key, `sorted` on strings, and
  `bytes.decode('utf-8', errors='ignore')`.
- `FallbackParser`: `simple_parse_yaml_like`, as a method with a loop. It is specified by a
  step function `Step` and its fold `Run`.
- `FrontMatter`: `read_yaml_bytes` and `parse_frontmatter_from_md_bytes`. This includes the
  regex `^---\s*\n(.*?)\n---\s*\n` with its backtracking semantics.
- `Records`: the `if meta and 'features' in meta: for item in meta['features']: item['repo'] = name`
  block that both collectors share.
- `LocalCollector`, `RemoteCollector`: the two collectors, as methods with loops proved against
  specification functions.
- `Normalizer`: the loop in `main` that turns bare strings into records.
- `Render`, `RenderProps`: `build_markdown` and its properties.
- `Validator`: `load_yaml` and `validate`.
- `ParserExample`: the parser and the validator on the input of the repository's parser unit test.

The validator holds its own copy of `simple_parse_yaml_like`. It is the same code as the
generator's, apart from a comment and how the strip argument is written. So one model,
`FallbackParser`, serves both. `FallbackParser.ParseLine` cites the loop body of the
validator's copy.

Where the module docstring and the code differ, the model follows the code:

- Both strip every quote character from both ends of a value, not one layer of matching quotes.
  The inline `- key: value` branch also strips spaces.
- Undecodable bytes are dropped (`errors='ignore'`), not replaced.
- The remote candidate list has seven paths. It adds `pages/_about/features/index.md` to the six
  files the local scan tries.

## Model

| member | source | states |
|---|---|---|
| FallbackParser.SimpleParseYamlLike | scripts/generate_features_index.py:65-92 | The parser's loop returns exactly `FallbackParse(raw)`: a dict whose only key is `features`, holding the items the line-by-line state machine `Run` builds over `raw.splitlines()` |
| FallbackParser.ParseLine | scripts/validate_features.py:26-42 | One iteration of the loop. It keeps `current` pointing at the last item, or `None`, and its effect on the items and the pointer is one `Step` |
| FallbackParser.OpenItem | scripts/generate_features_index.py:77-88 | A dash line appends one new item, holding the inline `key: value` when the line has one |
| FallbackParser.SetField | scripts/generate_features_index.py:89-91 | A `key: value` line sets, on the last item only, the key before the first ':' to the stripped value; the other items are untouched |
| FallbackParser.MatchInlineGroups | scripts/generate_features_index.py:84-88 | Where `-\s+(\w+):` fits, the match's groups are the word and the rest of the line after the spaces, up to a newline |
| FallbackParser.MatchInlineNone | scripts/generate_features_index.py:84-85 | The inline pattern fails exactly when no split of the line has the shape dash, spaces, word, colon |
| FallbackParser.RunItemCount | scripts/generate_features_index.py:70-82 | The number of items grows by exactly the number of lines whose stripped text starts with '-' (delimiter lines `---` included) |
| FallbackParser.FallbackShape | scripts/generate_features_index.py:67-92 | The parse never fails: it is a truthy dict with the single key `features`, holding a list of dicts, one per dash line |
| FallbackParser.DelimiterLineMakesEmptyItem | scripts/generate_features_index.py:77-82 | A `---` line opens a new item with no fields and makes it current |
| FallbackParser.InlineItem | scripts/generate_features_index.py:84-88 | `- key: value`, with at least one space after the dash and a word key, opens an item whose one field is `key`. Its value is the rest of the line with spaces and both quote kinds stripped from both ends |
| FallbackParser.KeyLineSetsField | scripts/generate_features_index.py:89-91 | A `k: v` line splits at the first ':' and overwrites that key on the current item. The key has no ':'; every other key and every other item is unchanged; the item's first key stays first |
| FallbackParser.NoCurrentNoChange | scripts/generate_features_index.py:69-76 | With no current item, i.e. at the start or after `features:`, lines without a dash change nothing, whatever colons they hold |
| FallbackParser.FeaturesLineResets | scripts/generate_features_index.py:74-76 | A line starting with `features:` clears `current` and keeps the items |
| ParserExample.ParseItemLines | scripts/generate_features_index.py:84-91 | An item written as `  - id: …` and four indented field lines parses into exactly one item with those five keys and values |
| ParserExample.UnitTestParse | scripts/tests/test_generate_features_index.py:7-19 | On the unit test's input the parser finds one item, with id `TEST-001` and title `Test Feature` |
| ParserExample.UnitTestValid | scripts/tests/test_generate_features_index.py:8-15 | Without PyYAML the validator's verdict on the unit test's input is 0 |
| Utf8.Decode | scripts/generate_features_index.py:96 | UTF-8 decoding with undecodable bytes dropped never yields more characters than bytes |
| Utf8.DecodeEncode | scripts/generate_features_index.py:96-100 | Decoding the UTF-8 encoding of any text gives the text back |
| Utf8.DecodeAscii | scripts/generate_features_index.py:96 | ASCII bytes decode one character per byte, each with the byte's code |
| Utf8.StrayByteDropped | scripts/generate_features_index.py:96 | A byte that cannot start a sequence is dropped and decoding continues after it |
| PyValue.Get | scripts/generate_features_index.py:251-258 | `d.get(key)` is absent exactly when the key is missing; otherwise it is a value stored under the key |
| PyValue.PutGet | scripts/generate_features_index.py:88 | After `d[key] = v`, `d.get(key)` is `v` |
| PyValue.PutOther | scripts/generate_features_index.py:91 | `d[key] = v` leaves every other key's value as it was |
| PyValue.PutKeys | scripts/generate_features_index.py:134 | `d[key] = v` keeps an existing key in its place and appends a new key last |
| PyValue.Subscript | scripts/generate_features_index.py:133 | `v['features']` succeeds exactly on a dict that holds the key |
| PyValue.Iterate | scripts/generate_features_index.py:133 | `for x in v` visits a list's elements, a dict's keys or a string's characters, and raises on anything else |
| Sorting.Sort | scripts/generate_features_index.py:108 | `sorted()` returns an ordered permutation of its input |
| Sorting.SortedUnique | scripts/generate_features_index.py:108 | Two ordered lists with the same strings are equal, so the sorted order is determined by the names alone |
| Records.HasFeatures | scripts/generate_features_index.py:132 | `meta and 'features' in meta` is false for falsy metadata, is the key test on a dict, and raises exactly for a truthy bool or int |
| Records.Tag | scripts/generate_features_index.py:134 | After `item['repo'] = name` the item is a dict whose `repo` is `name` |
| Records.TagKeepsOthers | scripts/generate_features_index.py:134 | Tagging changes no key other than `repo` |
| Records.TagItemsRecords | scripts/generate_features_index.py:133-135 | The tagging loop appends, in order, the tagged dicts of a prefix of the items |
| Records.TagItemsStops | scripts/generate_features_index.py:133-135 | When the loop raises, it stopped at the first item that is not a dict |
| Records.TagItemsRaises | scripts/generate_features_index.py:133-135 | The loop raises exactly when some item is not a dict; otherwise every item is appended |
| Records.Contribute | scripts/generate_features_index.py:145-148 | Metadata without `features` contributes nothing; a failing `in` test contributes nothing and raises |
| Records.ContributeTags | scripts/generate_features_index.py:146-148 | Every contributed record is a dict tagged with the repository's name |
| Records.ContributeDictList | scripts/generate_features_index.py:156-159 | A `features` list of dicts contributes each dict, tagged, in order, without raising |
| Records.ContributeFallback | scripts/generate_features_index.py:150-159 | Fallback-parser output never makes tagging raise, and contributes one record per dash line |
| Records.AppendTagged | scripts/generate_features_index.py:146-148 | The loop appends to `features` exactly the tagged records and reports whether it raised |
| Records.AddFromMeta | scripts/generate_features_index.py:156-159 | The whole `if meta and 'features' in meta:` block appends exactly what `Contribute` specifies |
| FrontMatter.ReadYamlBytes | scripts/generate_features_index.py:55-62 | `None` without the library or when `safe_load` fails; otherwise `safe_load`'s value, `None` included |
| FrontMatter.Extract | scripts/generate_features_index.py:97-99 | The regex fails exactly when no opening and later closing delimiter exist. Otherwise the block lies between the longest opening and, for it, the first closing, and is exactly the text between such a chosen pair |
| FrontMatter.ChosenUnique | scripts/generate_features_index.py:97 | The match the regex reports is determined by the text |
| FrontMatter.FrontmatterReachesLoader | scripts/generate_features_index.py:95-101 | Without a block the parse is `None`. With one, the loader sees bytes that decode back to the block |
| FrontMatter.NoLibraryNoFrontmatter | scripts/generate_features_index.py:95-101 | Without PyYAML no Markdown file yields metadata |
| FrontMatter.FirstClosingWins | scripts/generate_features_index.py:97 | Whenever the text opens with `---` and a newline followed by a non-space, the block ends at the first closing `---` line; later ones belong to the body |
| FrontMatter.ClosingNeedsNewline | scripts/generate_features_index.py:97 | A closing `---` followed by spaces but no newline, with no earlier closing line, gives no block |
| FrontMatter.OpeningAtStart | scripts/generate_features_index.py:97 | Text that does not start with `---` has no block |
| LocalCollector.Extension | scripts/generate_features_index.py:128 | `splitext(f)[1]` is empty or a final dot-suffix of the name with no other dot |
| LocalCollector.MarkdownNames | scripts/generate_features_index.py:128 | A listed file is read exactly when its name ends in `.md` or `.markdown` and something other than a dot comes before that suffix |
| LocalCollector.LoadYamlCandidate | scripts/generate_features_index.py:150-155 | A yaml candidate's metadata is the library's value, unless that is `None`; then it is the fallback parse of the decoded bytes |
| LocalCollector.CollectFromLocal | scripts/generate_features_index.py:104-162 | The scan returns `LocalRecords`: the records of the visited directories in sorted name order; it raises when the root cannot be listed or when a visited repository has a features folder that cannot be listed |
| LocalCollector.ScanRepo | scripts/generate_features_index.py:109-161 | One repository appends its feature-directory records, then its candidate files' records; it reports an exception exactly when its features folder exists but cannot be listed |
| LocalCollector.ScanFeatureDir | scripts/generate_features_index.py:124-137 | The loop over `pages/_about/features` appends, in listing order, the records of its Markdown files, swallowing each file's exceptions |
| LocalCollector.ScanCandidates | scripts/generate_features_index.py:138-161 | The loop over the six candidates, in order, appends each existing file's records, swallowing its exceptions |
| LocalCollector.NamesTagged | scripts/generate_features_index.py:108-113 | Every record is a dict whose `repo` names a scanned directory: a directory not starting with '.' |
| LocalCollector.LocalTagged | scripts/generate_features_index.py:104-162 | Every record `collect_from_local` returns is tagged with the visited directory it came from |
| LocalCollector.ListingOrderIrrelevant | scripts/generate_features_index.py:108 | The result does not depend on the order in which `os.listdir` lists the root |
| LocalCollector.UnlistableFeatureDirAborts | scripts/generate_features_index.py:125-126 | A visited repository whose features folder exists but cannot be listed makes the whole scan raise, so the other repositories' records are lost too |
| LocalCollector.YamlCandidateFallback | scripts/generate_features_index.py:149-159 | A yaml candidate the library cannot read contributes one tagged record per dash line of its fallback parse |
| LocalCollector.MissingLibraryUsesFallback | scripts/generate_features_index.py:150-153 | Without PyYAML every yaml candidate goes to the fallback parser |
| RemoteCollector.CollectFromGithub | scripts/generate_features_index.py:180-229 | The collection returns `RemoteRecords`: the given repositories, or else the listing, probed in order; raises when a used file has a non-dict item |
| RemoteCollector.ProbeRepo | scripts/generate_features_index.py:209-228 | The candidate loop for one repository appends what `Probe` finds, or raises when it does |
| RemoteCollector.ProbeWithoutLibrary | scripts/generate_features_index.py:222-228 | Without PyYAML no candidate yields anything: the remote path has no fallback parser |
| RemoteCollector.RemoteWithoutLibrary | scripts/generate_features_index.py:180-229 | Without PyYAML the remote collection is empty |
| RemoteCollector.ProbeStopsAtFirstHit | scripts/generate_features_index.py:216-228 | Paths after the first file whose metadata has `features` are never looked at |
| RemoteCollector.HitContributes | scripts/generate_features_index.py:214-228 | The first hit whose items are all dicts contributes exactly those items, tagged |
| RemoteCollector.NonDictItemRaises | scripts/generate_features_index.py:217-219 | A non-dict item in the used file aborts the whole collection |
| RemoteCollector.ListingFailure | scripts/generate_features_index.py:182-195 | A failed repository listing gives an empty result |
| RemoteCollector.ProbeTagged | scripts/generate_features_index.py:217-227 | Every record of a repository is a dict tagged with that repository |
| RemoteCollector.ReposTagged | scripts/generate_features_index.py:208-228 | Every record is a dict whose `repo` is one of the repositories probed |
| RemoteCollector.RemoteTagged | scripts/generate_features_index.py:180-229 | Every record `collect_from_github` returns is tagged with one of the probed repositories |
| Normalizer.FromTitle | scripts/generate_features_index.py:319 | A bare string becomes the dict with keys `title`, `description`, `implemented` in that order, titled with the string and not implemented |
| Normalizer.NormalizeAll | scripts/generate_features_index.py:316-321 | One entry per input, in order, each normalised on its own |
| Normalizer.Normalize | scripts/generate_features_index.py:316-321 | The loop builds exactly `NormalizeAll` of its input |
| Normalizer.NormalizeIdempotent | scripts/generate_features_index.py:316-321 | No entry of the result is a string, so a second pass changes nothing |
| Normalizer.NormalizeWithoutStrings | scripts/generate_features_index.py:320-321 | Without bare strings the loop is the identity |
| Normalizer.NormalizeChanges | scripts/generate_features_index.py:318-321 | An entry changes exactly when it is a string, and then it is titled with that string |
| Normalizer.LocalOutputUnchanged | scripts/generate_features_index.py:308-321 | On the local collector's output the normalisation changes nothing |
| Normalizer.RemoteOutputUnchanged | scripts/generate_features_index.py:311-321 | On the remote collector's output the normalisation changes nothing |
| Render.TruthyFlag | scripts/generate_features_index.py:242 | `str(v).lower() in ('1','true','yes')` holds exactly for `True`, the int 1, and strings that lower-case to one of the three |
| Render.ImplementedValues | scripts/generate_features_index.py:242-243 | A record is "current" exactly when `implemented` is present and is one of those values; absence means backlog |
| Render.Filter | scripts/generate_features_index.py:242-243 | Every record the comprehension keeps passes its test |
| Render.FilterPartition | scripts/generate_features_index.py:242-243 | Every record lands in exactly one of the two groups, with its multiplicity |
| Render.FilterConcat | scripts/generate_features_index.py:242-243 | The comprehension distributes over concatenation, so input order is kept |
| Render.FilterMembers | scripts/generate_features_index.py:242-243 | A record is in a group exactly when it is in the input and has that group's flag |
| Render.TitleFallback | scripts/generate_features_index.py:251 | The title cell is `title` when present, else `id`, else `untitled` |
| Render.NonEmptyStripped | scripts/generate_features_index.py:256 | The kept tag pieces are stripped and non-empty, no more of them than pieces |
| Render.TagPieces | scripts/generate_features_index.py:254-256 | The pieces of a tag string are stripped, non-empty and free of commas |
| Render.StrsOf | scripts/generate_features_index.py:257 | `', '.join` succeeds exactly when every element is a string |
| Render.RowsBy | scripts/generate_features_index.py:250-261 | A section's rows are produced exactly when every record's row is, one row per record in order |
| Render.SectionShape | scripts/generate_features_index.py:247-263 | An empty group gives the placeholder sentence alone. A non-empty one gives the table head, the rule and one row per record |
| Render.Comprehension | scripts/generate_features_index.py:242 | The comprehension succeeds exactly when every record is a dict, and then keeps the records of the wanted group in order |
| Render.AppendRows | scripts/generate_features_index.py:250-261 | The row loop appends exactly the section's rows, or raises exactly when one of them does |
| Render.AppendSection | scripts/generate_features_index.py:247-263 | A section appends the table or the placeholder, as `Section` specifies |
| Render.AppendBody | scripts/generate_features_index.py:245-282 | Both sections, each after its heading, as `Body` specifies |
| Render.BuildPage | scripts/generate_features_index.py:232-288 | The page for any grouping test and row renderer is `Page`: front matter, optional header, the two sections, then the footer |
| Render.BuildMarkdown | scripts/generate_features_index.py:232-288 | `build_markdown` returns `Markdown(features, header, now)` |
| RenderProps.BodyOk | scripts/generate_features_index.py:245-282 | The body is produced exactly when every row of both groups renders |
| RenderProps.GroupsOk | scripts/generate_features_index.py:242-243 | All rows of the two groups render exactly when every record's row does |
| RenderProps.PageOk | scripts/generate_features_index.py:232-288 | The page is produced exactly when every record is a dict and every record's row renders |
| RenderProps.Lines | scripts/generate_features_index.py:236-288 | The page is its lines joined with newlines: front matter with `now` first, the header next when non-empty, `Last updated: now` last |
| RenderProps.PageFrame | scripts/generate_features_index.py:236-287 | The page starts with the front matter stamped `now` and ends with `Last updated: now`, the same `now` |
| RenderProps.PageRows | scripts/generate_features_index.py:250-280 | Every record's row appears on the page |
| RenderProps.BodyShape | scripts/generate_features_index.py:245-282 | The body has the two headings in order, each followed by its section |
| RenderProps.MarkdownOk | scripts/generate_features_index.py:232-288 | `build_markdown` raises exactly when a record is not a dict, or its tags or link cannot be rendered |
| RenderProps.MarkdownRows | scripts/generate_features_index.py:261 | Every record's row, and so its title, appears on the page |
| RenderProps.MarkdownTitle | scripts/generate_features_index.py:251 | Every record's title cell appears on the page |
| RenderProps.TagsRoundTrip | scripts/generate_features_index.py:254-257 | The string forms `"[a, b]"`, `"a, b"` and `"a,b"` of plain tags parse back into the tags |
| RenderProps.TagFormsAgree | scripts/generate_features_index.py:253-257 | A list of plain tags and its string form render the same cell |
| RenderProps.TagsOfList | scripts/generate_features_index.py:253-257 | A list of strings renders as the strings joined with `, ` |
| RenderProps.TagsOfString | scripts/generate_features_index.py:254-256 | A non-empty tag string renders as its pieces joined with `, ` |
| RenderProps.TagsOfNothing | scripts/generate_features_index.py:253 | A falsy tags value renders as an empty cell |
| RenderProps.TagsRaises | scripts/generate_features_index.py:253-257 | The tags cell raises exactly for a truthy int or bool, or a list holding a non-string |
| RenderProps.LinkRaises | scripts/generate_features_index.py:258-259 | The link cell raises exactly for a truthy link that is not a string |
| RenderProps.LinkShape | scripts/generate_features_index.py:258-260 | A string link renders empty, starting with `http`, or starting with `/` |
| RenderProps.LinkRewrite | scripts/generate_features_index.py:259-260 | A relative link becomes `/{repo}/{link}` |
| RenderProps.LinkIdempotent | scripts/generate_features_index.py:258-260 | Rendering a rendered link again changes nothing |
| RenderProps.CellsOfListRecord | scripts/tests/test_generate_features_index.py:24 | The unit test's first record shape is current and renders its title, joined tags and rooted link |
| RenderProps.CellsOfStringRecord | scripts/tests/test_generate_features_index.py:25 | The unit test's second record shape, tags as `x,y`, is backlog and renders the same cells as the list form |
| RenderProps.TitlesOnPage | scripts/tests/test_generate_features_index.py:22-29 | When every record is a dict with renderable tags and link, the page is produced and holds every title |
| Validator.LoadYaml | scripts/validate_features.py:46-58 | The library's value when it parses, `None` included; the fallback parse when the library is missing or fails |
| Validator.CheckItems | scripts/validate_features.py:69-74 | The item loop gives 0 exactly when every item has `id` and `title`; otherwise 1 or an exception |
| Validator.CheckMeta | scripts/validate_features.py:65-74 | Falsy metadata or a dict without `features` gives 1; an empty `features` list gives 0 |
| Validator.FirstFailure | scripts/validate_features.py:69-72 | The loop gives 1 exactly when some item fails the key test before any item raises |
| Validator.Validate | scripts/validate_features.py:61-74 | A missing file gives 1 before any parsing; an unreadable one raises; otherwise the verdict on the loaded metadata |
| Validator.LibraryNoneRejected | scripts/validate_features.py:49-68 | A `None` from the library is kept, not sent to the fallback, and the file is rejected |
| Validator.ExitCodes | scripts/validate_features.py:61-74 | Whenever `validate` returns, it returns 0 or 1 |
| Validator.MetaWithList | scripts/validate_features.py:66-72 | Once the `features` lookup succeeds, the verdict is the item loop's |
| Validator.FallbackVerdict | scripts/validate_features.py:65-72 | On fallback-parser output the top-level tests always pass; the verdict is 0 exactly when every item has `id` and `title` |
| Validator.DictItems | scripts/validate_features.py:69-72 | On dict items the loop never raises and tests the two keys directly |
| Validator.WithoutLibrary | scripts/validate_features.py:46-74 | Without PyYAML a file is valid exactly when every item its fallback parse yields has `id` and `title` |

## Left out

- File-system and network I/O are inputs: `os.listdir`, `os.path.isdir`/`exists`, `open`, `urlopen` and `json.load`. Writing the page (`save_file`) and reading the header template are left out.
- The file system is a map, so a path either exists as a directory or file, or does not. A directory's listing and a file's contents may each be unreadable: a failed listing of a features folder propagates out of the scan, as in the source. Races between `exists` and `open` are left out.
- `fetch_github_file` is an opaque function from a repository and a path to optional bytes. The token, URL building and headers are left out.
- PyYAML is an abstract `safe_load` returning a value or failing, and its parsing is not modelled. The import guard is the `Missing` case.
- YAML floats, dates, and dict keys that are not strings are left out of the value model.
- `datetime.utcnow()` is the `now` parameter. `argparse`, environment tokens and the two `main` functions' plumbing are left out, except the normalisation loop.
- Messages printed to stderr and stdout are left out: they do not affect any result.
- Records are values. Tagging `item['repo'] = name` is modelled as a new dict, so aliasing between the parsed metadata and the collected records is left out.
- The loop bodies are split into helper methods (`ParseLine`, `ScanRepo`, `ProbeRepo`, `AppendRows` and others); control flow and order are as in the source.
- `\w` and `str.lower()` are restricted to ASCII. For the `('1','true','yes')` test this is exact. For inline keys with non-ASCII letters it is not.
- `str.isspace` and `str.splitlines` use Python's exact character sets.
- `repr` of strings (used by `str()` of a list or dict, for instance a `title` that is a list) escapes backslash, the quote, and characters up to U+001F and from U+007F to U+00A0. Python also escapes the other non-printable code points; the model prints them as they are.
- The `except Exception` around the fallback parser in the local scan never fires, since the parser is total.
- `chrod-progressions.rb` is not part of this model: it is an unrelated music snippet.
