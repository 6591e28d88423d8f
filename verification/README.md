# plugincheck catalog validator, modelled in Dafny

The plugincheck repository keeps a catalog of browser plugins in a JSON file:
a top-level `mime_types` array and a `plugins` object. Each plugin has
display fields, the MIME types it handles, its detection regexes and, per
OS key (`win`, `mac`, `lin`, `all`), a `latest` list and an optional
`vulnerable` list of version records. The repository's logic lives in one
mocha/chai suite, `tests/validate.js`. It walks the parsed catalog and
declares one `it` per rule at each place in the tree.

This project models that suite as a pure function, `Validator.Validate`.
The function maps a parsed JSON document to the sequence of verdicts the
suite reports, in mocha's order. Each verdict is a (scope, rule, pass)
triple, one per `it` block. An `it` passes when every `expect` in it holds,
because chai stops a block at its first failed assertion. The latest-list
and vulnerable-list record blocks are one record checker with a `Mode`
parameter. The two modes differ only in the accepted status values and the
accepted `app_release` values.

Modules:

- `Json`: the parsed document, with property access and `for...in`.
  - An object keeps its members in document order.
  - `Keys` gives the names `for...in` enumerates.
  - `Lookup` gives the value `JSON.parse` keeps, which is the last one of a
    duplicated name.
- `Chai`: the chai assertions the suite uses.
  - `an('object')` excludes arrays and null.
  - `.empty` fails on values that are not strings, arrays or objects.
  - `include` tests for a substring in a string and for a strictly equal
    element in an array.
  - `oneOf` is strict (`===`) membership. Under `===`, a parsed array or
    object equals nothing but itself.
- `Strings`: `split` and `join` on a one-character separator.
- `Report`: rules, scopes, verdicts, and the selections `InPlugin` and
  `WithRule`.
- `Rules`: one predicate per `it` block.
- `Validator`: the suite as mocha runs it. Within a `describe`, mocha runs
  the block's own `it`s first and then its nested `describe`s. One function
  per loop or block of `tests/validate.js`:
  - `Elements`: the values the `for...of` at line 27 visits.
  - `MimeTypeChecks`: the `it` per MIME type (lines 26-33).
  - `PluginSuites`: the loop over `plugins` (lines 50-173).
  - `PluginSuite`: one plugin's `describe` (lines 52-172), made of
    `PluginChecks` (its own `it`s) and `OsSuites`.
  - `OsSuites`: the loop over `versions` (lines 65-153).
  - `OsSuite`: one OS key's `describe` (lines 66-152), made of
    `OsKeyChecks` (lines 68-73) and two `RecordSuites`.
  - `RecordSuites`: the loop over `latest` (lines 74-112) or `vulnerable`
    (lines 113-151), with `RecordChecks` for one record.
  - `Prelude`: `TopLevelChecks`, the MIME type checks and
    `PluginsNonEmptyCheck` (lines 15-47).
- `Schema`: the catalog schema, stated declaratively as a reference.
- `Soundness`: the run passes exactly when the document satisfies the
  schema (`ValidateIsCatalogOk`).
- `SuiteProperties` and `RecordProperties`: properties of single checks,
  their counts and their independence, with worked examples.

Lines 90-93 evidently mean to reject a version with a non-numeric
component such as `"12.x"`: each piece goes through `Number` and must be a
number. They cannot reject it, because `NaN` is a number, so that loop adds
no condition. The model follows the code (`NonNumericComponent`).

## Model

| member | source | states |
|---|---|---|
| Json.Keys | tests/validate.js:50 | `for...in` over a parsed object visits each distinct member name exactly once, and nothing else |
| Json.LookupLast | tests/validate.js:51 | reading `plugins[name]` gives a value exactly when some member has that name, and the value is that of the last such member |
| Json.ForInVisitsChildren | tests/validate.js:74-75 | a `for...in` loop reading `list[v]` visits each key once and reaches exactly the elements of an array or the values of an object |
| Json.ForInObject | tests/validate.js:65-67 | over an object, every visited key is a member name read with its parsed value, and every member name is visited |
| Chai.OneOfStringsIsMembership | tests/validate.js:69 | `oneOf` against a literal list holds exactly for a string value that is in the list |
| Chai.IncludesCharacter | tests/validate.js:31 | `include("/")` on a string holds exactly when the string contains the character '/' |
| Strings.Split | tests/validate.js:88 | `split('.')` gives one more piece than there are dots, and no piece contains a dot |
| Strings.JoinSplit | tests/validate.js:88 | joining the pieces of `split('.')` with dots gives the string back |
| Strings.SplitJoin | tests/validate.js:88 | splitting the dot-join of dot-free pieces gives the pieces back |
| Validator.RecordChecks | tests/validate.js:77-110 | a record's checks all lie at its scope, all pass exactly when the record is valid for its mode, and include a vulnerability check exactly when the status is the string "vulnerable" |
| Validator.RecordSuites | tests/validate.js:74-151 | the records of one list, `latest` (lines 74-112) or `vulnerable` (lines 113-151), yield verdicts only at those records' scopes (this plugin, OS key and mode, and the key of one of the list's records), which all pass exactly when every record is valid for the list's mode |
| Validator.OsSuite | tests/validate.js:66-152 | every verdict of an OS key's block lies inside its plugin, below the plugin's own level, at the level of its rule |
| Validator.PluginChecks | tests/validate.js:53-171 | a plugin's own checks lie at its scope and all pass exactly when it is an object with string `display_name`, `description` and `url`, an object `versions`, known `mimes` and a string-array `regex` |
| Validator.PluginSuitesScopes | tests/validate.js:50-52 | every verdict of the plugin blocks lies inside the block of one of the enumerated plugins |
| Validator.MimeTypeChecks | tests/validate.js:26-33 | one check per `mime_types` element, at that element's index, all passing exactly when every element includes "/" |
| Validator.Prelude | tests/validate.js:15-47 | the top-level checks and the MIME type checks lie outside every plugin, each at its rule's level |
| Validator.Validate | tests/validate.js:10-177 | every verdict of the run is reported at the level of the document its rule belongs to |
| Soundness.RecordListEntries | tests/validate.js:74-75 | checking each record the loop visits is the same as checking every record the list holds |
| Soundness.OsSuitePasses | tests/validate.js:66-152 | an OS key's block passes exactly when the key is an OS name and its group has a `latest` array and valid records in both lists |
| Soundness.OsSuitesPass | tests/validate.js:65-153 | the OS blocks of a plugin pass exactly when every visited OS key passes |
| Soundness.VersionsEntries | tests/validate.js:65-67 | checking each visited OS key is the same as checking every member of `versions` |
| Soundness.PluginSuitePasses | tests/validate.js:52-172 | a plugin's block passes exactly when the plugin satisfies the plugin schema |
| Soundness.PluginSuitesPass | tests/validate.js:50-173 | the plugin blocks pass exactly when every visited plugin satisfies the schema |
| Soundness.PreludePasses | tests/validate.js:15-47 | the checks before the plugin blocks pass exactly when `mime_types` is a non-empty array of values including "/" and `plugins` is a non-empty object |
| Soundness.PluginsEntries | tests/validate.js:50-51 | checking each plugin the loop visits is the same as checking every member of `plugins` |
| Soundness.ValidateIsCatalogOk | tests/validate.js:10-177 | the whole run passes exactly when the document satisfies the catalog schema |
| SuiteProperties.EntryFor | tests/validate.js:50-51 | the entry found for a key is absent exactly when no visited key equals it, and otherwise is the value visited with that key |
| SuiteProperties.PluginSlice | tests/validate.js:50-52 | among plugin blocks with distinct keys, the verdicts inside plugin `k` are exactly the block built from `k`'s entry, or none |
| SuiteProperties.PluginBlock | tests/validate.js:50-173 | the verdicts inside a plugin's block depend only on that plugin's entry and the top-level `mime_types` |
| SuiteProperties.PluginIndependence | tests/validate.js:50-173 | two documents with the same `mime_types` and the same entry for a plugin report the same verdicts for it, whatever their other plugins are |
| SuiteProperties.EntryForObject | tests/validate.js:50-51 | over a `plugins` object, the entry for a name is the value `JSON.parse` kept for it |
| SuiteProperties.OtherPluginsDoNotMatter | tests/validate.js:50-173 | changing, adding or removing other plugins leaves a plugin's verdicts unchanged |
| SuiteProperties.PluginCheckOnce | tests/validate.js:53-171 | each plugin-level check occurs once in its plugin's block |
| SuiteProperties.PluginRules | tests/validate.js:53-171 | a plugin's block holds exactly one verdict of each plugin-level rule, at the plugin's scope, with the stated pass condition |
| SuiteProperties.KnownMimesMeaning | tests/validate.js:154-161 | the referential check passes exactly when `mimes` is an array whose every element is a non-container value found in a top-level `mime_types` array |
| SuiteProperties.KnownMimesOncePerPlugin | tests/validate.js:154-161 | however many `mimes` entries are unknown, a plugin gets exactly one referential verdict |
| SuiteProperties.MimeTypeVerdictsAreChecks | tests/validate.js:26-33 | the MIME type verdicts of a run are exactly the checks of the `mime_types` block, in order; no plugin block adds one |
| SuiteProperties.MimeTypeVerdicts | tests/validate.js:26-33 | one MIME type verdict per element, in order, each failing exactly when its element lacks "/" |
| SuiteProperties.StringMimeTypeVerdicts | tests/validate.js:15-33 | a string `mime_types` fails the array check, and `for...of` declares one MIME type check per character, passing exactly for the character '/' |
| SuiteProperties.MimeTypesNonEmptyVerdict | tests/validate.js:22-24 | the `mime_types` non-empty check is reported once and passes exactly when the array has an element |
| SuiteProperties.PluginsNonEmptyVerdict | tests/validate.js:45-47 | the `plugins` non-empty check is reported once and passes exactly when the object has a member |
| SuiteProperties.EmptyVersions | tests/validate.js:62-65 | an empty `versions` object passes and adds no OS block |
| SuiteProperties.TextPlainFailsAlone | tests/validate.js:26-33 | of "text/plain", "textplain" and "application/pdf", only the second element's verdict fails |
| RecordProperties.StatusRule | tests/validate.js:77-80 | a latest-list status passes exactly when it is "latest" or "vulnerable", a vulnerable-list status exactly when it is "vulnerable", and the second rule implies the first |
| RecordProperties.RecordCheckOnce | tests/validate.js:77-110 | no rule occurs twice among a record's checks |
| RecordProperties.RecordRules | tests/validate.js:77-110 | a record's block holds one verdict of each of four rules, and a vulnerability verdict exactly when its status is "vulnerable" |
| RecordProperties.AffectedVersionMeaning | tests/validate.js:86-94 | the affected-version check passes exactly for a string with fewer than four dots |
| RecordProperties.TooManyComponents | tests/validate.js:86-94 | "12.0.0.1.5" fails the affected-version check |
| RecordProperties.TwoComponents | tests/validate.js:86-94 | "12.0" passes the affected-version check |
| RecordProperties.NonNumericComponent | tests/validate.js:90-93 | "12.x" splits into "12" and the non-numeric "x", and still passes the affected-version check, because the per-component check cannot fail |
| RecordProperties.PlatformMeaning | tests/validate.js:101-110 | the platform check holds exactly for an object platform with `app_id` "*", an `app_release` of the mode, an allowed `app_version` and `locale` "*" |
| RecordProperties.PlatformModes | tests/validate.js:139-149 | the two modes' platform checks differ only in accepting "Extended Release Version" in the vulnerable list |
| RecordProperties.ExtendedReleaseExample | tests/validate.js:144-145 | an "Extended Release Version" platform fails in the latest list and passes in the vulnerable list |
| RecordProperties.LatestRecordWithoutUrl | tests/validate.js:81-85 | a complete "latest" record without `vulnerability_url` passes and gets no vulnerability check |
| RecordProperties.OnlyUrlMissing | tests/validate.js:116-123 | a vulnerable-list record lacking only `vulnerability_url` fails exactly the vulnerability check |
| RecordProperties.VulnerableRecordWithoutUrl | tests/validate.js:119-123 | a complete "vulnerable" record without `vulnerability_url` fails, on that check alone |
| RecordProperties.RecordStatusVerdicts | tests/validate.js:74-80 | one status verdict per record of a list, in list order, at the record's scope |
| RecordProperties.OsKeyVerdicts | tests/validate.js:68-73 | an OS key's block holds one key verdict, passing exactly for `win`, `mac`, `lin` or `all`, and one `latest` verdict, passing exactly when `latest` is an array |
| RecordProperties.OsKeyVerdictPerKey | tests/validate.js:65-70 | one OS-key verdict per key of `versions`, in enumeration order; an array index never passes |
| RecordProperties.AbsentVulnerableList | tests/validate.js:113 | without a `vulnerable` member, an OS key reports its two checks and its latest records, and nothing in vulnerable mode |

## Left out

- Loading `docs/plugins_list.json` through `require` (tests/validate.js:5) is file I/O. The model takes the parsed document as its input.
- Mocha and chai plumbing is not modelled: test names, labels built from values, and report formatting. A verdict keeps only its rule, its scope and its outcome.
- Collection-time crashes are not modelled. The suite throws while collecting tests in several cases, for example: the document is `null` (line 20); `mime_types` is absent or not iterable (line 27); a plugin, OS group or record is `null` (lines 65, 74-76 and 113-115); or a value used in a test title is an object whose `toString` member is not a function, such as `"version": {"toString": 1}` (lines 28, 76 and 115). The model reports these cases as failing checks and keeps going.
- `for...of` over a string `mime_types` (line 27) visits its code points. The model visits its characters, which are Unicode scalar values; a string holding an unpaired surrogate escape cannot be represented.
- `for...in` over a string visits its character indices. The model has it visit nothing. Where `plugins`, `versions`, `latest`, `mimes` or `regex` is a string, that container's own check fails anyway. A string `vulnerable` member has no check of its own, so the model reports no verdicts for it, where the suite would check each character as a record and fail it.
- Key enumeration order is taken to be document order. JavaScript enumerates integer-like keys first, in ascending order. Only the order of verdicts depends on this, not their contents or outcomes.
- `Number()` is not modelled. It occurs only in the per-component check at lines 90-93 and 128-131, which passes for every string.
- JSON numbers are kept as exact reals (`Json.JNumber`), not rounded to doubles as `JSON.parse` does when `require` loads the file (line 5). Two numerals that round to the same double, such as `0.1` and `0.10000000000000000001`, or `1e400` and `2e400`, are `===` in the suite and unequal in the model. Only the referential check (line 159) compares two document values, so only its outcome can differ, and only for a `mimes` entry that is a number.
- The commented-out `os_name` agreement check (lines 98-100) is not asserted by the source, so it is not modelled.
- Regex contents (line 166) and MIME type syntax beyond containing "/" (lines 29-30) are not validated by the source.
- The model follows chai 4 semantics for `.empty`, `an('object')`, `include` and `oneOf`. The repository does not pin a chai version.
- There is no member for "no check modifies the document". Every member is a pure function of its arguments, so this holds by construction. The same goes for the determinism of the run.
- Validator.OsSuite: its contract states only where its verdicts lie. Whether they pass is stated in Soundness.OsSuitePasses, and what they are in RecordProperties.OsKeyVerdicts.
- Validator.Prelude: its contract states only where its verdicts lie. Whether they pass is stated in Soundness.PreludePasses, and what they are in SuiteProperties.MimeTypeVerdicts, MimeTypesNonEmptyVerdict and PluginsNonEmptyVerdict.
- Validator.Validate: its contract states only where verdicts lie. Their meaning is stated in Soundness.ValidateIsCatalogOk and the lemmas of SuiteProperties.
