# martian core, modelled in Dafny

Martian is the JavaScript client library of the MindTouch API. This project
models the parts of it that compute, and proves what they promise:

- **The schema-driven response parser** (`modelParser`): a schema is a list of entries
  `{field, name, isArray, transform, constructTransform}`, optionally wrapped as
  `{preProcessor, model}`. `createParser(schema)(data)` walks it over the JSON the API
  returned and fills one flat output object. Field paths are read with `getValue` and its
  `#text` rule. A value is coerced by name (`boolean`, `number`, `date`, `apiDate`),
  parsed with a nested or self-referential schema, or passed to a function. Parsing throws
  on a non-object, on a duplicate output name, and on a failing transform.
  - `Coercers`: the named coercers.
  - `ModelParser`: the interpreter as functions.
  - `ParserProperties`: what they guarantee.
  - `ParserRuntime`: the imperative `createParser`/`parseProperty` over a mutable output
    object, proved equal to the functions.
- **The two KCS schema constants** (`kcsStateModel`, `kcsTransitionsModel`) as values of
  the interpreter, with what parsing a payload with them yields (`KcsModels`).
- **`UriSearchParams`**: the ordered, repeatable list of query pairs, as a class whose
  methods rebuild a `seq` field (`SearchParams`).
- **The query and path methods of `Uri`** (`Uris`): get, add, remove and set query
  parameters, and add path segments.
- **The utilities `escapeHTML`, `searchEscape` and `getApiDateString`** (`Utility`).
- **The grant validator `_validateGrantsArray`** of the page security API (`Grants`).
- **The search constraint builder `_buildSearchConstraints`** (`SearchConstraints`).

`Wrappers` (Option/Result), `Text` (digits, `split`, `join`) and `JsonValues` (the JSON
value type and property lookup) are shared support modules.

JSON values are a datatype: `undefined`, `null`, strings, integers, booleans, arrays,
objects as ordered property lists, and the date an `apiDate` coercion produces. Each
throw of the modelled code is a `Result` error naming that throw, including a throw from
a schema's own `transform`, `constructTransform` or `preProcessor` function.

## Model

| member | source | states |
|---|---|---|
| Coercers.ToNumber | dist/index.js:965-977 | A number passes through unchanged. `''` gives `null`. Any other non-string fails. A success is a number or `null`, and `null` comes exactly from `''`. |
| Coercers.ToNumberOfString | dist/index.js:972-976 | A string converts to the integer n exactly when it is the canonical decimal of n (the `String(Number(s)) === s` test). |
| Coercers.ToApiDate | dist/index.js:948-964 | Succeeds exactly on a string of 8 or 14 digits. A number whose decimal is 8 or 14 digits passes the test and then throws at `slice`; anything else fails with the apiDate error. The month is stored zero-based, a year below 100 becomes 19xx, and an 8-digit string has zero time fields. |
| Coercers.ToBoolean | dist/index.js:938-940 | True exactly for `true`, `'true'` and `'True'`; any other boolean, string or value is false. |
| Coercers.FullYear | dist/index.js:962 | `new Date(year, …)` reads a year from 0 to 99 as 1900 to 1999 and keeps any other year. |
| Coercers.NumberExamples | dist/index.js:965-977 | `'42'` gives 42, `''` gives `null`, and `'4a'` throws. |
| Coercers.NonCanonicalNumbers | dist/index.js:972-975 | `'042'` and `'-0'` throw, because `String(Number(v))` does not give them back. |
| Coercers.BooleanExamples | dist/index.js:938-940 | `'True'` and `true` are true. `'0'`, `false` and `'TRUE'` are false. |
| Coercers.ApiDateExamples | dist/index.js:948-964 | `'20230115'` gives 15 January 2023 at midnight (month 0); a 7-digit string fails. |
| Coercers.ApiDateTwoDigitYear | dist/index.js:953-962 | `'00500101'` gives 1 January 1950. |
| Coercers.ApiDateOfNumber | dist/index.js:949-953 | The number `20230115` passes the digit test and throws at `slice`; the 7-digit number `2023011` fails the test. |
| ModelParser.ForceArray | dist/index.js:979-987 | `undefined` and `''` give the empty list, an array gives itself, and any other value gives a one-element list. |
| ModelParser.GetValue | dist/index.js:988-1002 | Reading from a non-object gives `undefined`. Reading from an object gives a strictly smaller value. A one-key path reads that member; a missing first key gives `undefined`. |
| ModelParser.Preprocess | dist/index.js:1003-1015 | Without a preprocessor the data is unchanged. With one, it succeeds exactly when the preprocessor returns; a throw becomes a `TransformThrew` error carrying its message. A result is never larger than the data. |
| ModelParser.Unwrap | dist/index.js:1003-1015 | `processModelAndData`: a transform that is not a schema with a preprocessor is returned with the data unchanged. A schema with a preprocessor is returned without it, so it runs once; the only error is the preprocessor's throw. |
| ModelParser.Constructed | dist/index.js:1041-1044 | Without `constructTransform`, the entry's own transform and the raw value are used. A throwing `constructTransform` gives its `TransformThrew` error. |
| ModelParser.CoerceNamed | dist/index.js:1019-1020 | The `'boolean'` transform gives `true` exactly for `true`, `'true'` and `'True'`. |
| ModelParser.TransformValue | dist/index.js:1017-1031 | A nested or referenced schema that succeeds yields an object with distinct keys. |
| ModelParser.MapTransform | dist/index.js:1049-1050 | A mapped array that succeeds has one result per element. |
| ModelParser.Parse | dist/index.js:1063-1073 | `''` parses to `{}`. A success is an object with distinct keys and no `undefined` values. A throw of the schema's preprocessor is passed on. A non-empty schema over preprocessed data that is not an object throws `Cannot parse a non-object`. |
| ModelParser.ParseEntries | dist/index.js:1070 | Entries are applied in order. Each entry only extends the output, keeps keys distinct and stores no `undefined`. |
| ModelParser.PropertyStep | dist/index.js:1032-1062 | One entry either stores nothing or appends exactly one pair under its output name. That name was not already taken. Non-objects throw. |
| ModelParser.FieldValue | dist/index.js:1039-1054 | An `isArray` entry that succeeds yields an array. A throwing `constructTransform` makes the entry throw that error. |
| ParserProperties.GetValueCompose | dist/index.js:988-1002 | Reading a path p+q equals reading q from the value at p, unless q is the lone `#text` step. |
| ParserProperties.GetValueTextSuffix | dist/index.js:995-998 | A trailing `#text` returns the parent itself when the parent is a string, and otherwise reads `#text` from it. |
| ParserProperties.TextMarkerBothShapes | dist/index.js:995-998 | `[k, '#text']` reads the same text whether `k` holds a bare string or an object with a `#text` member. |
| ParserProperties.MapTransformElements | dist/index.js:1049-1050 | The map succeeds exactly when every element transforms. Each result is that element's transform. A failure is some element's error. |
| ParserProperties.ArrayEntryShape | dist/index.js:1045-1054 | An array entry succeeds exactly when all its elements transform (when a transform applies). It yields one item per element of `forceArray` of the value, each transformed or left as it was. A failure is an element's error. |
| ParserProperties.AbsentValueRule | dist/index.js:1048-1054 | An absent value is handed only to a function transform. Any other transform leaves it `undefined`. |
| ParserProperties.ConstructedNothingKeepsRaw | dist/index.js:1041-1044 | When `constructTransform` returns no transform, the raw value is stored unchanged. |
| ParserProperties.ParseEntriesSucceeds | dist/index.js:1070 | With distinct names, parsing succeeds exactly when every entry's value succeeds. A failure is the error of the first failing entry, after all earlier ones succeeded. |
| ParserProperties.ParseEntriesStores | dist/index.js:1055-1061 | After a successful parse, the keys are among the entry names, and each entry's output name holds that entry's value (or is absent when the value is `undefined`). |
| ParserProperties.ParseFailsAtFirstFailingEntry | dist/index.js:1070 | A failed parse reports the error of its first failing entry. |
| ParserProperties.ParsedObject | dist/index.js:1063-1073 | Whole-parse version: success iff every entry succeeds. The keys are the entry names, each holding its entry's value. |
| ParserProperties.DuplicateNeedsStoredValue | dist/index.js:1055-1061 | Two entries with one output name throw `Duplicate` exactly when the first stored a value. Otherwise the second value is stored. |
| ParserProperties.PlainFieldValue | dist/index.js:1039-1040 | An entry with only a key reads that key. Its output name is the name if given, else the key. |
| ParserProperties.BooleanFieldValue | dist/index.js:1048-1052 | A `'boolean'` entry coerces a present value and leaves an absent one absent. |
| ParserProperties.NestedFieldValue | dist/index.js:1021-1024 | A nested-schema entry parses a present value with the schema and leaves an absent one absent. |
| ParserRuntime.ParsedObject.Store | dist/index.js:1059-1060 | Storing a fresh name appends that pair and makes it readable. |
| ParserRuntime.MapValues | dist/index.js:1049-1050 | The `map` loop over an array equals `MapTransform`. |
| ParserRuntime.ApplyTransform | dist/index.js:1017-1031 | `transformValue` as a method equals `TransformValue`. |
| ParserRuntime.ComputeFieldValue | dist/index.js:1039-1054 | Reading the path, `constructTransform` and the transform of the value (or of each element) equals `FieldValue`, throws included. |
| ParserRuntime.ParseProperty | dist/index.js:1032-1062 | Updates the output object exactly as `PropertyStep` says. On a throw the object is left unchanged and the error is returned. |
| ParserRuntime.CreateParser | dist/index.js:1063-1073 | The `forEach` over the schema into a fresh object equals `Parse`. |
| KcsModels.PlainBlockParse | models/kcsState.model.js:3-6 | A visibility or confidence block parses exactly when it is an object (or `''`), into `label`, `value` and `value-label` read from `@label`, `value` and `value-label`. |
| KcsModels.FlaggedBlockParse | models/kcsState.model.js:17-21 | The same for the flagged block, whose `value` is coerced to a boolean. |
| KcsModels.KcsStateParse | models/kcsState.model.js:1-23 | A KCS state parses exactly when it and each of its three present blocks parse. The output holds only `visibility`, `confidence` and `flagged`, each the parsed block. |
| KcsModels.KcsStatePlainBlock | models/kcsState.model.js:2-15 | A parsed visibility or confidence block holds the three values read at `[k, field]` of the input. |
| KcsModels.KcsStateFlaggedBlock | models/kcsState.model.js:16-22 | The parsed flagged block holds its label, and its `value`, when present, is a boolean. |
| KcsModels.TransitionsBlockParse | models/kcsTransitions.model.js:4-9 | A transitions block parses exactly when every state (one or many) parses. It yields `states` as an array holding each parsed state in order. |
| KcsModels.KcsTransitionsParse | models/kcsTransitions.model.js:3-12 | A transitions payload parses exactly when it is an object and its transitions block parses. It stores `transitions`, `canChangeGovernance` and `canChangeFlag`, the last two as booleans. |
| KcsModels.KcsTransitionsStates | models/kcsTransitions.model.js:7-11 | After a parse, `transitions.states` has one parsed KCS state per input state. The two flags are booleans when present. |
| SearchParams.FirstIndex | dist/index.js:68-77 | Gives the position of the first pair with the name: all earlier pairs have other names. |
| SearchParams.UriSearchParams.constructor | dist/index.js:47-55 | The pairs are those of the search string without its `?`, split on `&` and then on `=`. A missing search gives none. |
| SearchParams.UriSearchParams.Count | dist/index.js:114-116 | The count is zero exactly when there are no pairs. |
| SearchParams.UriSearchParams.Append | dist/index.js:56-58 | Appends one pair at the end. |
| SearchParams.UriSearchParams.Delete | dist/index.js:59-67 | Removes every pair with the name and keeps the rest in order. |
| SearchParams.UriSearchParams.Get | dist/index.js:68-77 | Gives the value of the first pair with the name, or none. |
| SearchParams.UriSearchParams.GetAll | dist/index.js:78-86 | Gives all values with the name, in order. |
| SearchParams.UriSearchParams.Has | dist/index.js:87-96 | True exactly when some pair has the name. |
| SearchParams.UriSearchParams.Set | dist/index.js:97-110 | Replaces the first pair with the name, drops the later ones, and leaves the list unchanged when there is none. |
| SearchParams.UriSearchParams.ToString | dist/index.js:117-121 | The pairs as `name=value`, joined by `&`. |
| SearchParams.SearchStringToParams | dist/index.js:37-45 | The loop over `split('&')` equals `SearchPairs`. |
| SearchParams.GetFirstMatch | dist/index.js:68-77 | `get` finds nothing exactly when no pair has the name, and otherwise gives the first such value. |
| SearchParams.GetAllStartsWithGet | dist/index.js:68-86 | `getAll` is non-empty exactly when `has`, and its head is `get`. |
| SearchParams.AppendAddsLastValue | dist/index.js:56-58 | `append` adds the value last for its name and changes no other name. |
| SearchParams.DeleteRemovesOnlyName | dist/index.js:59-67 | After `delete`, the name is gone and other names keep their values. Deleting an absent name changes nothing. The result is a sub-multiset of the pairs. |
| SearchParams.WithoutIdempotent | dist/index.js:59-67 | Deleting a name twice is deleting it once. |
| SearchParams.SetKeepsFirstPosition | dist/index.js:97-110 | After `set`, the name has exactly the new value, at the position of its first occurrence, with the earlier pairs untouched. Other names are unchanged. Without the name, the result equals the input without it. |
| SearchParams.RenderJoin | dist/index.js:117-121 | The `reduce` in `toString` equals joining the pair strings with `&`. |
| SearchParams.SearchRoundTrip | dist/index.js:37-55 | Parsing `'?' + toString()` gives back the pairs, when names and values contain neither `&` nor `=`. |
| SearchParams.QueryPrefixStripped | dist/index.js:47-52 | A search string starting with `?` is read without it. |
| Uris.Uri.constructor | dist/index.js:124-139 | The Uri keeps the parsed path and builds its parameters from the parsed search. |
| Uris.Uri.Path | dist/index.js:160-162 | The path is never empty: it is the parsed path, or `/` when there is none. |
| Uris.SearchString | dist/index.js:166-168 | The search is `''` exactly when there are no pairs, and otherwise `?` followed by `toString()`. |
| Uris.Uri.GetQueryParam | dist/index.js:343-345 | Gives the first value of the key. |
| Uris.Uri.RemoveQueryParam | dist/index.js:351-353 | Drops every pair with the key. |
| Uris.Uri.AddQueryParam | dist/index.js:360-363 | Appends the key with its encoded value, or `''` for `null`/`undefined`. |
| Uris.Uri.AddQueryParams | dist/index.js:369-373 | Appends one encoded pair per map key, in key order. |
| Uris.Uri.SetQueryParam | dist/index.js:380-383 | Removes the key, then appends it with the encoded value. |
| Uris.Uri.SetQueryParams | dist/index.js:389-393 | Sets each map key in turn. |
| Uris.Uri.AddSegments | dist/index.js:399-421 | The new path is the old one (with `/` read as empty) followed by `/segment` for each segment. Array arguments are flattened, one leading `/` is stripped from each, and the parameters are untouched. |
| Uris.BuildSegmentsPath | dist/index.js:400-415 | The nested `forEach` loops build exactly `SegmentsPath` of the arguments. |
| Uris.AppendArraySegments | dist/index.js:403-408 | The inner loop appends `/segment` for each array element. |
| Uris.AddedPathComponents | dist/index.js:399-415 | Splitting the added path on `/` gives an empty head and then each segment with its leading `/` stripped. |
| Uris.AddQueryParamAppends | dist/index.js:360-363 | The added value comes last for its key, other keys are unchanged, and `null`/`undefined` become `''`. |
| Uris.SetQueryParamReplaces | dist/index.js:380-383 | After `setQueryParam`, the key has exactly the one new value, in the last position, and other keys are unchanged. |
| Uris.SetQueryParamsReplaces | dist/index.js:389-393 | With distinct keys, each key of the map ends with exactly its value, and keys outside the map keep theirs. |
| Uris.SearchStringRoundTrip | dist/index.js:166-168 | Parsing the `search` string gives back the pairs, when names and values contain neither `&` nor `=`. |
| Utility.EscapeHtmlChar | dist/index.js:1668-1689 | A character maps to itself exactly when it has no entity. No output contains `<`, `>`, `"` or `'`. |
| Utility.EscapeHtml | dist/index.js:1688-1690 | The output contains none of `<`, `>`, `"`, `'` and is no shorter than the input. |
| Utility.EscapeHtmlRoundTrip | dist/index.js:1688-1690 | Decoding the five entities inverts `escapeHTML`. |
| Utility.SearchEscape | dist/index.js:1691-1699 | The loop over the special characters escapes each one in turn, as `EscapeWith` states. |
| Utility.SearchEscapeRoundTrip | dist/index.js:1691-1699 | Because the backslash is escaped first, dropping each escaping backslash gives back the query. |
| Utility.SearchEscapeGuardsSpecials | dist/index.js:1691-1699 | In the output, every special character other than a backslash is preceded by a backslash. |
| Utility.ReplaceAfterEscapes | dist/index.js:1694-1697 | Escaping one more character after the earlier ones escapes exactly the occurrences in the original text. |
| Utility.GetApiDateString | dist/index.js:1740-1750 | The year in decimal, followed by ten characters. Those ten are digits when every component is non-negative (month counted from -1). |
| Utility.ApiDateStringGroups | dist/index.js:1740-1750 | For a four-digit year, the string is 14 digits in the groups year, month+1, day, hours, minutes, seconds. |
| Utility.ApiDateRoundTrip | dist/index.js:948-964 | `to.apiDate(getApiDateString(d))` gives back d, for a four-digit year. |
| Grants.CheckGrant | dist/index.js:5140-5152 | A grant passes exactly when it is well formed. A nullish grant throws. A rejection carries one of the four messages, and the user/group message comes exactly when both or neither is defined. |
| Grants.ValidateGrantsArray | dist/index.js:5135-5155 | The loop with its early returns equals `Validate`. |
| Grants.CheckAllAccepts | dist/index.js:5139-5154 | The list is accepted with `'success'` exactly when every grant is well formed, and `valid` holds exactly when the message is `'success'`. |
| Grants.CheckAllFirstFailure | dist/index.js:5139-5154 | A rejection, or a throw, comes from the first grant that is not well formed, and all grants before it passed. |
| Grants.ValidateAccepts | dist/index.js:5135-5155 | Only an array of well-formed grants is valid. A non-array is rejected with the array message. |
| SearchConstraints.PushEach | dist/index.js:5476-5478 | The `forEach` appends one escaped, prefixed constraint per value, in order. |
| SearchConstraints.PushPath | dist/index.js:5464-5470 | Appends the path constraint, or throws for a non-string path. |
| SearchConstraints.PushList | dist/index.js:5471-5497 | Appends the constraints of one list parameter, or throws. |
| SearchConstraints.BuildSearchConstraints | dist/index.js:5462-5499 | The builder equals `ConstraintString`: `+(...)` around the space-joined constraints, or `''` when there are none. |
| SearchConstraints.ConstraintsThrow | dist/index.js:5464-5497 | It throws exactly when `path` is not a string, `tags`/`type` is neither a non-empty string nor an array, or `namespaces` is neither a string nor an array. The first key read decides the error. |
| SearchConstraints.ConstraintsCount | dist/index.js:5462-5499 | One constraint for the path and one per value of each list. The result is `''` exactly when there are none. |
| SearchConstraints.EmptyStringAsymmetry | dist/index.js:5471-5497 | `namespaces: ''` gives `+(+namespace:)`, while `tags: ''` and `type: ''` throw. |
| SearchConstraints.PathLeadingSlash | dist/index.js:5465-5468 | One leading `/` of the path does not change the result. |
| SearchConstraints.CommaTagsAreList | dist/index.js:5472-5475 | A comma-separated tag string is the same as the array of its parts. |
| SearchConstraints.CommaTypesAreList | dist/index.js:5481-5484 | A comma-separated type string is the same as the array of its parts. |
| SearchConstraints.PrefixedReadBack | dist/index.js:5476-5478 | Each constraint is the prefix, an escaped value and the suffix. The escaped value decodes back to the value and guards every special character. |
| SearchConstraints.TagsReadBack | dist/index.js:5471-5479 | An array of tags gives one `+tag:"..."` constraint per tag, from which the tag can be read back. |

## Left out

- Behaviour of the code a reader might not expect, which the model follows:
  - A missing `name` defaults to the first field of the path (`fields[0]`), not the last.
  - A `constructTransform` that returns no transform leaves the raw value stored.
  - `Duplicate` fires only when an earlier entry stored a value under the same name.
- JavaScript numbers are modelled as integers. Floating point, `NaN` and `Infinity` are not modelled.
- `Coercers.ToApiDate`: the `Date` it builds is kept as its six components, without the
  calendar normalisation `new Date(...)` applies to out-of-range months or days. An array
  whose string form is 8 or 14 digits (`['20230115']`) passes the digit test and is then
  sliced as an array; the model rejects every array with the apiDate error.
- The `date` coercer's host `Date` parsing is a parameter of the interpreter (`Env.toDate`).
- Transform and `constructTransform` functions are parameters: `Apply` holds an arbitrary
  function from JSON to a result, and an entry's `construct` a function from JSON to a
  result holding a transform.
- Preprocessors are functions from JSON to a result (a throw is an error) whose successful
  results do not enlarge the data. A preprocessor that builds larger data (a `JSON.parse`
  of a string) is outside the model, because termination of nested parsing is argued on
  the size of the data.
- Schema references (`Ref`) are resolved by name in a map of schema constants.
  `UnresolvedSchema` is a model artefact for a name with no definition; the source refers
  to the constant directly.
- Object lookup sees own properties only. Keys inherited from `Object.prototype`
  (`constructor`, `toString`, …) are not modelled.
- JSON objects are ordered property lists. The integer-keys-first ordering of
  `Object.keys` is not modelled: query maps are given as ordered lists.
- `encodeURIComponent` is a parameter of the query-parameter methods (`encode`).
- `UriSearchParams` and `searchEscape` take strings. Numbers and other values converted
  with `toString` are not modelled, nor are non-string elements of the arrays given to the
  search constraint builder.
- Aliasing of the pair arrays returned by `entries` and updated by `set` is not modelled.
  The class exposes its pairs as a value.
- `Utility.GetApiDateString`: its properties are stated for four-digit years and
  two-digit components, the range in which `slice(-2)` padding is exact.
- `escapeHTML` called with no argument defaults to `''`. This is the empty string in the
  model.
- The URI regex parser (`_parseUri`), the scheme/host/port/user parts of `UriParser`, and
  `Uri.toString` are not part of this model. `Uri` is built from the path and search its
  parser found.
- `SearchConstraints`: the `TypeError` it returns names the parameter whose `forEach` or
  `substr` call throws. The message text of the host's TypeError is not modelled.
- HTTP requests (`Plug`), `Settings`, token handling, base64 and the API classes that call
  these functions are outside the core and are not modelled.
