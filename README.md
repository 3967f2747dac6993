# waste-bill-parser in Dafny

This is a model of the logic in the waste-bill PDF extractor. The extractor is a
Next.js front end and a Flask back end, placed in front of a remote document
parse/extract service. A user uploads a PDF. The page posts it to the back end,
which forwards it to the parse service. The page turns the configured field list
into a JSON schema. It posts the parsed text and the schema to the extraction
endpoint, and shows the extracted values in an editor. The model covers:

- **CSV and cookie helpers** (`frontend/lib/utils.ts`; modules `Csv`, `Cookies`).
  - `escapeCSV` quotes a value that holds a comma, a double quote, a line feed or a
    space, and doubles its quotes. These are the rules of RFC 4180, section 2,
    items 6 and 7, plus quoting on a bare space.
  - `getCSVValue` reads a value as `String(value)` and escapes it.
  - `getCookie` looks a name up with JavaScript's `String.prototype.split`. The
    split is modelled exactly: leftmost, non-overlapping occurrences.
- **Field constants and the schema** (`frontend/lib/constants.ts`,
  `frontend/app/page.tsx`; modules `Fields`, `Schema`).
  - The literal field lists.
  - The schema builder. `number` stays `number` and every other type becomes
    `string`. `required` lists the names in order. A later field with a repeated
    name overwrites the earlier one.
  - The `||` fallbacks that pick the parsed text and the extracted data.
- **The extraction page** (`frontend/app/page.tsx`; module `Page`). This is class
  `Home`, whose fields are the component's state. `HandleFileSelect` and
  `HandleParse` update that state. Each network call is a parameter: the outcome
  of that call.
- **The field-configuration panel** (`frontend/components/FieldConfig.tsx`; module
  `FieldConfig`).
  - Guarded append, remove-by-index and replace-by-index, as functions on sequences.
  - The draft and the expanded flag, as the state of class `Panel`.
- **The results editor** (`frontend/components/ResultsEditor.tsx`; module
  `ResultsEditor`): the single-key edit, the display value, the input type, and the
  placeholder or the inputs.
- **The configuration store** (`frontend/lib/db.ts`; module `ConfigDb`).
  - Class `ConfigStore` is an IndexedDB object store: a map from `id` to record, a
    unique `by-name` index, and an auto-increment key generator.
  - `Put` and `Add` follow IndexedDB's rules. The generator starts at 1 and moves
    past any explicit key. A name already held by another record makes the write
    fail with nothing changed.
  - The seven exported operations are methods over this store. The clock is a
    parameter.
- **The back end** (`backend/app.py`; module `Backend`).
  - The ordered guards of `parse_pdf` and `extract_data`, and the replies they give.
  - The choice of how the schema is serialised.
  - The remote call is a function parameter, from the form that would be posted to
    the outcome.

JavaScript values are the datatype `JsValues.JsValue`, which has undefined, null,
booleans, integral numbers, strings and objects. JavaScript truthiness (`Truthy`)
and `||` (`Or`) are defined over it.

Two behaviours of the code worth noting:

- `getCSVValue` also returns `''` for an empty string, because `escapeCSV('')` is
  `''`.
- `getCookie` returns `''` when the split does not give two parts, and also when
  it does but the value is empty (`a` in `a=; b=2`, through `|| ''`). Counting parts
  differs from "the pattern occurs exactly once" only for a pattern that overlaps
  itself, such as the name `x=; x`.

## Model

| member | source | states |
|---|---|---|
| JsValues.DigitChar | frontend/lib/utils.ts:38 | a digit's character is the decimal digit of that value |
| JsValues.DecimalDigits | frontend/lib/utils.ts:38 | the decimal form of a number is non-empty, all digits, with no leading zero |
| JsValues.DecimalDigitsValue | frontend/lib/utils.ts:38 | the decimal form of `n`, read back digit by digit, denotes `n` |
| JsValues.ToJsString | frontend/lib/utils.ts:38 | `String(v)` is empty exactly for the empty string; a number's form is digits, led by a single `-` exactly when it is negative |
| JsValues.NumberStringValue | frontend/lib/utils.ts:38 | a number's `String()` form, read back with its sign, denotes that number |
| Csv.DoubleQuotes | frontend/lib/utils.ts:27 | the quote-doubling replace adds one character per double quote, and leaves quotes in the output exactly when the input has one |
| Csv.EscapeCSV | frontend/lib/utils.ts:25-30 | the value is returned unchanged exactly when it holds no comma, double quote, line feed or space; otherwise the output starts and ends with a quote and is two plus the quote count longer than the input |
| Csv.DoubleQuotesIsQuotedBody | frontend/lib/utils.ts:27 | the doubled text is a valid RFC 4180 quoted-field body, with no lone double quote |
| Csv.CollapseDoubleQuotes | frontend/lib/utils.ts:27 | collapsing `""` to `"` undoes the doubling |
| Csv.EscapedFieldIsWellFormed | frontend/lib/utils.ts:26-28 | a quoted result is a well-formed RFC 4180 escaped field |
| Csv.EscapeRoundTrip | frontend/lib/utils.ts:25-30 | stripping the outer quotes and collapsing `""` gives back the original value, for every value |
| Csv.CarriageReturnDoesNotQuote | frontend/lib/utils.ts:26 | inserting a carriage return never changes whether a value is quoted; `"\r"` alone is returned unchanged |
| Csv.DoubleQuotesAppend | frontend/lib/utils.ts:27 | the global replace works character by character, so it distributes over concatenation |
| Csv.DoubleQuotesNoQuote | frontend/lib/utils.ts:27 | the replace leaves text without double quotes unchanged |
| Csv.EscapeWithoutQuotes | frontend/lib/utils.ts:26-27 | a value that needs quoting but holds no quote is only wrapped in quotes |
| Csv.EscapeAroundQuotes | frontend/lib/utils.ts:27 | each of two embedded double quotes is doubled inside the outer quotes |
| Csv.EscapeCommaAndQuotes | frontend/lib/utils.ts:26-27 | `Acme, Inc. "East"` escapes to `"Acme, Inc. ""East"""` |
| Csv.EscapeBareSpace | frontend/lib/utils.ts:26-27 | `New York` is quoted because of its space alone |
| Csv.EscapePlain | frontend/lib/utils.ts:26-29 | `123` is emitted unquoted |
| Csv.GetCSVValue | frontend/lib/utils.ts:35-39 | the result is `''` exactly for a missing, undefined or null value, or an empty string; any other value gives `escapeCSV` of its `String()` form, which reads back to that form |
| Csv.FalsyValuesExported | frontend/lib/utils.ts:37-38 | `0` and `false` are exported as `0` and `false`, not dropped |
| Cookies.FindFrom | frontend/lib/utils.ts:6 | the search finds the leftmost occurrence at or after the start, or reports that there is none |
| Cookies.Split | frontend/lib/utils.ts:6 | `split` yields at least one part, and no part contains the separator |
| Cookies.JoinSplit | frontend/lib/utils.ts:6 | joining the parts with the separator gives back the string |
| Cookies.SplitSingle | frontend/lib/utils.ts:6-7 | there is one part exactly when the separator does not occur |
| Cookies.SplitAfterFirst | frontend/lib/utils.ts:6 | the first part is the text before the first occurrence; the rest is the split of the text after it |
| Cookies.SplitRepeated | frontend/lib/utils.ts:6-7 | two non-overlapping occurrences give at least three parts |
| Cookies.SplitUnique | frontend/lib/utils.ts:6-7 | a single occurrence gives exactly the text before it and the text after it |
| Cookies.SplitTwo | frontend/lib/utils.ts:6-8 | when there are two parts, the second is the text after an occurrence |
| Cookies.SplitHead | frontend/lib/utils.ts:8 | `split(';').shift()` is the prefix up to the first `;`, and holds no `;` |
| Cookies.GetCookie | frontend/lib/utils.ts:4-11 | the value never holds `;`, and is non-empty only when the split gives exactly two parts |
| Cookies.GetCookieAbsent | frontend/lib/utils.ts:5-10 | no `; name=` in `"; " + cookies` gives `''` |
| Cookies.GetCookieRepeated | frontend/lib/utils.ts:6-10 | two non-overlapping matches of `; name=` give `''` |
| Cookies.GetCookieUnique | frontend/lib/utils.ts:5-8 | a single match gives the text after it, up to the first `;` or the end |
| Cookies.GetCookieFound | frontend/lib/utils.ts:7-8 | a non-empty value is the text after some match, up to the first `;` |
| Fields.Names | frontend/app/page.tsx:79 | `fields.map(f => f.name)` keeps length and order |
| Fields.NamesAppend | frontend/app/page.tsx:79 | the names of a concatenation are the concatenated names |
| Fields.HardcodedNamesMatchFields | frontend/lib/constants.ts:2-8 | `HARDCODED_FIELD_NAMES` is the names of `HARDCODED_FIELDS`, in order |
| Fields.OnlyTotalIsNumeric | frontend/lib/constants.ts:2-6 | of the hardcoded fields, a field is number-typed exactly when it is `total` |
| Fields.StreamFieldsAreNumeric | frontend/lib/constants.ts:11-15 | every default stream field is number-typed |
| Fields.ConstantNamesDistinct | frontend/lib/constants.ts:2-15 | the six names across both lists are pairwise distinct |
| Schema.PropertyOf | frontend/app/page.tsx:73-76 | a property's type is `number` exactly when the field type is `number`, else `string`; it keeps the description |
| Schema.BuildProperties | frontend/app/page.tsx:72-78 | the `reduce` has one key per distinct name, holding the entry of the last field with that name |
| Schema.NameSetSnoc | frontend/app/page.tsx:72-78 | appending a field adds its name to the set of names |
| Schema.NameSetAppend | frontend/app/page.tsx:72-78 | the names of a concatenation are the union of the names |
| Schema.LastIndexOf | frontend/app/page.tsx:72-78 | every present name has a last field carrying it |
| Schema.PropertiesFromLastField | frontend/app/page.tsx:72-78 | every key of `properties` holds the wire form of the last field carrying that name |
| Schema.BuildSchema | frontend/app/page.tsx:70-80 | the schema is of type `object`; `required` is the names in order, duplicates included; the property keys are the set of names |
| Schema.SchemaMerge | frontend/app/page.tsx:70-80 | for mandatory fields followed by user fields, `required` is both name lists in order, and a user field overrides a mandatory one of the same name |
| Schema.DistinctNameSetSize | frontend/app/page.tsx:72-78 | distinct names give as many names as fields |
| Schema.DistinctNamesSchema | frontend/app/page.tsx:72-78 | with distinct names there is one property per field, holding that field's wire form |
| Schema.DuplicateNameLastWins | frontend/app/page.tsx:72-79 | two fields with one name are required twice, and the second field's entry is the only property |
| Schema.ConstantFieldsSchema | frontend/lib/constants.ts:2-15 | the hardcoded and stream fields give six properties, so none is overwritten |
| Schema.ParsedText | frontend/app/page.tsx:65 | the text is `text` if truthy, else `content` if truthy, else the serialised response |
| Schema.ExtractedData | frontend/app/page.tsx:98 | the data is `data` if truthy, else the whole response, and is never falsy |
| Page.Home.constructor | frontend/app/page.tsx:15-26 | the initial state: no file, empty text and error, the three initial fields, empty data, not loading |
| Page.Message | frontend/app/page.tsx:100 | the error shown is a thrown `Error`'s message, else `An error occurred` |
| Page.Home.ParseDisabled | frontend/app/page.tsx:143 | the parse button is enabled only with a file chosen and no parse under way, and is disabled while loading |
| Page.Home.HandleFileSelect | frontend/app/page.tsx:28-39 | a file is accepted exactly when its type is `application/pdf`; acceptance stores it and clears the error, the data and the text; rejection sets the error and changes nothing else; acceptance enables the parse button unless a parse is under way |
| Page.Home.HandleParse | frontend/app/page.tsx:41-104 | no file: only the error is set and loading is untouched; a failed parse sets the error and keeps the text and data; a failed extraction keeps the new text and the old data; success stores both with no error; with a file, loading always ends false and the button is enabled again |
| Page.Home.SetFields | frontend/app/page.tsx:152-157 | the panel's update replaces the field list only |
| Page.Home.SetExtractedData | frontend/app/page.tsx:176-180 | the editor's update replaces the extracted data only |
| Page.SelectThenParse | frontend/app/page.tsx:28-104 | selecting a PDF and then parsing with both calls succeeding ends idle, with no error and truthy extracted data |
| FieldConfig.AddField | frontend/components/FieldConfig.tsx:24-29 | the draft is appended at the end exactly when name and description are non-empty; otherwise the list is unchanged |
| FieldConfig.RemoveField | frontend/components/FieldConfig.tsx:31-33 | an in-range index removes exactly that element, keeping the others in order; any other index changes nothing |
| FieldConfig.UpdateField | frontend/components/FieldConfig.tsx:35-39 | the length is kept, the index holds the new field, and every other element is unchanged |
| FieldConfig.AddDisabledIffNoChange | frontend/components/FieldConfig.tsx:157 | the add button is disabled exactly when adding would leave the list unchanged |
| FieldConfig.RemoveUndoesAdd | frontend/components/FieldConfig.tsx:24-33 | removing the field just added restores the list |
| FieldConfig.RemoveKeepsOthers | frontend/components/FieldConfig.tsx:31-33 | removal takes exactly one copy of the removed field out of the multiset |
| FieldConfig.SplitMultiset | frontend/components/FieldConfig.tsx:32 | removing an element from the middle of a sequence takes one copy of it out of the multiset |
| FieldConfig.UpdateWithSameIsIdentity | frontend/components/FieldConfig.tsx:35-39 | writing back a field's current value changes nothing |
| FieldConfig.Panel.constructor | frontend/components/FieldConfig.tsx:17-22 | the panel starts collapsed, with an empty `string` draft |
| FieldConfig.Panel.HandleAddField | frontend/components/FieldConfig.tsx:24-29 | the list becomes the guarded append; the draft resets to empty only after an add |
| FieldConfig.Panel.HandleRemoveField | frontend/components/FieldConfig.tsx:31-33 | the list becomes the filter by index; the draft and flag are kept |
| FieldConfig.Panel.HandleUpdateField | frontend/components/FieldConfig.tsx:35-39 | the list becomes the single replacement; the draft and flag are kept |
| FieldConfig.Panel.EditDraft | frontend/components/FieldConfig.tsx:125-146 | the draft inputs replace the draft only |
| FieldConfig.Panel.ToggleExpanded | frontend/components/FieldConfig.tsx:44 | the header button flips the expanded flag only |
| ResultsEditor.FieldChange | frontend/components/ResultsEditor.tsx:20-25 | the edited key maps to the new value; no key is removed and every other key keeps its value |
| ResultsEditor.DisplayValue | frontend/components/ResultsEditor.tsx:56 | an input shows the stored value when truthy, else `''` |
| ResultsEditor.InputType | frontend/components/ResultsEditor.tsx:55 | the input type is `number` exactly for number fields, else `text` |
| ResultsEditor.RenderInputs | frontend/components/ResultsEditor.tsx:48-62 | one input per configured field, in configured order |
| ResultsEditor.Render | frontend/components/ResultsEditor.tsx:38-62 | the placeholder is shown exactly when the data has no keys; otherwise there is one input per field |
| ResultsEditor.RenderIgnoresOtherKeys | frontend/components/ResultsEditor.tsx:48-62 | the inputs depend only on the configured names' values, not on extra keys |
| ResultsEditor.EditIsDisplayed | frontend/components/ResultsEditor.tsx:56-57 | typed text is what the input shows next |
| ResultsEditor.EditKeepsOtherInputs | frontend/components/ResultsEditor.tsx:20-25 | an edit leaves every other field's input unchanged |
| ResultsEditor.EditShowsInputs | frontend/components/ResultsEditor.tsx:38-44 | after any edit the editor shows inputs, not the placeholder |
| ConfigDb.GeneratorAfter | frontend/lib/db.ts:40-43 | the key generator moves past the key just used and never goes back |
| ConfigDb.ConfigStore.constructor | frontend/lib/db.ts:36-49 | an empty store whose generator starts at 1 |
| ConfigDb.ConfigStore.NamesUnique | frontend/lib/db.ts:44 | the unique `by-name` index keeps names unique across records |
| ConfigDb.ConfigStore.GetConfiguration | frontend/lib/db.ts:79-82 | a record is found exactly for a stored id; it carries that id and is also the record found by its name |
| ConfigDb.ConfigStore.GetConfigurationByName | frontend/lib/db.ts:84-87 | a record is found exactly when one has that name, and it is the stored record under its own id |
| ConfigDb.ConfigStore.RecordsFrom | frontend/lib/db.ts:89-92 | the records with keys at or above a bound, in increasing key order, none missing |
| ConfigDb.ConfigStore.GetAllConfigurations | frontend/lib/db.ts:89-92 | every stored record, in increasing key order, none missing |
| ConfigDb.ConfigStore.Put | frontend/lib/db.ts:40-44 | a write under the record's own id, or under a generated key; it fails with no change exactly when another record holds the name |
| ConfigDb.ConfigStore.Add | frontend/lib/db.ts:70-74 | an insert under a fresh generated key; the generator advances by one |
| ConfigDb.ConfigStore.SaveConfiguration | frontend/lib/db.ts:54-77 | an existing name keeps its id, and only `fields` and `updatedAt` change; a new name is inserted under a fresh id, with the clock's timestamps; the count grows only for a new name |
| ConfigDb.ConfigStore.UpdateConfiguration | frontend/lib/db.ts:99-105 | the whole record is written under its id with `updatedAt` from the clock, unless another record holds its name |
| ConfigDb.ConfigStore.DeleteConfiguration | frontend/lib/db.ts:94-97 | only that id is removed |
| ConfigDb.ConfigStore.MarkConfigurationAsUsed | frontend/lib/db.ts:107-116 | an existing record gets only `lastUsedAt` from the clock; a missing id changes nothing |
| Backend.Lower | backend/app.py:39 | `lower()` maps each character to its lower case, keeping the length |
| Backend.CheckUpload | backend/app.py:31-40 | the guards run in order: no `file` part, then an empty name, then a name whose lower case does not end in `.pdf`; the first failure is the error |
| Backend.UpstreamReply | backend/app.py:53-61 | the remote JSON with 200; a `requests` failure or any other failure gives 500, with the matching message prefix |
| Backend.ParsePdf | backend/app.py:24-61 | the reply is 400 exactly when a guard fails, and the status is always 200, 400 or 500 |
| Backend.RejectedUploadSkipsUpstream | backend/app.py:31-53 | a rejected upload never reaches the remote call and gets its guard's 400 |
| Backend.AcceptedUploadIsForwarded | backend/app.py:42-56 | an accepted upload is posted as it came, with model `dpt-2-latest` |
| Backend.PdfSuffixIgnoresCase | backend/app.py:39-40 | `X.PDF` passes the suffix test and `X.txt` does not |
| Backend.SchemaFormValue | backend/app.py:88 | the schema is serialised exactly when it is a dict; otherwise it is passed through unchanged |
| Backend.PyTypeName | backend/app.py:81 | the type named in the `AttributeError` that `.encode` raises is `str` exactly for a string, `dict` exactly for an object, `NoneType` exactly for null |
| Backend.ExtractData | backend/app.py:64-105 | the reply is 400 `Missing required fields: markdown and schema` exactly when the JSON body is `null`, empty, or lacks `markdown` or `schema` |
| Backend.MissingFieldsSkipUpstream | backend/app.py:73-74 | such a body never reaches the remote call |
| Backend.NonStringMarkdownFails | backend/app.py:81 | markdown that is not a string fails with a 500 before any remote call |
| Backend.ExtractRequestIsForwarded | backend/app.py:81-100 | a valid body is posted with its markdown, its schema in the chosen form, and model `extract-latest` |
| Backend.ExtractRequestFailureReply | backend/app.py:102-103 | a `requests` failure during extraction is a 500 prefixed `Landing AI API error: ` |
| Backend.RequestFailureReply | backend/app.py:58-59 | a `requests` failure during parsing is a 500 prefixed `Landing AI API error: ` |

## Left out

- Network I/O: `fetch`, `requests.post`, multipart and form assembly, and the Flask and Next.js plumbing. Each remote call is a parameter, standing for its outcome.
- The API key header (`Bearer {LANDING_AI_API_KEY}`, which reads `Bearer None` when unset) and the health endpoint. They hold no logic beyond a constant string.
- `frontend/app/api/parse/route.ts` and `frontend/app/api/extract/route.ts` are not part of this model. They are pass-through proxies with a single key-presence check.
- `frontend/components/PDFViewer.tsx` is not part of this model. It wraps a PDF renderer, with floating-point zoom.
- `setCookie`, the clipboard copy, `setTimeout`, `URL.createObjectURL` (its URL is a parameter), and JSX rendering and CSS.
- JSON text formatting: `JSON.stringify` of the parse response is a parameter, and `json.dumps` of a dict schema is left as the dict.
- Page.Home.HandleParse: runs to completion as one step. Interleaving with other handlers across its `await`s is not modelled.
- JsValues.JsValue: has no arrays, fractional numbers, NaN or -0. `String()` of an object is `[object Object]`.
- JsValues.ToJsString: a number is an unbounded integer printed in full. JavaScript numbers are doubles, so from 2^53 on `String()` shows the rounded double, and from 10^21 on it uses exponent form (`1e+21`). Csv.GetCSVValue exports those values differently from the source.
- JsValues.Get: an object is a plain map. Names inherited from `Object.prototype` (`toString`, `constructor`, ...) read as missing here but as functions in the source, so Csv.GetCSVValue and ResultsEditor.DisplayValue differ for those field names.
- Schema.BuildProperties: a field named `__proto__` sets the accumulator's prototype in the source instead of adding a key, so that name is in `required` but not in `properties`. The model adds it as an ordinary key.
- Backend.ExtractData: a JSON body that is not an object (an array, a string) is not modelled; the body is an object or `None`. `None` stands for a JSON `null` body. A body that is missing, malformed or not JSON makes `request.get_json()` raise Flask's own 400 or 415 before the guard runs, and that is not modelled.
- Backend.Lower: lower-cases ASCII letters only. Python's full Unicode `lower()` is not modelled.
- ConfigDb: `openDB`, the upgrade callback, the cached `dbInstance` and the awaits are not modelled. The store lives in memory, and `Date.now()` is a parameter. An insert reads the clock twice (`now`, `later`).
- ConfigDb.ConfigStore.Put: IndexedDB's key-generator limit of 2^53, beyond which it refuses to generate keys, is not modelled; keys are unbounded.
- FieldConfig.UpdateField: requires an in-range index, which is all the panel ever passes. Writing past the end of a JavaScript array, which leaves holes, is not modelled.
- FieldConfig.Panel.HandleUpdateField: requires an in-range index, for the same reason.
- Cookies.GetCookieRepeated: covers two non-overlapping matches. With overlapping matches of a self-overlapping pattern, `split` may still give two parts; `GetCookieUnique` and `GetCookieFound` state what happens then.
- The multi-file batch workflow, its per-file status and CSV row assembly do not appear in these sources and are not modelled.
