# Organisation registry worker — a Dafny model of its core

The worker serves one aggregated list of organisations. It reads:

- a list of organisation numbers stored under `org_list` in the `ORG_DATA` key-value namespace;
- for each number, the agent payload stored under that number in `ORG_DATA`;
- for each number, the register payload stored under that number in `ORG_CACHE`.

It merges each number's two payloads into one six-field row: `orgNr`, `namn`, `form`, `postort`, `ombud` and `tillagd`. Missing or malformed data gives the sentinel "N/A". The one exception is the legal form, which falls back to "N/S" when the register payload names an organisation.

The aggregate is kept in the edge cache under `origin + "/data.json"` for 3600 seconds, and every view shares that entry. The views are the full data, the names only, and a semicolon-separated CSV export with a byte-order mark. The browser page shows the rows through a pagination bar of at most seven page buttons with ellipses. It escapes the name, form, town, agent and date of each row before placing them in the table; the organisation number is inserted as it is.

The modules follow the program's layers:

| file | module | models |
|---|---|---|
| `wrappers.dfy` | `Wrappers` | `Option` / `Result` |
| `text.dfy` | `Text` | joining and decimal text |
| `json.dfy` | `JsonValues` | JSON values and JavaScript's `?.`, `\|\|`, truthiness and `String()` |
| `fetch.dfy` | `RecordFetcher` | `fetchDataForKey`: one row from the two namespaces |
| `aggregate.dfy` | `Aggregator` | `buildAggregatedData`: the key list and one row per key |
| `views.dfy` | `NameView` | the name filter of the names-only view |
| `csv.dfy` | `CsvExport` | `jsonToCsv`, and a CSV reader that states what the export means |
| `page.dfy` | `PageScript` | `buildPaginationButtons` and `escapeHTML` |
| `cache.dfy` | `CacheAside` | `getAggregatedData` as a `Worker` class that owns the cache, and the two view handlers |

Two library calls are parameters of the model, gathered in `Runtime`:

- `JSON.parse` is `parse`; `None` means the call throws.
- `new Date(x).toISOString()` is `isoString`; `None` means the call throws on an invalid date.

The current time is a parameter of every cache operation. The key-value namespaces are maps from key to stored text. A namespace is read under `String(key)`, which is `JsonValues.JsString`.

Three consequences of the code that the model states outright:

- Rows are in key-list order. `Promise.allSettled` reports results by input position, whatever order the fetches finish in (`Aggregator.AggregateRows`).
- There is exactly one row per key. The outer `catch` of `fetchDataForKey` and the `rejected` branch of the aggregation cannot be reached in the model.
- The names-only view drops falsy names as well as "N/A" (worker.js:106).

`x || 'N/A'` yields `x` itself when `x` is truthy. That `x` can be a number or an object, not only a string, so row fields are JSON values. The CSV export renders them with `String()`.

## Model

| member | source | states |
|---|---|---|
| JsonValues.FalsyValues | worker.js:266-297 | the values `\|\|`, `?.` chains and `if` treat as false are exactly `undefined`, `null`, `false`, `0` and `""`; every array and object is truthy |
| JsonValues.PropDefined | worker.js:266-297 | `v?.key` is defined exactly when `v` is an object with that own property, and is then that property's value |
| JsonValues.Index0Defined | worker.js:288-291 | `v?.[0]` is an array's first element or a string's first character when there is one, an object's property "0", and `undefined` for anything else |
| JsonValues.JsStringCases | worker.js:342 | `String()` prints a string as it is, `null`, `true` and `false` as their literals, an integer as its canonical numeral ("0" for zero, otherwise no leading '0'), which reads back as that integer, an empty array as nothing, and every object as "[object Object]" |
| Text.IntToDecimal | worker.js:342 | the text of an integer is an optional minus sign (present exactly for negatives) followed by digits without a leading zero (zero itself is "0"), and reads back as that integer |
| Text.NatDecimalLeadingZero | worker.js:342 | the digits of a natural number start with '0' exactly when it is zero, and zero is written "0" |
| JsonValues.OrElse | worker.js:266 | `v \|\| fallback` is `v` when `v` is truthy and the fallback otherwise |
| RecordFetcher.DatePart | worker.js:268 | `split('T')[0]` is the longest prefix without a `'T'`; it ends at the first `'T'` or at the end of the text |
| RecordFetcher.DatePartOfSplit | worker.js:268 | splitting `date + "T" + rest` gives back `date` whenever `date` has no `'T'` |
| RecordFetcher.AgentFieldsCases | worker.js:251-278 | absent or unparsable agent payload leaves `ombud` and `tillagd` as "N/A"; otherwise `ombud` is the truthy `organizationDisplayName` or "N/A", and `tillagd` is the date part of `toISOString()` of a truthy `firstSeen`, or "N/A" when `firstSeen` is falsy or the conversion throws; `ombud` is "N/A" or truthy, and `tillagd` is "N/A" or a string (possibly empty) without a `'T'` |
| RecordFetcher.OrgFieldsCases | worker.js:253-307 | absent or unparsable register payload leaves all three fields "N/A"; when the first organisation exists, each nested value wins if truthy, then the flat field, then "N/A" (the form falls back to "N/S"); with no organisation, the flat fields or "N/A"; every field is a sentinel or truthy |
| RecordFetcher.NamespacesIndependent | worker.js:248-324 | the row carries the key as `orgNr`; two states that agree on `ORG_DATA` give the same agent fields, and two that agree on `ORG_CACHE` the same register fields |
| RecordFetcher.AbsentKeyRow | worker.js:250-317 | a key in neither namespace yields the row of five "N/A" fields |
| RecordFetcher.FetchDataForKey | worker.js:248-324 | the step-by-step assignments of the five fields produce exactly `FetchRow` |
| Aggregator.KeyList | worker.js:190-213 | reading `org_list` fails as missing exactly when the key is absent, as unparsable exactly when `JSON.parse` throws, and as not-an-array exactly when the parsed value is not an array; success returns the array's elements |
| Aggregator.FetchAll | worker.js:224-236 | one row per key, the i-th row fetched for the i-th key |
| Aggregator.AggregateRows | worker.js:188-240 | a key-list failure is the aggregate's failure; otherwise the aggregate has exactly one row per key, in key order, and every row's `orgNr` is one of the keys |
| Aggregator.BuildAggregatedData | worker.js:188-240 | the loop that pushes each settled row computes the aggregate |
| Aggregator.TwoKeyScenario | worker.js:188-324 | with keys A1 and A2, an agent payload for A1 and a nested register payload for A1, the aggregate is A1's fully merged row followed by A2's all-"N/A" row |
| NameView.OrgNames | worker.js:104-106 | no more names than rows; every name is truthy and not "N/A"; every name is some row's `namn` |
| NameView.ShownNamesKept | worker.js:104-106 | every truthy, non-"N/A" `namn` appears among the names |
| NameView.OrgNamesAppend | worker.js:104-106 | the filter distributes over concatenation, so it keeps row order |
| CsvExport.EscapeCell | worker.js:342-347 | a cell containing `;`, `"` or a newline is wrapped in quotes; any other cell is unchanged |
| CsvExport.DoubleQuotesChanges | worker.js:344 | doubling quotes leaves a cell without quotes unchanged and lengthens any cell that has one; `QuotedRoundTrip` shows it is undone by a CSV reader |
| CsvExport.QuotedRoundTrip | worker.js:344-345 | a CSV reader gives back a cell whose quotes were doubled and that was wrapped in quotes |
| CsvExport.FieldRoundTrip | worker.js:342-347 | a CSV reader gives back every escaped cell and stops at the following delimiter or newline |
| CsvExport.RecordRoundTrip | worker.js:340-348 | a CSV reader gives back the cells of every `;`-joined record |
| CsvExport.RecordsRoundTrip | worker.js:349-351 | a CSV reader gives back every newline-joined list of records |
| CsvExport.HeaderLine | worker.js:337-339 | the header line is the six field names joined by `;`, none of which needs quoting |
| CsvExport.JsonToCsv | worker.js:333-352 | the export is empty exactly when there are no rows, and otherwise starts with the byte-order mark |
| CsvExport.CsvRoundTrip | worker.js:333-352 | reading the export of a non-empty aggregate gives the header followed by each row's six cells (`null` as empty, everything else by `String()`), in row order |
| CacheAside.Worker.GetAggregatedData | worker.js:147-179 | a non-forced request with a fresh entry returns the cached aggregate without building or writing, and that aggregate was built from the namespaces as they were at a request less than 3600 s before this one (requests arrive in time order); any other request builds once and returns the current aggregate; a successful build is written under `origin + "/data.json"` with the current time, and a failed build writes nothing; every cached entry stays the aggregate of the namespaces it was built from |
| CacheAside.Worker.HandleOrgJson | worker.js:100-115 | the names-only view is the name filter applied to the served aggregate, or the build's failure; it builds only when the request misses the cache; the cache afterwards is as `GetAggregatedData` leaves it (unchanged on a hit or a failed build, the new aggregate under the shared key on a successful rebuild) |
| CacheAside.Worker.HandleCsvExport | worker.js:120-135 | the export view is the CSV of the served aggregate, or the build's failure; it builds only when the request misses the cache; the cache afterwards is as `GetAggregatedData` leaves it (unchanged on a hit or a failed build, the new aggregate under the shared key on a successful rebuild) |
| CacheAside.SecondReadWithinTtl | worker.js:147-179 | after a request that rebuilt successfully, a non-forced request within 3600 s returns the same aggregate with no second build |
| CacheAside.ViewsShareTheEntry | worker.js:120-179 | a CSV export within 3600 s of a refreshed data request is the CSV of that request's aggregate, built once for both |
| CacheAside.CsvThenData | worker.js:120-179 | a data request within 3600 s of a refreshed CSV export gets the aggregate that export printed, built once for both |
| CacheAside.StaleWithinTtl | worker.js:147-179 | after the namespaces change, a non-forced request within 3600 s of a refresh still gets the aggregate of the old namespaces, and a forced refresh gets the aggregate of the new ones |
| PageScript.Window | worker.js:962-970 | with more than seven pages the middle window spans five pages within `1..totalPages`, contains the current page when it is valid, and is centred on it when it lies between 4 and `totalPages - 3`; below 4 it is pages 1 to 5, and above `totalPages - 3` the last five pages |
| PageScript.SmallPagination | worker.js:955-959 | with at most seven pages the bar is pages 1 to `totalPages` in order, with no ellipsis |
| PageScript.LargePagination | worker.js:960-991 | with more than seven pages the bar has 7 to 9 items; it starts at page 1 and ends at the last page; an ellipsis follows page 1 exactly when the window starts after page 2, and precedes the last page exactly when the window ends before `totalPages - 1`; every window page is shown |
| PageScript.PaginationShape | worker.js:953-991 | for any positive page count: the first and last pages are shown, page numbers strictly increase, every ellipsis stands for skipped pages, every skip is marked by an ellipsis, and a valid current page is shown |
| PageScript.WindowOf | worker.js:962-970 | the clamping and the two pull-ins compute five consecutive pages inside `1..totalPages` that hold a valid current page and are centred on it away from both ends |
| PageScript.AppendPages | worker.js:980-982 | the loop appends one button per page from `start` to `end`, in order, after what is already there |
| PageScript.BuildPaginationButtons | worker.js:937-993 | the loops that append buttons and ellipses produce exactly the bar above |
| PageScript.EscapeHtml | worker.js:1082-1090 | the escaped text is no shorter than the input and contains no `<`, `>`, `"` or `'` |
| PageScript.EscapeHtmlRoundTrip | worker.js:1082-1090 | decoding the five entities gives back the original text |
| PageScript.EscapeHtmlValue | worker.js:1080-1091 | a non-string value is returned unchanged; a string becomes exactly its `EscapeHtml` text, which decoding turns back into it |

## Left out

- Request routing, the binding checks, response headers and status codes, and the full-data view's `JSON.stringify` are left out. That view serves `GetAggregatedData`'s result verbatim. An error is modelled as the `BuildError` kind, not as its message text.
- Concurrency is left out. The per-key fetches under `Promise.allSettled` run one after another in key order. The background cache write of `event.waitUntil` is taken as done before the next request. Concurrent misses that rebuild the same entry are not modelled.
- CacheAside.Worker.GetAggregatedData: requests are taken to arrive in time order (`clock <= now`), as the wall clock of one deployment provides. A clock that runs backwards is not modelled. The handlers and the client methods inherit this precondition.
- The edge cache's eviction and a failing `cache.put` are left out. The model's cache keeps every written entry until it goes stale.
- The `JSON.stringify` / `response.json()` round trip of a cached aggregate is taken as the identity on rows.
- A `KV.get` call that throws (the logged `CRITICAL` branches) is left out. Its effect on the row would be the same as an absent key.
- A throwing `ORG_DATA.get("org_list")` (worker.js:193) is left out, because a map read cannot fail. The source catches it at worker.js:210 and fails the whole build at worker.js:212. `Aggregator.KeyList` has no such failure.
- The outer `catch` of `fetchDataForKey`, the `null` row it returns and the `rejected` branch of the aggregation are left out. None of them can be reached once `String(key)` and the property reads cannot throw. Keys whose `toString` throws are not modelled.
- JsonValues.JsString: every object prints as "[object Object]". A parsed object with an own `toString` key makes `String()` throw a `TypeError`: that key's value is never callable, and the inherited `valueOf` returns the object itself. An own `valueOf` key alone changes nothing, since the inherited `toString` still prints "[object Object]". The error arises both for a key and for a cell of the CSV export, where the thrown error turns the export into the error response of worker.js:131-133. The model has no such failure: its export always succeeds.
- JSON numbers are integers in the model. Fractions, the exponent form `String()` uses for very large numbers, and floating point are not modelled.
- JavaScript strings are sequences of UTF-16 code units, while the model's strings are sequences of characters. `?.[0]` on a string and `split('T')` (`RecordFetcher.DatePart`) are modelled per character.
- Only own properties are read. Prototype properties such as `length` on a string are not properties in the model.
- Logging (`console.*`) is left out, including the 150-character excerpts of unparsable payloads.
- The HTML template, the DOM, `sortData`, `buildStatsTable` (locale collation), the statistics cards, `displayPage` and the previous/next buttons of `setupPagination` are left out. The pagination bar is modelled as the list of items it appends.
- CsvExport.JsonToCsv: the export leaves a carriage return unquoted and separates lines with a bare newline. The model's CSV reader treats `'\r'` as an ordinary character, so the round trip is stated for that reader only.
