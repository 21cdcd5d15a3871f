# couchdb4j `View` query options, in Dafny

A model of the `View` class of couchdb4j (`src/java/com/fourspaces/couchdb/View.java`).
A `View` names a CouchDB view (optionally inside a design document). Before the
view is queried, its setters collect query options (`key`, `startkey`, `endkey`,
`limit`, `skip`, `descending`, `group`, `update`) in a mutable map. `getQueryString`
turns that map into the `k=v&k=v` text appended to the HTTP request.

Files and modules:

- `wrappers.dfy`, module `Wrappers`: `Option`, which stands for a Java reference that may be null.
- `decimal.dfy`, module `Decimal`: Java `int` (`Int32`) and `String.valueOf(int)` (`ToDecimal`).
  Its partner `ParseDecimal` reads the text back.
- `query.dfy`, module `Query`: the query-string renderer as functions over the option map.
  It covers which entries are rendered (`RenderedKeys`), the pairs emitted (`Segments`)
  and the `&` separator (`Join`). `Split` undoes `Join` only when no pair contains `&`.
  Values are appended without URL-encoding, so a value such as `&` (after
  `setStartKey("&")`) renders as `startkey=&`, which ends in a separator
  (`AmpersandValueBreaksSplit`).
- `options.dfy`, module `ViewOptions`: each setter call as a value `Setter`.
  A `Setter` knows the one option it names (`OptionName`) and what it writes there (`WriteOf`:
  a value, possibly null, or a removal). `Apply` gives the map after one call and
  `ApplyAll` after a sequence of calls. Lemmas cover the deprecated aliases,
  last-write-wins, and the rule that a boolean option is present only while true.
- `view.dfy`, module `CouchView`: the class `View`. Its fields are `name`, `document`,
  `definition` (the source's `function`) and `queryParams`. Each setter updates
  `queryParams` in place and may modify nothing else (`modifies this`queryParams`).
  Each setter ensures `queryParams == Apply(old(queryParams), <its call>)` and preserves `Valid()`.
  `GetQueryString` is the source's loop over the entries, proved equal to `Query.QueryString`.

A Java `null` value in the option map is `None`. It is reachable through `setStartKey(null)` and
`setEndKey(null)`, and the renderer skips it. `HashMap` iteration order is unspecified, so
`GetQueryString` takes the visiting order as a parameter. The parameter can be any sequence that
lists each key exactly once (`Query.Enumerates`). The properties of the result are then stated
independently of that order: which pairs appear, that each appears once, where the separators
stand, and when the result is null.

Where the documentation and the code disagree, the model follows the code: the doc
comment of `getFullName` promises `docid:name`, but the code joins with `/`.

The order of the pairs in the query string follows `HashMap`'s unspecified iteration
order, which depends on the insertion history.

## Model

| member | source | states |
|---|---|---|
| `CouchView.View.constructor` | src/java/com/fourspaces/couchdb/View.java:49-52 | stores the document (possibly null) and the name; no function definition; empty, well-formed option map |
| `CouchView.View.FromFullName` | src/java/com/fourspaces/couchdb/View.java:59-62 | a view with only a full name: null document, null function, empty option map |
| `CouchView.View.WithDefinition` | src/java/com/fourspaces/couchdb/View.java:75-79 | stores document, name and function definition; empty option map |
| `CouchView.View.GetQueryString` | src/java/com/fourspaces/couchdb/View.java:88-105 | the loop over the entries (appending `&` only when the buffer is non-empty, null for an empty buffer) yields exactly `Query.QueryString` for the visiting order |
| `CouchView.View.SetKey` | src/java/com/fourspaces/couchdb/View.java:107-112 | the map gains `key` mapped to the quoted key, every other entry unchanged, well-formedness kept |
| `CouchView.View.SetSingleStartKey` | src/java/com/fourspaces/couchdb/View.java:119-125 | stores the one-element array `["s"]` under `startkey` by calling `SetStartKey`; nothing else changes |
| `CouchView.View.SetStartKey` | src/java/com/fourspaces/couchdb/View.java:131-133 | stores the given value (null included) under `startkey`; nothing else changes |
| `CouchView.View.SetSingleEndKey` | src/java/com/fourspaces/couchdb/View.java:140-146 | stores `["s"]` under `endkey` by calling `SetEndKey`; nothing else changes |
| `CouchView.View.SetEndKey` | src/java/com/fourspaces/couchdb/View.java:152-154 | stores the given value (null included) under `endkey`; nothing else changes |
| `CouchView.View.SetCount` | src/java/com/fourspaces/couchdb/View.java:162-165 | delegates to `SetLimit`: the same new map as `Limit(count)` (see `DeprecatedAliases`) |
| `CouchView.View.SetLimit` | src/java/com/fourspaces/couchdb/View.java:167-169 | stores the decimal text of the number under `limit`, overwriting any earlier value |
| `CouchView.View.SetReverse` | src/java/com/fourspaces/couchdb/View.java:177-179 | delegates to `SetDescending`: the same new map as `Descending(reverse)` |
| `CouchView.View.SetDescending` | src/java/com/fourspaces/couchdb/View.java:181-183 | `descending` becomes `"true"` when set, and is removed when cleared |
| `CouchView.View.SetGroup` | src/java/com/fourspaces/couchdb/View.java:185-187 | `group` becomes `"true"` when set, and is removed when cleared |
| `CouchView.View.SetSkip` | src/java/com/fourspaces/couchdb/View.java:194-196 | stores the decimal text of the number under `skip`, overwriting any earlier value |
| `CouchView.View.SetUpdate` | src/java/com/fourspaces/couchdb/View.java:203-205 | `update` becomes `"true"` when set, and is removed when cleared |
| `CouchView.View.GetName` | src/java/com/fourspaces/couchdb/View.java:212-214 | returns the view's name, without the document id |
| `CouchView.View.GetFullName` | src/java/com/fourspaces/couchdb/View.java:222-225 | with no document the result is the name. Otherwise it is the document's view id, then `/`, then the name |
| `CouchView.View.GetFunction` | src/java/com/fourspaces/couchdb/View.java:232-234 | returns the function definition, null unless the view was built with one |
| `CouchView.View.SetBooleanParameter` | src/java/com/fourspaces/couchdb/View.java:236-242 | true: the parameter is present with value `"true"`. False: the parameter is absent. Nothing else changes |
| `ViewOptions.Setter.OptionName` | src/java/com/fourspaces/couchdb/View.java:107-205 | every setter names one of the eight known options; it names a boolean option exactly when it is a boolean setter |
| `ViewOptions.QuoteKey` | src/java/com/fourspaces/couchdb/View.java:107-112 | the stored key always starts with `"`. A key already starting with `"` is kept. Any other key is wrapped in quotes, with the original text between them |
| `ViewOptions.SingleKeyArray` | src/java/com/fourspaces/couchdb/View.java:119-125 | the single key reads `["`, then the key, then `"]` |
| `ViewOptions.Apply` | src/java/com/fourspaces/couchdb/View.java:107-205 | a setter call changes only its own option. The option is present afterwards exactly when the call puts rather than removes. Well-formedness is preserved |
| `ViewOptions.KeyQuotingIdempotent` | src/java/com/fourspaces/couchdb/View.java:107-112 | calling `setKey` again with the stored value leaves the map unchanged |
| `ViewOptions.SingleKeysAreArrays` | src/java/com/fourspaces/couchdb/View.java:119-146 | the single-key setters store `["s"]`. They act exactly as the string setters given that text |
| `ViewOptions.BooleanPresentIffTrue` | src/java/com/fourspaces/couchdb/View.java:236-242 | after a boolean setter, its option is present iff the flag is true, and then holds `"true"` |
| `ViewOptions.DeprecatedAliases` | src/java/com/fourspaces/couchdb/View.java:162-183 | `setCount` equals `setLimit` and `setReverse` equals `setDescending` on every map; only `limit` / `descending` are written |
| `ViewOptions.NumbersReadBack` | src/java/com/fourspaces/couchdb/View.java:167-196 | the text stored by `setLimit` / `setSkip` parses back to exactly the number given |
| `ViewOptions.LastWriteWins` | src/java/com/fourspaces/couchdb/View.java:107-205 | of two calls on the same option, the second decides the map |
| `ViewOptions.DistinctOptionsCommute` | src/java/com/fourspaces/couchdb/View.java:107-205 | calls on different options commute |
| `ViewOptions.ApplyAllLastWrite` | src/java/com/fourspaces/couchdb/View.java:107-205 | after any sequence of calls, each option holds what the last call naming it wrote. With no such call it keeps its old entry |
| `ViewOptions.ApplyAllWellFormed` | src/java/com/fourspaces/couchdb/View.java:181-242 | any sequence of calls keeps the map well formed: only known options, boolean ones only as `"true"` |
| `ViewOptions.RenderedAfterCalls` | src/java/com/fourspaces/couchdb/View.java:88-105 | on a fresh view, after any calls, option `k` is rendered iff the last call naming `k` stored a non-null, non-empty value |
| `Query.RenderedKeys` | src/java/com/fourspaces/couchdb/View.java:91-100 | the keys rendered are exactly the visited keys with a non-null, non-empty value. Each is rendered once |
| `Query.SegmentsAreRenderedPairs` | src/java/com/fourspaces/couchdb/View.java:91-100 | the i-th emitted pair is `key=value` of the i-th rendered key: one pair per rendered entry |
| `Query.QueryStringAbsentIff` | src/java/com/fourspaces/couchdb/View.java:88-105 | the result is null exactly when no entry has a non-null, non-empty value |
| `Query.QueryStringSplits` | src/java/com/fourspaces/couchdb/View.java:93-98 | with `&`-free keys and values, splitting the result at `&` gives back exactly the emitted pairs. So there is no leading, trailing or doubled separator |
| `Query.AmpersandValueBreaksSplit` | src/java/com/fourspaces/couchdb/View.java:96-98 | values are not URL-encoded: a single option with value `&` renders `key=&`, which splits at `&` into two pieces rather than the one pair, so `QueryStringSplits` needs its `&`-free requirement |
| `Query.SplitJoin` | src/java/com/fourspaces/couchdb/View.java:93-98 | joining `&`-free pairs with `&` and splitting again is the identity |
| `Decimal.ToDecimal` | src/java/com/fourspaces/couchdb/View.java:168 | the stored number text is non-empty, has no `&` or `=`, and starts with `-` exactly for negative numbers |
| `Decimal.DecimalRoundTrip` | src/java/com/fourspaces/couchdb/View.java:167-169 | reading the decimal text back gives the number |

## Left out

- The `JSONArray` overloads `setStartKey(JSONArray)` and `setEndKey(JSONArray)` are not modelled. They only pass `JSONArray.toString()` of the json-lib library, whose output format is not part of this model, to the string setters.
- `Document` is not part of this model. Only the id its `getViewDocumentId()` returns is used, as the opaque string field `Document.viewDocumentId`.
- The concrete `HashMap` iteration order is not modelled. `GetQueryString` takes an arbitrary enumeration of the keys instead.
- Null arguments are not modelled: the parameters are non-null types. In the source, `setKey(null)` and a null `Boolean` throw `NullPointerException`. `setLimit(null)` / `setCount(null)` store the text `"null"`. With a null view name, `getFullName` returns null when there is no document, and text ending in `/null` when there is one.
- SetSingleStartKey, SetSingleEndKey: the `else` branch, taken when `queryParams` is null, is not modelled. It would call `setStartKey((String) null)` / `setEndKey((String) null)`, whose `queryParams.put` would throw `NullPointerException` on the null map, so it would store nothing. The field is initialised at construction and never reassigned, so that branch cannot run.
- How the query string and full name are used in HTTP requests is not modelled (network I/O, not part of this model).
