# list-builder-ai: a verified model of the parse and search pipeline

list-builder-ai turns a free-text build plan into a materials list and then prices that list against store products. This project models, in Dafny, the parts of the pipeline that decide what the user gets back:

- **The TTL memo cache** that both API routes keep (`TtlCache`). It is a map from key to `{value, expiresAt}`. Expiry is lazy: an entry is deleted when it is read after expiry. A write always overwrites. An entry with `expiresAt == now` is still served.
- **The parse endpoint** `POST /api` (`ParseRoute`, with `Fences` and `Normalization`). It derives the cache key from the plan and the model, reads the cache unless a bypass switch is set, and on a miss calls the language model. It then strips a Markdown code fence, parses the JSON leniently and normalises each element. Only a successful result is cached.
- **The search endpoint** `POST /api/home-depot` (`SearchRoute`). It keys every query by `{q, storeZip, storeId}`, serves live cache entries, searches the misses, writes every successful result and keeps the reply in query order. One failed search makes the whole reply an error.
- **The form component's data handling** (`Form`):
  - the blank-plan short-circuit;
  - `checked` defaulting and the checkbox toggle;
  - the search queries built from unchecked materials;
  - flattening search responses into display rows, with the prioritised thumbnail fallbacks.

Shared pieces live in their own modules:

- `Json`: parsed JSON values, and property access with JavaScript's `?.` semantics.
- `Text`: ECMAScript `trim`.
- `Seqs`: a map-then-filter, and a first-that-applies chain.
- `Wrappers`: `Option` and `Result`.

Both routes are modelled twice:

- A pure function `Handle` gives the reply, the cache afterwards, and what was sent to the external service, all as a function of the cache before the request.
- A method `Post` works on a `TtlCache.Cache` object through its `Read` and `Write` methods. It is proved to produce exactly what `Handle` describes.

The properties are proved as lemmas about `Handle`.

The external services, `JSON.parse` and the clock are parameters of the model:

- the language-model call is `llm`;
- the product search is `search`;
- `JSON.parse` is `parse`;
- the clock readings are `readNow`, `writeNow`, `readAt` and `doneAt`.

The search handler starts every query's callback before any result arrives. So every cache read of a batch happens before any write of that batch. Read `i` takes its own clock reading `readAt(i)`: an earlier read can delete an entry that was expired at its time, and a later copy of the same query can miss an entry that an earlier copy still hit. The search is `search(i, q, zip, id)`, one independent call per position, so two copies of a query may get different results. Each successful search `i` is written at its own completion time `doneAt(i)`.

## Model

Rows for request-path lemmas that carry `requires EnvSet(apiKey)` describe requests where the route's API key is set; without it both routes reply with the missing-key error first (`MissingKeyFailsFast`).

| member | source | states |
|---|---|---|
| TtlCache.Cache.Read | app/api/route.ts:14-22 | the value returned is the entry's value unless it is missing or expired (`expiresAt < now`); an expired entry read is deleted and nothing else changes |
| TtlCache.Cache.Write | app/api/route.ts:24-26 | the key's entry becomes `{value, now + ttl}`, overwriting any earlier one; other keys keep their entries |
| TtlCache.Cache.constructor | app/api/route.ts:12 | a new cache is empty and has the configured TTL |
| TtlCache.ReadAfterWrite | app/api/route.ts:14-26 | a value written at `t` is read back exactly at the times `now <= t + ttl`; the boundary instant is still a hit |
| TtlCache.ExpiredReadDeletes | app/api/home-depot/route.ts:17-23 | reading an expired entry returns nothing and removes that key and only that key |
| TtlCache.ReadWithoutDelete | app/api/home-depot/route.ts:17-25 | reading a missing key, or a live key, leaves the cache unchanged; a live key yields its value |
| TtlCache.WriteOverwrites | app/api/home-depot/route.ts:27-29 | a second write to a key replaces the first (last writer wins), and other keys are untouched |
| TtlCache.WriteTwiceIdempotent | app/api/route.ts:24-26 | writing the same value twice still reads back that value while the second write is live |
| TtlCache.PurgeAllKeeps | app/api/home-depot/route.ts:17-24 | after reading a sequence of keys, read `j` at its own time `at(j)`, exactly the keys expired at some read of them are gone, and every remaining entry is unchanged |
| TtlCache.LookupAfterPurgeAll | app/api/home-depot/route.ts:53-61 | reads taken at times no later than `now` never change what a read at `now` returns |
| TtlCache.Lookup | app/api/route.ts:14-22 | what `readCache` returns: the entry's value when the key is present and `expiresAt` is not before the read time, else nothing |
| TtlCache.Purge | app/api/route.ts:17-19 | the cache after `readCache`: the key's entry is deleted exactly when it is present and expired |
| TtlCache.Store | app/api/route.ts:24-26 | the cache after `writeCache`: the key maps to the value with expiry at the write time plus the TTL |
| TtlCache.PurgeAll | app/api/home-depot/route.ts:17-25 | the cache after a sequence of reads, read `j` taken at its own time |
| Endpoint.Bypass | app/api/route.ts:41-44 | the cache is bypassed when the `cache` query parameter is `"0"` or `"false"`, or the `x-cache-bust` header is `"1"`; the search route tests the same at app/api/home-depot/route.ts:44-47 |
| Endpoint.EnvSet | app/api/route.ts:32 | an environment variable counts as set when it is present and not the empty string |
| ParseRoute.NewCache | app/api/route.ts:8-12 | the parse cache starts empty with TTL 300000 ms unless a setting is given |
| ParseRoute.ResolveModel | app/api/route.ts:46 | the configured model when set and non-empty, otherwise "gpt-4o-mini" |
| ParseRoute.KeyInjective | app/api/route.ts:48 | two requests share a cache entry exactly when the plan and the model are both equal |
| ParseRoute.RawText | app/api/route.ts:71 | missing or empty model content is replaced by "[]"; otherwise the content is used as is |
| ParseRoute.ParsedOrEmpty | app/api/route.ts:80-86 | the parsed text, or `[]` when `JSON.parse` throws |
| ParseRoute.MaterialsFrom | app/api/route.ts:71-104 | the reply text of the model becomes the normalized list: fences stripped, parsed leniently, normalized |
| ParseRoute.Handle | app/api/route.ts:28-113 | the reply, the new cache and whether the model was called, as a function of the cache before the request |
| ParseRoute.Post | app/api/route.ts:28-107 | the reply, the new cache and whether the model was called are exactly those `Handle` gives for the cache before the call |
| ParseRoute.MissingKeyFailsFast | app/api/route.ts:32-37 | without an API key the reply is the error "Missing OPENAI_API_KEY", the cache is unchanged and the model is not called |
| ParseRoute.HitServesCache | app/api/route.ts:49-54 | a live entry without bypass is returned unchanged, without calling the model and without changing the cache |
| ParseRoute.MissWritesResult | app/api/route.ts:49-107 | on a miss or bypass the model is called; the normalised list is returned and stored under the key, readable until `writeNow + ttl`, provided the model call succeeds and its reply normalises without error (`FailureWritesNothing` covers the other case); every other key keeps exactly the entry it had, or stays absent |
| ParseRoute.BypassIgnoresCache | app/api/route.ts:39-54 | when the API key is set and the request carries `cache=0`, `cache=false` or `x-cache-bust: 1` the reply does not depend on the cache contents and the model is always called |
| ParseRoute.FailureWritesNothing | app/api/route.ts:106-112 | an error reply never adds or changes a cache entry |
| ParseRoute.LenientParse | app/api/route.ts:80-104 | a reply that `JSON.parse` rejects, or that is not an array, gives the empty list rather than an error |
| ParseRoute.FencedEmptyList | app/api/route.ts:71-104 | the reply ```` ```json\n[]\n``` ```` gives the empty list |
| Fences.StripUnfenced | app/api/route.ts:74-75 | a reply that, once trimmed, does not start with three backticks is parsed as its trimmed self |
| Fences.StripFencedBlock | app/api/route.ts:75-77 | a block made of three backticks, a letters-only tag, a newline, a body with no `\n```` inside, and the closing newline and backticks unwraps to the trimmed body |
| Fences.StripUnmatchedFence | app/api/route.ts:77 | when the text starts with a fence but the pattern matches nowhere, every triple backtick is removed and none remains |
| Fences.RemoveFencesClean | app/api/route.ts:77 | the global replacement leaves no three consecutive backticks anywhere |
| Fences.RemoveFencesIdentity | app/api/route.ts:77 | text without a triple backtick is left unchanged by the replacement |
| Fences.FirstClose | app/api/route.ts:76 | the lazy body ends at the earliest closing `\n```` after it starts, or the pattern fails when there is none |
| Fences.LetterRunEnd | app/api/route.ts:76 | the tag `[a-zA-Z]*` is the maximal run of ASCII letters |
| Fences.StripJsonEmptyList | app/api/route.ts:74-77 | ```` ```json\n[]\n``` ```` is unwrapped to `[]` |
| Fences.StripFences | app/api/route.ts:74-78 | the text is trimmed; when it then starts with a triple backtick, the trimmed body of the first fenced block is taken, or else every triple backtick is removed |
| Fences.FenceMatch | app/api/route.ts:76 | the first position from which the fence pattern matches, with its captured body |
| Fences.MatchAt | app/api/route.ts:76 | the fence pattern at one position: three backticks, a run of letters, a newline, then the shortest body before a newline and three backticks |
| Fences.RemoveFences | app/api/route.ts:77 | `replace(/```/g, "")`: every non-overlapping triple backtick, scanning left to right, is removed |
| Normalization.KeepNumeric | app/api/route.ts:94 | `replace(/[^0-9.]/g, "")` keeps only digits and dots, each taken from the input |
| Normalization.KeepNumericIdentity | app/api/route.ts:94 | a string of digits and dots is unchanged by the replacement |
| Normalization.KeepNumericAppend | app/api/route.ts:94 | the replacement works character by character, so it distributes over concatenation |
| Normalization.ParseDecimal | app/api/route.ts:94-95 | `parseFloat` on digits and dots is NaN exactly when no digit starts the literal (empty, or a dot not followed by a digit) |
| Normalization.QuantityOfDigits | app/api/route.ts:93-95 | a quantity string of decimal digits becomes the number it denotes |
| Normalization.QuantityWithUnit | app/api/route.ts:93-95 | digits followed by a unit with no digit or dot (as in "12 pcs") become the value of the digits |
| Normalization.QuantityWithoutDigits | app/api/route.ts:93-95 | a quantity string without digits falls back to 1 |
| Normalization.NormalizeAllSpec | app/api/route.ts:89-104 | one normalised element per input element, in order, unless an element is `null`, in which case the map fails with the TypeError message |
| Normalization.Normalize | app/api/route.ts:89-104 | a parsed value that is not an array normalises to the empty list |
| Normalization.NormalizeOneFields | app/api/route.ts:91-102 | `item` is the first non-nullish of `item`, `item_name`, `name`, else ""; `details` likewise over `details`, `length`, `size`; `total` and `price` pass through |
| Normalization.StudExample | app/api/route.ts:90-102 | {"item_name":"2x4 stud","quantity":"12 pcs","size":"8ft"} becomes item "2x4 stud", quantity 12, details "8ft" |
| Normalization.NailsExample | app/api/route.ts:92-95 | a quantity of "abc" becomes 1 |
| Normalization.QuantityFromText | app/api/route.ts:94-95 | a string quantity keeps only its digits and dots and is parsed as `parseFloat` reads it; when that gives no number the quantity is 1 |
| Normalization.Quantity | app/api/route.ts:92-98 | a number quantity is kept, a string one is read as text, anything else is 1 |
| Normalization.Coalesce | app/api/route.ts:91 | the first of the named properties that is neither missing nor `null`, else the fallback; `details` is chosen the same way |
| Normalization.NormalizeOne | app/api/route.ts:90-103 | one parsed element becomes `{item, quantity, details, total, price}` |
| Normalization.NormalizeAll | app/api/route.ts:89-104 | every element is normalized in order; a `null` element makes the handler fail, as `m.item` on `null` throws |
| SearchRoute.NewCache | app/api/home-depot/route.ts:11-15 | the search cache starts empty with TTL 3600000 ms unless a setting is given |
| SearchRoute.Queries | app/api/home-depot/route.ts:49-54 | the elements of `parsedItems` when it is an array, else no queries |
| SearchRoute.KeyInjective | app/api/home-depot/route.ts:55 | two queries share a cache entry exactly when query, zip and store id are all equal |
| SearchRoute.Probes | app/api/home-depot/route.ts:56-61 | the result of read `i`, unless bypassed: a lookup at `readAt(i)` in the cache left by the reads before it |
| SearchRoute.AfterProbes | app/api/home-depot/route.ts:17-25 | the cache after all the reads of a batch, unchanged under bypass |
| SearchRoute.Outcomes | app/api/home-depot/route.ts:56-73 | each query's outcome: the value of its hit, or the result of its own search |
| SearchRoute.Asked | app/api/home-depot/route.ts:63-70 | the queries handed to the search, in order: those that missed |
| SearchRoute.StoreFetched | app/api/home-depot/route.ts:72 | the cache after the writes: each successful search `i` is stored at `doneAt(i)`, in query order |
| SearchRoute.Collect | app/api/home-depot/route.ts:53-75 | `Promise.all` fails exactly when some search failed, reporting the first failure in query order; otherwise it gives every value in query order |
| SearchRoute.ReadAll | app/api/home-depot/route.ts:17-25 | phase one reads key `i` at `readAt(i)`, in order, unless bypassed; each read sees the cache left by the earlier reads, and the cache is left with every entry deleted that was expired at some read of its key |
| SearchRoute.ProbeFromStart | app/api/home-depot/route.ts:17-25 | with a clock that does not go backwards, read `i` gives what a read of the cache as it was at the start of the request gives at `readAt(i)` |
| SearchRoute.FetchAll | app/api/home-depot/route.ts:63-73 | phase two answers hits from their read, searches the misses in query order, and writes each successful result at its completion time |
| SearchRoute.Post | app/api/home-depot/route.ts:31-82 | the reply, the new cache and the queries searched are exactly those `Handle` gives for the cache before the call |
| SearchRoute.MissingKeyFailsFast | app/api/home-depot/route.ts:33-38 | without an API key the reply is "Missing SERPAPI_KEY", the cache is unchanged and nothing is searched |
| SearchRoute.EmptyShortCircuit | app/api/home-depot/route.ts:49-51 | `parsedItems` that is not an array, or is empty, gives `[]` without reading the cache or searching |
| SearchRoute.ResultsInOrder | app/api/home-depot/route.ts:53-77 | a successful reply has one value per query, in query order: the live cached value on a hit, otherwise that query's unmodified search result |
| SearchRoute.AnyFailureFailsBatch | app/api/home-depot/route.ts:53-81 | the reply is an error exactly when some query missed and its search failed, and the error is that of the first such query |
| SearchRoute.AskedMissed | app/api/home-depot/route.ts:56-63 | every query handed to the search missed the cache |
| SearchRoute.LiveHitNotSearched | app/api/home-depot/route.ts:56-61 | a query whose read finds a live entry, without bypass, is answered with that entry's value and costs no search call |
| SearchRoute.AskedSkipsHit | app/api/home-depot/route.ts:56-63 | a hit among the first `n` queries means fewer than `n` search calls |
| SearchRoute.AskedAtMost | app/api/home-depot/route.ts:63-70 | at most one search call per query |
| SearchRoute.ExpiredBetweenDuplicates | app/api/home-depot/route.ts:17-25 | when an entry expires between the reads of two copies of a query, the earlier copy is a hit and the later one is searched |
| SearchRoute.AskedCount | app/api/home-depot/route.ts:56-70 | two missed queries mean at least two search calls |
| SearchRoute.AskedMonotone | app/api/home-depot/route.ts:63-70 | the number of search calls never decreases along the batch |
| SearchRoute.DuplicatesBothMiss | app/api/home-depot/route.ts:53-75 | two copies of a query not cached at the first copy's read both miss and both get their own search result |
| SearchRoute.AskedGrows | app/api/home-depot/route.ts:63-70 | each miss adds one search call |
| SearchRoute.StoreFetchedUntouched | app/api/home-depot/route.ts:72 | keys that no successful search wrote keep their entries: hits and failed searches write nothing |
| SearchRoute.StoreFetchedLatest | app/api/home-depot/route.ts:72 | a successful search is stored under its key with expiry at its completion time plus the TTL, unless a later copy of the key overwrites it |
| SearchRoute.FetchedIsWritten | app/api/home-depot/route.ts:63-73 | the raw result of a missed query's successful search can be read back under its key until its completion time plus the TTL, provided no later copy of the query is in the batch (a later copy's write would overwrite it), even when the reply is an error |
| SearchRoute.BypassIgnoresCache | app/api/home-depot/route.ts:42-61 | under bypass the reply and the searches made do not depend on the cache contents |
| SearchRoute.Handle | app/api/home-depot/route.ts:31-82 | the reply, the new cache and the queries searched, as a function of the cache before the request |
| Json.Prop | components/form/index.tsx:73-79 | `v?.name` gives an object's own property value, or `undefined` when it has none; on strings and arrays `length` gives the length and any other name `undefined`; on `null`, numbers and booleans it is `undefined` |
| Json.Truthy | components/form/index.tsx:75 | JavaScript truthiness: `null`, `false`, `0` and `""` are falsy, every other value (arrays and objects included) is truthy |
| Json.Nullish | app/api/route.ts:91 | what `??` skips: a missing property or `null` |
| Form.Submit | components/form/index.tsx:28-37 | a blank or whitespace-only plan clears the list and sends nothing; any other plan is sent exactly as typed |
| Form.WithDefaultChecked | components/form/index.tsx:46 | every material keeps its fields and `checked` value; a missing `checked` becomes false |
| Form.Toggle | components/form/index.tsx:117 | only material `i` changes, and only its `checked`, which becomes the box's state; the length is kept |
| Form.QueriesFollowUnchecked | components/form/index.tsx:59 | there is one query per unchecked material, in material order, and each is the trimmed "quantity item details" of that material |
| Form.AllCheckedNoQueries | components/form/index.tsx:59 | when every material is checked nothing is searched |
| Form.ThumbnailIsChain | components/form/index.tsx:80-85 | the prioritised thumbnail candidates give the same value as the source's `\|\|` chain: a non-empty `thumbnail` string, a non-empty `image` string, a truthy first `images`, a truthy first `thumbnails`, else null |
| Form.ThumbnailTruthyOrNull | components/form/index.tsx:80-85 | the thumbnail is null or a truthy value |
| Form.FlattenNotArray | components/form/index.tsx:71 | a response that is not an array flattens to no rows |
| Form.FlattenKeepsOrder | components/form/index.tsx:71-90 | at most one row per response, in response order, and no response that yields a row is dropped |
| Form.KeptRowFields | components/form/index.tsx:73-88 | a kept row comes from a first product that is an object with truthy `title` and `link`, and carries them, its `price` and its thumbnail |
| Form.Unchecked | components/form/index.tsx:59 | `!m.checked`: a material is searched unless `checked` is true |
| Form.Products | components/form/index.tsx:73 | the `products` array of a response, or none when it is not an array |
| Form.StringProbe | components/form/index.tsx:81-82 | a thumbnail candidate that is a non-empty string property |
| Form.HeadProbe | components/form/index.tsx:83-84 | a thumbnail candidate that is the truthy first element of a non-empty array property |
| Form.ThumbnailChain | components/form/index.tsx:80-85 | the `\|\|` chain of the four candidates, ending in `null`, written out as in the source |
| Form.QueryOf | components/form/index.tsx:59 | the search query of a material: quantity, item and details (empty when nullish) joined by spaces, then trimmed |
| Form.SearchQueries | components/form/index.tsx:59 | the queries of the unchecked materials, in order |
| Form.Thumbnail | components/form/index.tsx:80-85 | the first thumbnail candidate that applies, else `null` |
| Form.FlattenEntry | components/form/index.tsx:72-89 | one response becomes a row when its first product has a truthy `title` and `link`, else nothing |
| Form.Flatten | components/form/index.tsx:71-90 | the rows of all responses, in order, with the empty ones dropped |
| Seqs.FilterMapOrder | components/form/index.tsx:71-90 | map-then-filter keeps exactly the accepted positions, each once, in their original order |
| Seqs.FilterMap | components/form/index.tsx:71-90 | map each element to a row or nothing, then drop the nothings, keeping order; the same steps build the queries at components/form/index.tsx:59 |
| Seqs.FirstSome | app/api/route.ts:91 | a fallback chain yields the first candidate that applies, and nothing exactly when none does |
| Text.TrimShape | app/api/route.ts:74 | `trim` returns the slice between a whitespace prefix and a whitespace suffix, and that slice neither starts nor ends with whitespace |
| Text.TrimBlank | components/form/index.tsx:29 | a string trims to nothing exactly when it is all whitespace |
| Text.IsWhitespace | app/api/route.ts:74 | the characters `trim` removes: ECMAScript's WhiteSpace and LineTerminator code points |
| Text.TrimStart | app/api/route.ts:74 | leading whitespace removed |
| Text.TrimEnd | app/api/route.ts:74 | trailing whitespace removed |
| Text.Trim | app/api/route.ts:74 | `String.prototype.trim`: leading and trailing whitespace removed |
| Text.TrimEndShape | app/api/route.ts:74 | `trimEnd` keeps a prefix that does not end with whitespace and drops only whitespace |
| Text.TrimUnpadded | app/api/route.ts:74 | a string that neither starts nor ends with whitespace trims to itself |

## Left out

- Cache keys are datatypes compared structurally, not the strings `JSON.stringify` builds. Two equal objects whose properties come in different orders stringify differently. So where a query is an object, the source can miss where the model hits. Numbers can go the other way, as the floating-point line below says.
- The language-model call, the product search, `JSON.parse` and `Date.now` are parameters. The prompt text, temperature, engine name, `country: "us"` and the API key sent to the search are not modelled.
- A request body that `req.json()` cannot decode is not modelled, nor are body fields of the wrong type. In the parse route that failure would happen before the API-key check.
- The TTL settings are natural numbers. `Number.parseInt` of the environment variables, and a negative or NaN TTL, are not modelled.
- Floating point is not modelled. Numbers are exact reals: `parseFloat` has no rounding and never overflows to Infinity, so the `Number.isFinite` guard only sees NaN. `JSON.parse` rounds as well: `1e400` becomes `Infinity`, which `JSON.stringify` writes as `null`, so the queries `1e400` and `null` share a search cache key in the source; `0.1` and `0.10000000000000001` parse to the same double and share one too. The model keeps these apart, so there the source hits where the model misses.
- String lengths count Unicode scalar values, not UTF-16 code units. This affects the `length` fallback for `details` on string elements.
- Concurrent requests are not modelled. Each `Handle` and `Post` runs alone against the cache: in the parse route nothing else touches the cache between the read at `readNow` and the write at `writeNow`, although an `await` on the model call lies between them (app/api/route.ts:50-106); in the search route the same holds between the reads and the writes. So two simultaneous requests that both miss and both call the service, each then writing, are outside the model.
- Lemmas about the search route that relate reads to the cache at the start of the request require `Monotone(readAt, n)`, a clock that does not go backwards. `Handle` and `Post` agree for any `readAt`.
- SearchRoute.Collect: when several searches fail, the model reports the failure of the first failed query in query order. The source reports whichever rejection settles first, which depends on timing.
- SearchRoute.FetchAll: searches are modelled as finishing in query order. With concurrent completion, the write order of duplicate keys in one batch is nondeterministic. The model writes them in query order, so the last copy wins.
- SearchRoute.Post: every successful search of a batch is written, even when the batch fails. The source keeps running the other callbacks after `Promise.all` rejects, so their writes still happen, but after the reply has been sent.
- Form.QueryOf: the conversion of a value to a string in a template literal is the parameter `str`. JavaScript's number formatting and `String` conversion of objects and arrays are not modelled.
- The `checked` field is `Option<bool>`. A JSON `null` in `checked` (which `??` also replaces by false) is not modelled.
- The React state, rendering and the fetch calls of the form are not modelled. This includes the `p.thumbnail[0]` image source, the "No items parsed yet" notice and the price total computed with `parseFloat`.
- HTTP status codes appear only as `Ok` (200) versus `Err` (500). Logging is not modelled.
- app/page.tsx and components/table/index.tsx are not part of this model.
