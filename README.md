# corsico core, modelled in Dafny

corsico is a small caching proxy for a single supported upstream URL. Its
core is three Koa middlewares in `index.js`:

- **the route handler** (`router`, `index.js:45-77`):
  - It answers `/favicon.ico` with 404, serves a help page on `/`, and
    rejects any other path except `/<supported>` with 501.
  - On the supported path it normalises the query. It replaces a missing,
    empty or too large first `limit` with the configured ceiling, then
    sorts the parameters by name (a stable sort).
  - It uses the serialised query both as the cache key and as the
    upstream query.
  - It peeks at the cache. On a hit it serves the stored bytes with their
    `content-encoding` and no further compression. On a miss it arms the
    capture with the key and streams the upstream response.
- **the capture** (`cacheStore`, `index.js:27-33`): after the rest of the
  chain has run, if `ctx.key` is truthy and the body is a stream, it
  collects the stream's `data` chunks. On `end` it stores their
  concatenation, with the response's `content-encoding`, under the key.
- **the Brotli filter** (`isBrotli` / `brotliFirst`, `index.js:35-42`):
  a request whose `accept-encoding` lists `br` among its comma-separated,
  trimmed entries gets that header replaced by `br` alone.

Modules, one per file:

| module | file | what it holds |
|---|---|---|
| `Common` | `common.dfy` | `Option`, `Result`, `byte`, map lookup, JavaScript truthiness of an optional string |
| `JsString` | `js_string.dfy` | `String.prototype.trim` (ECMAScript white space), `split` with a one-character separator, and the `join` that undoes it |
| `JsNumber` | `js_number.dfy` | the string-to-number coercion done by `queryLimit > limit` (the StringNumericLiteral grammar of ECMA-262, section 7.1.4.1.1), the comparison, and `String(n)` for a safe integer |
| `SearchParams` | `search_params.dfy` | WHATWG `URLSearchParams` `get`, `set`, `sort` and serialisation, as functions on a list of name/value pairs and as the in-place `ParamList` class |
| `Cache` | `cache.dfy` | the cache entry and the `Lru` class with `peek` and `set` |
| `Koa` | `koa.dfy` | the request context fields the core reads and writes |
| `Routing`, `ClampExamples` | `routing.dfy` | `Route` (path checks and key), `Decide` (hit/miss), the `Router` class whose `Handle` method is the route handler, and concrete `limit` values |
| `Capture` | `capture.dfy` | the response stream as a trace of `Data`/`End` events, the `Replay` specification, and the `CacheStore` method with its loop |
| `Brotli`, `BrotliExamples` | `brotli.dfy` | `IsBrotli`, `PreferBrotli`, the `BrotliFirst` method, and concrete header values |
| `Pipeline` | `pipeline.dfy` | how the pieces behave on consecutive requests: a completed miss makes the next equivalent request a hit |

Since the route handler mutates the request's `searchParams` and the
shared upstream URL in place, it is a method on the `Router` class.
Its contract ties the new state to the `Route` and `Decide` functions;
the lemmas prove what those functions promise. The capture is a loop
over the stream's events. `CacheStore`'s loop invariant ties the cache
after each step to the `Replay` function.

Two behaviours of the source are modelled as written:

- Only the first `limit` decides whether clamping happens. A request
  `?limit=5&limit=20000` keeps both values, and the upstream receives both
  (`Routing.OnlyFirstLimitChecked`).
- A non-numeric `limit` such as `ten` coerces to NaN. NaN is not above the
  ceiling, so the value is forwarded unchanged (`ClampExamples.NonNumericLimitKept`).

## Model

| member | source | states |
|---|---|---|
| `Common.Truthy` | index.js:28 | JavaScript truthiness of a string that may be `undefined`: both `undefined` and `""` are falsy; no `ensures` of its own: `ClampExamples.EmptyLimitClamped` states that a missing or empty `limit` is clamped, `Capture.GuardNoOp` that an empty key stores nothing, and `Brotli.AbsentNotBrotli` that an empty header is not Brotli |
| `JsString.IsWhiteSpace` | index.js:36 | the ECMAScript WhiteSpace and LineTerminator characters, which `trim()` removes and the `>` coercion ignores around a numeral; no `ensures` of its own: `TrimStart`, `TrimEnd`, `TrimRemovesWhiteSpace` and `TrimOfPadded` state that exactly these characters are trimmed |
| `JsString.TrimStart` | index.js:36 | the leading part `trim` drops is all white space, and what is left does not start with white space |
| `JsString.TrimEnd` | index.js:36 | the trailing part dropped is all white space, and what is left does not end with white space |
| `JsString.Trim` | index.js:36 | `trim()` yields a substring with no white space at either end |
| `JsString.TrimRemovesWhiteSpace` | index.js:36 | the input is its trim with white space only on either side |
| `JsString.TrimOfPadded` | index.js:36 | white space added around a trimmed string is exactly what `trim()` removes |
| `JsString.TrimOfTrimmed` | index.js:36 | a string without surrounding white space is its own trim |
| `JsString.Split` | index.js:36 | `split(',')` gives at least one field, and no field contains the separator |
| `JsString.JoinSplit` | index.js:36 | joining the fields of `split` gives back the original string |
| `JsString.SplitJoin` | index.js:36 | splitting a join of comma-free fields gives back the fields |
| `JsString.SplitField` | index.js:36 | a string without the separator is a single field |
| `JsString.SplitPrefix` | index.js:36 | a field followed by the separator splits off in front of the rest |
| `JsNumber.ToNumber` | index.js:66 | the coercion of `queryLimit` by `>`; no `ensures` of its own: `DigitsToNumber` and `ToNumberOfNatToString` state its value on digit runs, and the `ClampExamples` lemmas on exponent, hexadecimal, `Infinity`, signed and non-numeric text |
| `JsNumber.NumericLiteral` | index.js:66 | the StringNumericLiteral grammar after trimming; no `ensures` of its own: `DecimalLiteral` and the `ClampExamples` lemmas state which branch a literal takes |
| `JsNumber.NonDecimal` | index.js:66 | a hexadecimal, octal or binary literal after its prefix: at least one digit of the radix, else NaN; no `ensures` of its own: `ClampExamples.HexLimitClamped` reads `0x2711` through it |
| `JsNumber.Negate` | index.js:66 | a leading `-` negates the unsigned literal, NaN staying NaN; no `ensures` of its own: `ClampExamples.NegativeLimitKept` reads `-5` through it |
| `JsNumber.UnsignedDecimal` | index.js:66 | StrUnsignedDecimalLiteral: `Infinity`, or a mantissa with an optional exponent part; no `ensures` of its own: `UnsignedDecimalOfDigits` states it on digit runs, `ClampExamples.InfinityLimitClamped` on `Infinity`, and `ClampExamples.ExponentLimitClamped` and `NonNumericLimitKept` on text with an `e` |
| `JsNumber.ScaledMantissa` | index.js:66 | a mantissa times ten to a signed exponent, NaN if either part is malformed; no `ensures` of its own: `ClampExamples.ExponentLimitClamped` states `1e5` is 100000 and `ClampExamples.NonNumericLimitKept` that `ten` is NaN |
| `JsNumber.Mantissa` | index.js:66 | digits with an optional `.` and fraction, at least one digit in all; no `ensures` of its own: `MantissaOfDigits` states it on digit runs, and `NonNumericLimitKept` that a letter is no mantissa |
| `JsNumber.Exponent` | index.js:66 | the SignedInteger after `e`, with an optional sign; no `ensures` of its own: `ClampExamples.ExponentLimitClamped` reads the exponent `5` through it |
| `JsNumber.GreaterThan` | index.js:66 | `x > limit` with `limit` a number; no `ensures` of its own: `ClampExamples.NaNNotClamped` states that NaN compares false and `ClampExamples.AboveClamped` that a larger finite value compares true |
| `JsNumber.DigitValue` | index.js:66 | the value of a digit character is in range, and is decimal exactly for `0`-`9` |
| `JsNumber.NatToString` | index.js:66 | `String(limit)` is a non-empty run of decimal digits with no leading zero |
| `JsNumber.NatToStringValue` | index.js:66 | the numeral `String(n)` has the value `n` |
| `JsNumber.NatToStringOfValue` | index.js:66 | every digit string without leading zeros is `String()` of its value (the inverse direction) |
| `JsNumber.UnsignedDecimalOfDigits` | index.js:66 | a run of decimal digits is read as the unsigned decimal literal it spells |
| `JsNumber.DecimalLiteral` | index.js:66 | a literal that starts with a decimal digit, with a second one if it is longer, has no radix prefix and no sign, so it is read as an unsigned decimal literal |
| `JsNumber.DigitsToNumber` | index.js:66 | a `limit` written as decimal digits, leading zeros allowed, coerces to the value of those digits |
| `JsNumber.ToNumberOfNatToString` | index.js:66 | `String(limit)` read back by the `>` coercion is `limit`, so a clamped value is never above the ceiling |
| `SearchParams.Named` | index.js:64-67 | the pairs of one name are a subsequence carrying that name |
| `SearchParams.NamedAppend` | index.js:64-67 | filtering by name distributes over concatenation |
| `SearchParams.NamedEmpty` | index.js:65 | a name has no pairs exactly when no pair carries it |
| `SearchParams.NamedCount` | index.js:67 | the name filter keeps every occurrence of a pair with that name and nothing else |
| `SearchParams.NamedPermutation` | index.js:67 | permuted queries have permuted per-name pair lists |
| `SearchParams.NamedOfDistinct` | index.js:67 | with distinct names, each name has at most one pair |
| `SearchParams.PermutationOfDistinct` | index.js:67 | with distinct names, a permutation keeps each name's pairs |
| `SearchParams.FirstValue` | index.js:65 | `get(name)` is the value of the first pair with that name, `null` (None) if there is none |
| `SearchParams.FirstValueByName` | index.js:65 | `get` depends only on that name's pairs |
| `SearchParams.FirstIndex` | index.js:66 | the index of the first pair with a name, or the length when there is none |
| `SearchParams.Without` | index.js:66 | removing a name leaves no pair carrying it |
| `SearchParams.NamedWithout` | index.js:66 | removing a name leaves every other name's pairs as they were |
| `SearchParams.Assign` | index.js:66 | `search.set(n, v)`; no `ensures` of its own: `AssignNamed` states the pairs of every name afterwards and `AssignByName` that it respects per-name equality |
| `SearchParams.AssignNamed` | index.js:66 | after `set(n, v)`, `n` has exactly one pair `(n, v)` and every other name's pairs are unchanged |
| `SearchParams.AssignByName` | index.js:66 | `set` maps queries with equal per-name pairs to queries with equal per-name pairs |
| `SearchParams.NameLe` | index.js:67 | the name comparison of `sort()`: character by character, a proper prefix first; no `ensures` of its own: `NameLeReflexive`, `NameLeTotal`, `NameLeAntisymmetric` and `NameLeTransitive` state that it is a total order |
| `SearchParams.NameLeReflexive` | index.js:67 | the name order of `sort()` is reflexive |
| `SearchParams.NameLeTotal` | index.js:67 | the name order is total |
| `SearchParams.NameLeAntisymmetric` | index.js:67 | the name order is antisymmetric |
| `SearchParams.NameLeTransitive` | index.js:67 | the name order is transitive |
| `SearchParams.InsertByName` | index.js:67 | one insertion step grows the list by one, with the new pair or the old head in front |
| `SearchParams.SortByName` | index.js:67 | `sort()` keeps the length |
| `SearchParams.InsertSorted` | index.js:67 | inserting into a sorted list keeps it sorted |
| `SearchParams.InsertPermutation` | index.js:67 | insertion adds exactly the one pair |
| `SearchParams.InsertNamed` | index.js:67 | insertion places the new pair before later pairs of the same name |
| `SearchParams.SortSorted` | index.js:67 | `sort()` orders the pairs by name |
| `SearchParams.SortPermutation` | index.js:67 | `sort()` is a permutation |
| `SearchParams.SortStable` | index.js:67 | `sort()` is stable: each name's pairs keep their relative order |
| `SearchParams.SortedFirstLeast` | index.js:67 | the head of a sorted list has the least name |
| `SearchParams.SortedUnique` | index.js:67 | two sorted lists with the same pairs per name are equal |
| `SearchParams.SortByNameDetermined` | index.js:67 | the sorted result depends only on each name's pairs |
| `SearchParams.SortOfSorted` | index.js:67 | sorting an already sorted list changes nothing |
| `SearchParams.Serialize` | index.js:68-70 | the `name=value&…` text that becomes the key and the upstream query; no `ensures` of its own: `SerializeHasEquals` and the `Routing` key lemmas are stated over it |
| `SearchParams.SerializeHasEquals` | index.js:68-70 | a non-empty query serialises to a string containing `=` |
| `SearchParams.ParamList.Get` | index.js:65 | `searchParams.get` returns `FirstValue` of the current list |
| `SearchParams.ParamList.Set` | index.js:66 | `searchParams.set` replaces the list by `Assign` of the old one |
| `SearchParams.ParamList.Sort` | index.js:67 | `searchParams.sort` replaces the list by its stable sort |
| `SearchParams.ParamList.ToString` | index.js:68-70 | serialising returns `Serialize` of the list |
| `Cache.Lru.constructor` | index.js:22 | a new cache is empty |
| `Cache.Lru.Peek` | index.js:72 | `peek(key)` finds an entry exactly when the key is stored, and returns the stored entry |
| `Cache.Lru.Set` | index.js:32 | `set` stores the entry under the key and leaves every other key alone |
| `Routing.Status` | index.js:56-63 | the status `ctx.assert` throws: 404 for the favicon probe, 501 for an unsupported path; no `ensures` of its own: `FaviconFirst` and `UnsupportedPath` state which error carries which status |
| `Routing.Slice1` | index.js:62 | `.slice(1)`: everything after the first character, `""` for `""`; no `ensures` of its own: `UnsupportedPath` and `ProxiedTarget` state the path check through it |
| `Routing.Route` | index.js:55-71 | the path checks and the key; no `ensures` of its own: `FaviconFirst`, `UnsupportedPath`, `RootTarget` and `ProxiedTarget` state its result on each kind of path, and `RouteKeyTruthy` that its key is never empty |
| `Routing.Decide` | index.js:72-76 | the hit/miss dispatch; no `ensures` of its own: `Pipeline.MissArmsCapture`, `Pipeline.HelpPageNotCached`, `Pipeline.HitNotRecaptured` and `Pipeline.HitAfterCommit` state its result |
| `Routing.NeedsClamp` | index.js:66 | `!queryLimit \|\| (queryLimit > limit)`; no `ensures` of its own: `NormalizedLimitBounded` states that a normalised query never needs it, and the `ClampExamples` lemmas decide it for concrete values |
| `Routing.Clamp` | index.js:65-66 | the conditional `search.set('limit', limit)`; no `ensures` of its own: `ClampLimit` and `ClampByName` state its effect |
| `Routing.Normalize` | index.js:65-67 | the clamp followed by `sort()`; no `ensures` of its own: `ClampLimit`, `NormalizedSorted` and `NormalizeIdempotent` state its result |
| `Routing.ProxyKey` | index.js:68-70 | the key of the proxied path; no `ensures` of its own: `KeyDeterminism`, `KeyIgnoresOrder` and `ProxyKeyNotSentinel` state what it depends on and what it never is |
| `Routing.FaviconFirst` | index.js:56 | `/favicon.ico` is rejected with 404 before any other check |
| `Routing.UnsupportedPath` | index.js:62-63 | any other path besides `/` fails exactly when it is not `/<supported>`, with status 501 and the request URL and supported URL attached |
| `Routing.RootTarget` | index.js:58-60 | `/` has key `/`, type `text/html`, and the query untouched |
| `Routing.ClampLimit` | index.js:65-67 | when the first `limit` needs clamping, the normalised query has exactly one `limit`, equal to `String(limit)`; otherwise it is the sorted query; other names' pairs are kept |
| `Routing.NormalizedLimitBounded` | index.js:65-66 | after normalisation the first `limit` is present and does not need clamping again |
| `Routing.NormalizedSorted` | index.js:67 | the normalised query is sorted by name and is a permutation of the clamped one |
| `Routing.NormalizeIdempotent` | index.js:65-67 | normalising a normalised query changes nothing |
| `Routing.ClampByName` | index.js:65-66 | clamping preserves equality of per-name pairs |
| `Routing.KeyDeterminism` | index.js:64-70 | queries with the same pairs per name, in any interleaving of names, get the same cache key |
| `Routing.KeyIgnoresOrder` | index.js:64-70 | with distinct names, any permutation of the query gets the same key |
| `Routing.ProxyKeyNotSentinel` | index.js:66-70 | the proxied key is never empty and never `/`, so it cannot collide with the help page's key |
| `Routing.ProxiedTarget` | index.js:62-70 | the supported path succeeds with type `application/json`; its key is the serialisation of the sorted, clamped query, which keeps every other name's pairs |
| `Routing.RouteKeyTruthy` | index.js:57-75 | every successful route has a truthy key, so `ctx.key` is set on every miss; whether the capture is then armed depends on the body being a stream |
| `ClampExamples.NonNumericLimitKept` | index.js:66 | `limit=ten` coerces to NaN, is not above the ceiling, and is forwarded unchanged |
| `ClampExamples.EmptyLimitClamped` | index.js:66 | a missing `limit` and an empty one are both falsy and are clamped, whatever the ceiling |
| `ClampExamples.NaNNotClamped` | index.js:66 | a `limit` that coerces to NaN is never clamped, since `NaN > limit` is false |
| `ClampExamples.AboveClamped` | index.js:66 | a `limit` that coerces to a number above the ceiling is clamped |
| `ClampExamples.NotAboveKept` | index.js:66 | a non-empty `limit` that coerces to a number not above the ceiling is kept |
| `ClampExamples.ExponentLimitClamped` | index.js:66 | `limit=1e5` coerces to 100000 and is clamped to a ceiling of 10000 |
| `ClampExamples.HexLimitClamped` | index.js:66 | `limit=0x2711` coerces to 10001 and is clamped |
| `ClampExamples.InfinityLimitClamped` | index.js:66 | `limit=Infinity` coerces to +Infinity and is clamped |
| `ClampExamples.NegativeLimitKept` | index.js:66 | `limit=-5` coerces to -5, is not above the ceiling, and is forwarded unchanged |
| `Routing.OnlyFirstLimitChecked` | index.js:65-66 | with two `limit` values only the first is compared, and both are forwarded |
| `Routing.Router.constructor` | index.js:53 | the shared upstream URL starts with no query |
| `Routing.Router.Search` | index.js:68-70 | the `baseUrl.search` getter: `?` and the query, or `""` for an empty query; no `ensures` of its own: `Canonicalize` states that its `.slice(1)` is the key |
| `Routing.Router.Canonicalize` | index.js:64-70 | the request's query is clamped and sorted in place; the upstream query and the key are its serialisation |
| `Routing.Router.Dispatch` | index.js:72-76 | sets `compress`, `content-encoding`, `key` and `body` as `Decide` gives them from the peeked entry |
| `Routing.Router.Handle` | index.js:54-77 | the route handler: it throws the `Route` error and changes nothing on failure; on success it leaves the query, type, upstream URL, cache key and body as `Route` and `Decide` give them |
| `Koa.IsStream` | index.js:28 | `ctx.body.on` exists; no `ensures` of its own: `Capture.GuardNoOp` states that any other body is never stored |
| `Capture.Concat` | index.js:32 | `Buffer.concat`; no `ensures` of its own: `ConcatAppend` states that it lays the chunks end to end |
| `Capture.Chunks` | index.js:31 | the chunks the `data` listener collects; no `ensures` of its own: `ChunksAppend` states that it keeps them in stream order |
| `Capture.Armed` | index.js:28 | the guard of `cacheStore`; no `ensures` of its own: `GuardNoOp` states that nothing is stored without it, `Pipeline.MissArmsCapture` that a proxied miss has it |
| `Capture.Replay` | index.js:29-32 | the two listeners run over an event trace; no `ensures` of its own: `ReplayToEnd`, `NoEndNoCommit` and `OtherKeysKept` state its result, and `CacheStore`'s loop invariant ties the loop to it |
| `Capture.Captured` | index.js:28-32 | the cache after the whole stream; no `ensures` of its own: `GuardNoOp` and `CommitOnEnd` state its result |
| `Capture.CacheStore` | index.js:27-33 | the cache after the stream is `Captured` of the cache before it: unchanged unless armed, otherwise the event replay |
| `Capture.GuardNoOp` | index.js:28 | without a truthy key, or without a stream body, nothing is stored |
| `Capture.NoEndNoCommit` | index.js:31-32 | a stream that never ends stores nothing |
| `Capture.ReplayToEnd` | index.js:31-32 | the chunks before the first `end` are collected in order, and `end` stores their concatenation |
| `Capture.CommitOnEnd` | index.js:29-32 | a stream with one `end` stores exactly the concatenation of its earlier chunks, with the encoding read when capture began, and nothing else |
| `Capture.OtherKeysKept` | index.js:32 | capture writes only under its own key |
| `Capture.ConcatAppend` | index.js:32 | `Buffer.concat` of two chunk lists is the concatenation of their results |
| `Capture.ChunksAppend` | index.js:31 | the `data` chunks of a stream cut in two are those of the first part followed by those of the second |
| `Capture.StoredBytesSplit` | index.js:31-32 | the bytes stored for a stream cut in two are the first part's bytes followed by the second's |
| `Brotli.IsBrotli` | index.js:35-36 | `isBrotli`; no `ensures` of its own: `IsBrotliListed` states it in both directions, and `AbsentNotBrotli` for a missing or empty header |
| `Brotli.PreferBrotli` | index.js:40 | the request headers after the filter; no `ensures` of its own: `PreferBrotliIdempotent` and `PreferBrotliNarrows` state its properties, and `BrotliFirst`'s `ensures` ties the method to it |
| `Brotli.Tokens` | index.js:35-36 | the header has at least one entry, each trimmed |
| `Brotli.BrotliFirst` | index.js:39-42 | replaces the request headers by `PreferBrotli` of the old ones; nothing else changes |
| `Brotli.TrimIsBr` | index.js:36 | an entry trims to `br` exactly when it is `br` surrounded by white space |
| `Brotli.IsBrotliListed` | index.js:35-36 | `isBrotli` holds of a present header exactly when one comma-separated entry is `br` padded with white space |
| `Brotli.AbsentNotBrotli` | index.js:35 | a missing or empty header is not Brotli |
| `Brotli.TokensOfBr` | index.js:40 | the rewritten header `br` is the single entry `br` |
| `Brotli.PreferBrotliIdempotent` | index.js:40 | the rewrite keeps the Brotli decision and a second application changes nothing |
| `Brotli.PreferBrotliNarrows` | index.js:40 | the rewrite advertises only encodings the client listed and touches no other header |
| `Brotli.TokensOfEntries` | index.js:35-36 | the entries of a comma-joined list are its trimmed items |
| `Brotli.ListedEntry` | index.js:35-36 | a list with an item that trims to `br` is Brotli |
| `Brotli.UnlistedEntries` | index.js:35-36 | a list with no item that trims to `br` is not |
| `Brotli.TrimAfterSpace` | index.js:36 | the space after a comma is trimmed |
| `BrotliExamples.BrotliAmongOthers` | index.js:35-36 | `gzip, deflate, br` is Brotli |
| `BrotliExamples.BrowserHeaderRewritten` | index.js:40 | a browser's usual header becomes `br` |
| `BrotliExamples.WeightedBrotliIgnored` | index.js:35-36 | `gzip, br;q=1.0` is not Brotli: `;q=` parameters are not parsed |
| `Pipeline.MissArmsCapture` | index.js:73-76 | a proxied miss is compressed, keyed and streamed, so the capture is armed |
| `Pipeline.HelpPageNotCached` | index.js:28 | a root miss sets the key `/`, and a help page that reaches `cacheStore` still as the string the route handler set is not stored, because a string is not a stream |
| `Pipeline.HitNotRecaptured` | index.js:28 | a hit is served from the stored bytes and leaves the cache unchanged |
| `Pipeline.HitAfterCommit` | index.js:27-77 | after a miss whose stream completes, a request with the same pairs per name gets the same key and is a hit: uncompressed, with the stored encoding and the captured bytes |
| `Pipeline.UnfinishedStreamStaysMiss` | index.js:31-32 | if the upstream stream never ends, the next equivalent request is a miss again |

## Left out

- Number coercion uses exact reals. The StringNumericLiteral grammar is followed in full, including hexadecimal, octal, binary, `Infinity` and exponents. Rounding to IEEE doubles is not modelled, so a `limit` that differs from the ceiling only beyond double precision compares exactly.
- The configured `limit` is a safe integer (0 to 2^53-1), so `String(limit)` is its plain decimal numeral. Fractional, negative or non-numeric configuration values are not modelled.
- Percent-encoding in the `application/x-www-form-urlencoded` serialiser is left abstract: each pair is written `name=value` and pairs are joined with `&`. Because of this, key injectivity is not claimed. Only the determinism lemmas are proved.
- Assigning `baseUrl.search = search` re-parses the serialised string. The model takes the round trip as the identity on the serialisation. `.slice(1)` of the resulting `?`-prefixed search is that serialisation (an empty query gives an empty key in the source; the model's keys are never empty, since `limit` is always present).
- `sort()` compares names by code units; the model compares Dafny characters. These differ only for names with characters outside the Basic Multilingual Plane.
- The LRU's eviction, maximum size, expiry, its `_load` hook and `setupLru`'s deletion of `get` (`index.js:20-24`) are not modelled. The cache is a map with `peek` and `set`.
- `got.stream(baseUrl)` and the network are not modelled. The stream is the `Upstream` body, with its query string. Its behaviour is the event trace handed to `CacheStore`.
- `cacheStore` registers its listeners and returns. The events arrive later, possibly interleaved with other requests. The model runs the listeners over a given event trace in one call. Concurrency between requests is not modelled.
- The help page template (`lodash.templates`, `help` at `index.js:46-51`) is a parameter `helpPage`.
- Pipeline.HelpPageNotCached: holds only for a help page that reaches `cacheStore` as a string. With `ctx.compress` true (`index.js:73`), the compression middleware installed after the router may replace a large enough string body by a compressed stream; `cacheStore` would then store the compressed help page under `/`. That middleware is not modelled, so the model does not capture this case.
- The rest of the Koa chain (`logger`, `koa-error`, CORS, `kompression`, conditional GET, ETag) is not modelled. What `cacheStore` sees is whatever body and `content-encoding` the downstream middleware left in the context.
- URL parsing (`ctx.URL`, `new URL(supported)`) is not modelled. The request arrives as a pathname, its original URL text and its parsed pairs. `baseUrl` is assumed to start without a query.
- `ctx.type` is kept in `contentType` as the string assigned. Koa's expansion to a full `Content-Type` with charset is not modelled, and neither are the response-header changes of Koa's setters: `ctx.type =` setting `Content-Type`, and `ctx.body =` setting or removing `Content-Length`. `responseHeaders` changes only in `content-encoding`, the one header `cacheStore` reads.
- `ctx.key = !peeked && key` yields `false` on a hit. The model represents both `false` and `undefined` as `None`, which is falsy in both cases.
- The module export wiring (`index.js:80-95`) and `server.js` are not part of this model.
