# Short-link service: a Dafny model

This project models the two HTTP handlers of a short-link service (`functions/index.js`):

- `createLink` checks the request origin against a comma-separated allow-list and sets
  the CORS headers. It answers preflight and wrong-method requests, demands a
  `targetUrl`, writes `{targetUrl, createdAt}` under a random short identifier in the
  `shortlinks` collection, and returns that identifier.
- `redirect` takes the request path. It answers `/` with a welcome text. Any other path
  names an identifier: the path without its first character. The handler looks that
  identifier up and redirects to its target, or to the fallback site when there is none.

The Firestore collection is a `map<string, Record>` held by the class
`Links.LinkStore`. `Put` and `CreateLink` change it in place. `Get` and `Resolve` only
read it. The resolve decision itself is the pure function `Links.ResolveLink` over a
snapshot of the map.

Modules:

- `Http`: `Option`, the response datatype, and JavaScript truthiness of an optional string.
- `Cors`: `split(",")`, `filter(Boolean)` and `includes`, plus the fixed CORS headers.
  `IsField` is an independent description of the split pieces: maximal comma-free runs.
- `ShortId`: the shape of `Math.random().toString(36).substring(2, 8)`.
- `Links`: records, the store class, both handlers, and the round-trip lemmas.
  The method `Links.OverwriteRoundTrip` creates twice under one identifier and resolves
  after each write. Its proof uses the handlers' contracts together with the lemmas
  `CreateThenResolve` and `LastWriteWins`.

Inputs the handlers get from their environment become parameters:

- the allow-list string (`allowedOrigins`);
- the random identifier (`shortId`, required to satisfy `IsShortId`);
- the server timestamp (`now`);
- whether the store call raises (`writeFails`, `lookupFails`).

The store refuses empty document identifiers (`ValidKey`). Firestore rejects an empty
document path, and the handlers make that call inside their `try`. So an empty id gives
500 on both sides. On create this needs `Math.random()` to return exactly 0, because
`"0".substring(2, 8)` is `""`. On resolve it needs the path `""`.

## Model

| member | source | states |
|---|---|---|
| `Cors.Split` | functions/index.js:31-33 | `split(",")` gives at least one piece. No piece contains the separator. Joining the pieces with the separator gives back the input. |
| `Cors.SplitFields` | functions/index.js:31-33 | A string is a split piece iff it is a field of the input: a maximal separator-free run bounded by separators or string ends. |
| `Cors.DropEmpty` | functions/index.js:34 | `filter(Boolean)` keeps exactly the non-empty entries. |
| `Cors.ParseAllowList` | functions/index.js:31-34 | Every allowed origin is non-empty and contains no comma. |
| `Cors.AllowListEntries` | functions/index.js:31-34 | `x` is allowed iff `x` is non-empty and is a comma-delimited field of the configured string, untrimmed. |
| `Cors.NoTrimming` | functions/index.js:31-34 | Whitespace after a comma stays part of the entry: `"a, b"` allows `"a"` and `" b"`. |
| `Cors.OriginAllowed` | functions/index.js:37 | Definition of `includes(origin)`: true iff some entry of the list equals the origin header. An absent header matches nothing. |
| `Cors.DefaultAllowList` | functions/index.js:21 | The default configuration parses to exactly `https://smartics.com.mx` and `http://localhost:3300`, in that order. |
| `Cors.CorsHeaders` | functions/index.js:37-43 | The Allow-Origin header is present iff the origin is present and listed. When present, its value is exactly the request origin. Allow-Methods `GET, POST, OPTIONS`, Allow-Headers `Content-Type` and max-age `3600` are always set. No other header is set. |
| `Cors.EchoesOnlyListedOrigin` | functions/index.js:31-39 | The Allow-Origin header is present iff the origin header is present, non-empty, and a comma-delimited field of the configuration. It then echoes that origin verbatim. |
| `ShortId.Base36Digit` | functions/index.js:63 | Each base-36 digit value renders as a character in `[0-9a-z]`, and `DigitValue` inverts it. |
| `ShortId.RenderFraction` | functions/index.js:63 | `toString(36)` of a number in [0, 1): `"0"` for zero, otherwise `"0."` followed by the base-36 digit characters of the fraction, one per digit. |
| `ShortId.Substring` | functions/index.js:63 | `substring(start, end)`: both bounds are clamped to the string, swapped if reversed, and the result is the characters between them. |
| `ShortId.GeneratedId` | functions/index.js:63 | The generated id is the first six fraction digits of the base-36 rendering. It is shorter when the expansion is shorter, and `""` for zero. So it always has at most six characters in `[0-9a-z]`. |
| `Http.Truthy` | functions/index.js:56 | Definition of JavaScript truthiness for a string field: truthy iff it is neither absent nor `""`. The same test decides the redirect at line 110. |
| `Links.RequestedId` | functions/index.js:98 | The looked-up identifier is the path minus its first character, unchanged. It is defined as `Substring` from 1 to the length of the path. |
| `Links.ValidKey` | functions/index.js:71 | The model's key rule: the store accepts an identifier iff it is non-empty. Firestore's `doc("")` raises inside the `try`, so an empty key gives 500 on create (line 71) and on resolve (line 103). Its rules for `/` are not modelled (see "## Left out"). |
| `Links.NewRecord` | functions/index.js:65-68 | The record written for a request holds its `targetUrl` unchanged, which is truthy, and the write time as `createdAt`. |
| `Links.ResolveLink` | functions/index.js:86-128 | `/` gives 200 with the welcome text, whatever the store holds. Otherwise a lookup error or an empty key gives 500. A record with a non-empty `targetUrl` gives 302 to that URL. Anything else gives 404 with a redirect to `https://smartics.com.mx`. Each status holds iff its condition holds. |
| `Links.LinkStore.Get` | functions/index.js:103-104 | A read fails iff the store fails or the key is empty. Otherwise it returns the stored record iff the key is present. |
| `Links.LinkStore.Put` | functions/index.js:71 | A write succeeds iff the store does not fail and the key is non-empty. It then replaces the entry under the key, whether or not it existed, and leaves all other keys alone. A failed write changes nothing. |
| `Links.LinkStore.CreateLink` | functions/index.js:28-81 | Every response carries exactly `CorsHeaders` of the parsed allow-list and the origin, whatever the method. Then: `OPTIONS` gives 204 with `""`; another non-`POST` method gives 405 `Method Not Allowed`; a falsy `targetUrl` gives 400; a failed write gives 500. Otherwise the response is 201 with the key written, and the store becomes old store updated at that key with the new record. The store is unchanged except on 201. |
| `Links.LinkStore.Resolve` | functions/index.js:84-129 | The handler's response equals `ResolveLink` on the current store. It has no `modifies` clause, so it never writes the store. |
| `Links.CreateThenResolve` | functions/index.js:98-117 | For every non-empty key: after a successful create of `id` with `url`, resolving `"/" + id` redirects with 302 to `url`. |
| `Links.LastWriteWins` | functions/index.js:71 | A second create under the same `id` overwrites the first, and resolving then redirects to the second URL. |
| `Links.UnknownIdFallsBack` | functions/index.js:106-124 | For any non-empty identifier with no stored record, or with a record whose `targetUrl` is absent or empty, resolving `"/" + id` gives 404 with the redirect to `https://smartics.com.mx`. |
| `Links.ExactCaseLookup` | functions/index.js:98-104 | The lookup is case-sensitive: a record under `abc` is not found through `/ABC`, which gives 404 and the fallback. This is an instance of `UnknownIdFallsBack`. |
| `Links.OverwriteRoundTrip` | functions/index.js:71 | Through the handlers: create `id` with `url1` (201 returning `id`), then resolve it, giving 302 to `url1`. Create `id` again with `url2` (201 returning `id`), then resolve it, giving 302 to `url2`. Afterwards the store holds only the second record under `id`. |

## Left out

- Firebase Admin initialisation, the Firestore client and its asynchronous calls. The store is a map, and a failure is a boolean parameter.
- `serverTimestamp()`: `createdAt` is the `now` parameter and plays no role in any decision.
- `Math.random()` and its floating-point base-36 rendering. The id is an input constrained by `IsShortId`. `GeneratedId` models the `substring(2, 8)` cut on the digit sequence of a random number. Converting a double into those digits is not modelled.
- No collision check: a new id can overwrite an unrelated record. The model preserves this. `Put` and `CreateLink` replace any existing record.
- `defineString` parameter loading. The allow-list is a plain string input. Its default value is the constant `Cors.DefaultAllowedOrigins`.
- `setGlobalOptions({maxInstances: 10})` and concurrent requests. Concurrency is the platform's concern.
- Logging calls. They have no behavioural effect.
- Express request/response objects and JSON serialisation. A response is a datatype with status, headers, body and location. The body Express generates for a redirect is not modelled (`NoBody`). A response's `location` is the URL argument the handler passes to `redirect`. Express's `encodeurl` escaping and its special meaning for `"back"` are not modelled.
- `Links.ResolveLink`: for the fallback the handler calls `res.status(404).redirect(url)`. Express's one-argument `redirect` sets the status to 302 itself, so the status on the wire is likely not 404. The Express library is not part of this model. The model records the 404 that the handler asks for.
- Links.ValidKey: the model's store accepts every non-empty identifier as its own key. Firestore splits a document path on `/`, drops empty leading and trailing segments, and rejects an empty path, `//` and an odd number of segments. Two cases differ from the model. Rejected by Firestore: `"/"`, `"a/b"` and `"a//b"` raise inside the `try`, so they give 500 where the model gives 404. Aliased by Firestore: `"abc/"` and `"/abc"` name the document `abc`, so the program may redirect where the model treats them as separate keys.
- Links.ResolveLink: it inherits these two cases from `ValidKey`. Requests for `/abc/` or `//abc` reach the record `abc` in the program, but give 404 in the model (unless those exact keys are stored). Requests for `//` or `/a/b` give 500 in the program.
- Strings are sequences of Unicode scalar values. JavaScript's `substring` counts UTF-16 code units. The two agree on ASCII, which covers `toString(36)` output and the request paths Node decodes as latin1.
- `targetUrl` values that are not strings (numbers, objects) are not modelled. The body field is an optional string, and truthiness is "present and non-empty". The body is taken to be an object. A body without the field has no `targetUrl`.
- HTTP header names are case-insensitive. The model keeps the names exactly as the handler writes them, including `Access-control-max-age`.
