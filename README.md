# URL shortener: a Dafny model

This project models a minimal URL-shortening system made of two Express
services.

- The **shortener service** (`backend/index.js`) keeps one in-memory
  JavaScript `Map` from a 7-character short identifier to the original URL.
  Its `POST /shorten` handler checks the submitted URL, stores it under an
  identifier from `nanoid(7)` and answers with the short URL. `GET /:shortId`
  redirects (302) to the stored URL or answers 404. `GET /qr/:shortId`
  encodes the short URL as a QR image. `GET /urls` lists every entry.
- The **edge service** (`frontend/index.js`) serves the front-end page. It
  forwards a path segment that looks like a short identifier (exactly 7
  characters, all from `[a-zA-Z0-9]`) to `/api/<segment>`. Anything else
  gets the index page.

Files:

- `nanoid.dfy`, module `NanoId`: the strings `nanoid(7)` can return. That is
  7 characters from the library's default alphabet `A-Za-z0-9_-`.
- `shortener.dfy`, module `Shortener`:
  - the environment and the short-URL formatter `ShortUrl`, which the source
    writes out three times;
  - the class `UrlDatabase`, which models the `Map`: a `map<string, string>`
    plus the insertion order of its keys (section 24.1 of ECMA-262);
  - the four handlers. `Shorten` changes the database, so it is a method.
    `Redirect`, `Qr` and `Urls` only read it, so they are functions that read
    the database object.
- `edge.dfy`, module `Edge`: the segment classifier `Classify` and the
  two-route handler `Handle`. Neither reads any state, so the decision
  depends on the segment alone. Beside them stands `ClassifyIssued`, the
  corrected classifier of the finding below.

What comes from outside the handlers is passed in as a parameter:

- the identifier `nanoid(7)` returned (`shortId`, required to satisfy
  `IsNanoId`);
- whether the WHATWG `URL` constructor accepts the string (`validUrl`);
- the variables `WORKSPACE_DEV_DOMAIN` and `PORT` (`Env`). An empty string
  stands for an unset variable, because the source's `||` and `?:` treat
  unset and empty alike. An unset `PORT` prints as `3000`.

Where the source's comments and its code differ, the model follows the code:

- The comment at `frontend/index.js:19` says a short identifier is "7
  characters alphanumeric". But `nanoid(7)` (`backend/index.js:33`) also
  produces `_` and `-`, and those identifiers are stored. The edge's regex
  rejects them, so about 1 - (62/64)^7, roughly 20%, of issued identifiers
  never reach the API. This is recorded under "## Findings".
- The comment at `backend/index.js:32` says "Generate unique 7-character ID".
  The code makes no collision check, so `Shorten` with an identifier already
  in use overwrites its URL. The key keeps its place in the listing.
- Redirect and qr test the stored value for truthiness (`!longUrl`), not for
  presence. `Redirect` models that test. `RedirectFindsEveryStoredId` shows
  the two agree in any database that only `Shorten` has filled, because
  `Shorten` never stores an empty string.

## Model

| member | source | states |
|---|---|---|
| `Shortener.ShortUrl` | backend/index.js:39-41 | with a domain configured the short URL is `https://<domain>/<id>`; without one it is `http://localhost:<PORT or 3000>/<id>`; in both cases it ends with `/` followed by the identifier |
| `Shortener.ListenPort` | backend/index.js:7 | the `PORT` variable or `3000`: the configured port when it is set, otherwise `3000`; never empty |
| `Shortener.Protocol` | backend/index.js:40 | the scheme is `https` if and only if the domain variable is set, and otherwise `http` |
| `Shortener.Domain` | backend/index.js:39 | the configured domain when it is set, otherwise `localhost:` followed by the port; never empty |
| `Shortener.UrlDatabase.Get` | backend/index.js:59 | the definition of `Map.get`: a value exactly when the key is present, and then the stored value |
| `NanoId.IsNanoId` | backend/index.js:33 | the strings `nanoid(7)` can return: 7 characters of `A-Za-z0-9_-`, so none of `/`, `?`, `#`, `%` and the identifier is one path segment |
| `Shortener.ShortUrlInjective` | backend/index.js:41 | under one environment two identifiers give the same short URL if and only if they are equal |
| `Shortener.UrlDatabase.constructor` | backend/index.js:14 | the database starts empty, with an empty key order, and is consistent |
| `Shortener.UrlDatabase.Set` | backend/index.js:36 | `Map.set`: the key gets the value and every other key keeps its value; a new key is appended to the key order, an existing key keeps its position; the key order stays duplicate-free and covers exactly the keys |
| `Shortener.Shorten` | backend/index.js:17-47 | a missing or empty url gives 400 "URL is required", and a url that does not parse gives 400 "Invalid URL format", both with the database unchanged; otherwise the pair is stored with no collision check and the answer is the identifier, its `ShortUrl` and the submitted url; afterwards redirect gives that url, qr encodes that short URL, every other identifier looks up as before, and what is stored is only ever non-empty valid URLs |
| `Shortener.Redirect` | backend/index.js:54-66 | 302 to the stored URL exactly when the identifier is present with a non-empty URL, and otherwise 404 "Short URL not found"; it only reads the database |
| `Shortener.RedirectFindsEveryStoredId` | backend/index.js:59-66 | in a database holding only valid non-empty URLs, an identifier redirects if and only if it is present, and the target passed the URL check |
| `Shortener.Qr` | backend/index.js:73-87 | qr finds an identifier exactly when redirect does, encodes the same `ShortUrl` that shorten answered, and otherwise gives 404 "Short URL not found" |
| `Shortener.Listing` | backend/index.js:113-117 | the mapped array has one element per key, in key order, each carrying the key, its URL and its `ShortUrl` |
| `Shortener.Urls` | backend/index.js:109-118 | the listing follows the insertion order of the keys, each entry holds the stored URL and the rebuilt short URL, and no identifier appears twice |
| `Shortener.DistinctKeysCount` | backend/index.js:113 | a duplicate-free key order that covers the map has as many elements as the map has entries |
| `Shortener.UrlsListsEveryEntry` | backend/index.js:113-117 | every stored pair appears in the listing, and the listing is exactly as long as the map |
| `Shortener.UrlsAgreesWithQr` | backend/index.js:109-117 | in a database filled by shorten, each listed short URL is the payload qr encodes for that identifier |
| `Shortener.ExampleSession` | backend/index.js:17-118 | in a fresh process, shortening `https://example.com/page` and then resolving, encoding and listing give the submitted URL, the same short URL and one entry; an identifier never issued gives 404 |
| `Edge.IsAlnum` | frontend/index.js:20 | the class `[a-zA-Z0-9]`: it lies inside nanoid's alphabet and, within that alphabet, excludes exactly `_` and `-` |
| `Edge.MatchesAlnum` | frontend/index.js:20 | `/^[a-zA-Z0-9]+$/`: a match is non-empty, and a match of length 7 is an identifier nanoid could issue |
| `Edge.Classify` | frontend/index.js:16-27 | a segment is forwarded if and only if it has 7 characters, all from `[a-zA-Z0-9]`; the target is 12 characters long, starts with `/api/` and ends with the segment |
| `Edge.Handle` | frontend/index.js:11-27 | the root path always serves the index page; a single segment is classified |
| `Edge.WrongLengthServesIndex` | frontend/index.js:20-25 | a segment whose length is not 7 gets the index page |
| `Edge.NonAlnumServesIndex` | frontend/index.js:20-25 | a segment with any character outside `[a-zA-Z0-9]` gets the index page |
| `Edge.ForwardInjective` | frontend/index.js:22 | two forwarded segments get the same target if and only if they are equal |
| `Edge.NanoIdForwardedIffNoSymbol` | frontend/index.js:20 | an identifier that `nanoid(7)` can issue is forwarded if and only if it contains neither `_` nor `-` |
| `Edge.IssuedIdServedIndex` | frontend/index.js:20-25 | `abc-123` is an identifier nanoid can issue, and the edge serves the index page for it |
| `Edge.ClassifyIssued` | frontend/index.js:20-22 | corrected classifier: forward exactly the identifiers nanoid can issue, to `/api/` followed by the identifier |
| `Edge.ClassifyIssuedExtendsClassify` | frontend/index.js:20-22 | the corrected classifier forwards every segment the written one forwards, to the same target, and forwards every issued identifier |

## Findings

| source | as written | input that shows it | evidently intended | confidence | as-written member | corrected member |
|---|---|---|---|---|---|---|
| frontend/index.js:20 | the edge forwards only segments matching `[a-zA-Z0-9]`, but `nanoid(7)` at backend/index.js:33 also issues `_` and `-` | `abc-123` is issued and stored, but the edge serves the index page for it | forward every identifier the shortener can issue | medium, not executed | `Edge.IssuedIdServedIndex` (and `Edge.NanoIdForwardedIffNoSymbol` for the general case) | `Edge.ClassifyIssued` with `Edge.ClassifyIssuedExtendsClassify` |

`Edge.Classify` and `Edge.Handle` still model the code as written. The
corrected classifier stands beside them, so the rest of the model keeps the
source's behaviour.

## Left out

- Express plumbing: CORS, JSON body parsing, `app.listen` and its console output. None of it affects the handlers' results.
- Route dispatch. Express would match `/health` and `/urls` against the `/:shortId` route first, because that route is declared earlier. Each handler is modelled as its own operation, and the model makes no claim about dispatch.
- The randomness of `nanoid` and its collision probability. The identifier is a parameter that must satisfy `IsNanoId`.
- WHATWG URL parsing behind `new URL(url)`. It is the parameter `validUrl`.
- A request-body `url` that is not a string, such as a number or an array. The source would stringify it for the URL check and then store the original value. The model takes the field as an optional string.
- QR rendering: the PNG image, its 200-pixel width, the error-correction level, the stream and the content-type header. `Qr` models only the text that would be encoded.
- Static file serving (`express.static`, `sendFile`). It is represented only by the `ServeIndex` outcome, so a public file whose name looks like an identifier is not modelled.
- The health endpoint. Its only content is a constant status and a wall-clock timestamp.
- The generic 500 catch blocks. Nothing in the modelled handler bodies throws.
- Concurrency and event-loop interleaving. Each handler runs to completion, as it does on Node's single thread.
- Percent-decoding of path parameters and UTF-16 lengths. Segment length is counted in characters. Any character outside the Basic Multilingual Plane would already fail the `[a-zA-Z0-9]` test, so the classification is the same either way.
- The mismatch between the edge service's `/api/` prefix and the shortener's `/:shortId` route. Each service is modelled as written.
- The encoding of the `Location` header. Express's `res.redirect` percent-encodes its argument (`encodeurl`), for example a space as `%20`. That is Express plumbing: `Found` and `Forward` hold the argument passed to `res.redirect`.
