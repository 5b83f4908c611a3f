/** The shortener service: one process-wide map from short identifier to URL,
    and the handlers that create, resolve, encode and list its entries.

    Everything the handlers take from outside the map is a parameter here:
    the identifier nanoid returns, the outcome of parsing the URL with the
    WHATWG `URL` constructor, and the two environment variables.
 */
module Shortener {
  import opened NanoId

  datatype Option<T> = None | Some(value: T)

  // ---------------------------------------------------------------------
  // Environment and the short-URL formatter
  // ---------------------------------------------------------------------

  /** The two environment variables the handlers read. An empty string
      stands for a variable that is unset or empty: JavaScript's `||` and
      `?:` treat both alike. */
  datatype Env = Env(devDomain: string, port: string)

  /** `process.env.PORT || 3000`, as the text a template string prints. */
  function ListenPort(env: Env): (p: string)
    ensures env.port != "" ==> p == env.port
    ensures env.port == "" ==> p == "3000"
    ensures p != ""
  {
    if env.port != "" then env.port else "3000"
  }

  /** `WORKSPACE_DEV_DOMAIN ? 'https' : 'http'`. */
  function Protocol(env: Env): (p: string)
    ensures p == "https" <==> env.devDomain != ""
    ensures p == "http" || p == "https"
  {
    if env.devDomain != "" then "https" else "http"
  }

  /** `WORKSPACE_DEV_DOMAIN || localhost:${PORT}`. */
  function Domain(env: Env): (d: string)
    ensures env.devDomain != "" ==> d == env.devDomain
    ensures env.devDomain == "" ==> d == "localhost:" + ListenPort(env)
    ensures d != ""
  {
    if env.devDomain != "" then env.devDomain else "localhost:" + ListenPort(env)
  }

  /** Everything of a short URL that precedes the identifier. */
  function BaseUrl(env: Env): string {
    Protocol(env) + "://" + Domain(env) + "/"
  }

  /** The template `${protocol}://${domain}/${shortId}` that shorten, qr
      and urls each build. The secure scheme and the configured domain go
      together, and the identifier is the last path segment. */
  function ShortUrl(env: Env, shortId: string): (u: string)
    ensures env.devDomain != "" ==> u == "https://" + env.devDomain + "/" + shortId
    ensures env.devDomain == "" ==> u == "http://localhost:" + ListenPort(env) + "/" + shortId
    ensures |u| > |shortId| && u[|u| - |shortId|..] == shortId && u[|u| - |shortId| - 1] == '/'
  {
    BaseUrl(env) + shortId
  }

  /** Under one environment, distinct identifiers give distinct short URLs,
      so a short URL names exactly one entry. */
  lemma ShortUrlInjective(env: Env, a: string, b: string)
    ensures ShortUrl(env, a) == ShortUrl(env, b) <==> a == b
  {
  }

  // ---------------------------------------------------------------------
  // The in-memory database
  // ---------------------------------------------------------------------

  /** JavaScript truthiness of a string: only the empty string is falsy. */
  predicate Truthy(s: string) {
    s != ""
  }

  predicate Distinct(s: seq<string>) {
    forall i, j :: 0 <= i < j < |s| ==> s[i] != s[j]
  }

  /** `urlDatabase`, a JavaScript `Map` from short identifier to URL. Beside
      the key-value pairs a `Map` keeps its keys in insertion order (section
      24.1 of ECMA-262), which is what `urlDatabase.entries()` walks. */
  class UrlDatabase {
    var urls: map<string, string>
    var keys: seq<string>

    /** The key order lists every key of the map once and nothing else. */
    ghost predicate Valid()
      reads this
    {
      Distinct(keys) && (forall k :: k in urls <==> k in keys)
    }

    /** Every stored URL is non-empty and passed the URL check. */
    ghost predicate HoldsOnlyValidUrls(validUrl: string -> bool)
      reads this
    {
      forall k :: k in urls ==> Truthy(urls[k]) && validUrl(urls[k])
    }

    /** `new Map()`: the database starts empty when the process starts. */
    constructor ()
      ensures Valid() && urls == map[] && keys == []
    {
      urls := map[];
      keys := [];
    }

    /** `Map.prototype.get`: the stored value, or `undefined`. */
    function Get(id: string): (r: Option<string>)
      reads this
      ensures r.Some? <==> id in urls
      ensures r.Some? ==> r.value == urls[id]
    {
      if id in urls then Some(urls[id]) else None
    }

    /** `Map.prototype.set`: a new key is appended to the key order, an
        existing key keeps its place and has its value replaced. */
    method Set(id: string, url: string)
      requires Valid()
      modifies this
      ensures Valid()
      ensures urls == old(urls)[id := url]
      ensures keys == if id in old(urls) then old(keys) else old(keys) + [id]
    {
      if id !in urls {
        keys := keys + [id];
      }
      urls := urls[id := url];
    }
  }

  // ---------------------------------------------------------------------
  // POST /shorten
  // ---------------------------------------------------------------------

  /** The response of shorten: 200 with the JSON body, or 400 with an error. */
  datatype ShortenResponse =
    | Shortened(shortId: string, shortUrl: string, originalUrl: string)
    | BadRequest(error: string)

  /** The shorten handler. `url` is `req.body.url` (`None` when the body has
      no such field), `validUrl(u)` says whether `new URL(u)` parses, and
      `shortId` is what `nanoid(7)` returned. There is no check that
      `shortId` is not already in use. */
  method Shorten(db: UrlDatabase, url: Option<string>, validUrl: string -> bool,
                 shortId: string, env: Env) returns (r: ShortenResponse)
    requires db.Valid()
    requires IsNanoId(shortId)
    modifies db
    ensures db.Valid()
    // a missing or empty url is refused and nothing is stored
    ensures (url.None? || !Truthy(url.value)) ==>
              r == BadRequest("URL is required") && unchanged(db)
    // a url that does not parse is refused and nothing is stored
    ensures url.Some? && Truthy(url.value) && !validUrl(url.value) ==>
              r == BadRequest("Invalid URL format") && unchanged(db)
    // otherwise the pair is stored: a new identifier is appended, a used one is overwritten in place
    ensures url.Some? && Truthy(url.value) && validUrl(url.value) ==>
              && r == Shortened(shortId, ShortUrl(env, shortId), url.value)
              && db.urls == old(db.urls)[shortId := url.value]
              && db.keys == (if shortId in old(db.urls) then old(db.keys) else old(db.keys) + [shortId])
    ensures r.Shortened? ==> IsNanoId(r.shortId)
    // resolving and encoding the new identifier give back what shorten answered
    ensures r.Shortened? ==> Redirect(db, r.shortId) == Found(r.originalUrl)
    ensures r.Shortened? ==> Qr(db, env, r.shortId) == QrImage(r.shortUrl)
    ensures r.Shortened? ==> forall k :: k != r.shortId ==> db.Get(k) == old(db.Get(k))
    // what is stored is always a non-empty URL that passed the check
    ensures old(db.HoldsOnlyValidUrls(validUrl)) ==> db.HoldsOnlyValidUrls(validUrl)
  {
    if url.None? || !Truthy(url.value) {
      return BadRequest("URL is required");
    }
    if !validUrl(url.value) {
      return BadRequest("Invalid URL format");
    }
    db.Set(shortId, url.value);
    r := Shortened(shortId, ShortUrl(env, shortId), url.value);
  }

  // ---------------------------------------------------------------------
  // GET /:shortId
  // ---------------------------------------------------------------------

  /** The response of redirect: 302 with `location` as the argument given
      to `res.redirect` (the stored URL), or 404. */
  datatype RedirectResponse = Found(location: string) | NotFound(error: string)

  /** The redirect handler. It reads the map and changes nothing; like the
      source it tests the stored value for truthiness, not for presence. */
  function Redirect(db: UrlDatabase, shortId: string): (r: RedirectResponse)
    reads db
    ensures r.Found? <==> shortId in db.urls && Truthy(db.urls[shortId])
    ensures r.Found? ==> r.location == db.urls[shortId]
    ensures r.NotFound? ==> r.error == "Short URL not found"
  {
    match db.Get(shortId)
    case Some(longUrl) => if Truthy(longUrl) then Found(longUrl) else NotFound("Short URL not found")
    case None => NotFound("Short URL not found")
  }

  /** In a database filled only by shorten, an identifier redirects exactly
      when it is present, and to a URL that passed the check. */
  lemma RedirectFindsEveryStoredId(db: UrlDatabase, validUrl: string -> bool, shortId: string)
    requires db.HoldsOnlyValidUrls(validUrl)
    ensures Redirect(db, shortId).Found? <==> shortId in db.urls
    ensures Redirect(db, shortId).Found? ==> validUrl(Redirect(db, shortId).location)
  {
  }

  // ---------------------------------------------------------------------
  // GET /qr/:shortId
  // ---------------------------------------------------------------------

  /** The response of qr: a PNG whose encoded text is `payload`, or 404. */
  datatype QrResponse = QrImage(payload: string) | QrNotFound(error: string)

  /** The qr handler. It checks the identifier the same way as redirect and
      encodes the short URL rebuilt as in shorten. */
  function Qr(db: UrlDatabase, env: Env, shortId: string): (r: QrResponse)
    reads db
    ensures r.QrImage? <==> Redirect(db, shortId).Found?
    ensures r.QrImage? ==> r.payload == ShortUrl(env, shortId)
    ensures r.QrNotFound? ==> r.error == "Short URL not found"
  {
    match db.Get(shortId)
    case Some(longUrl) => if Truthy(longUrl) then QrImage(ShortUrl(env, shortId)) else QrNotFound("Short URL not found")
    case None => QrNotFound("Short URL not found")
  }

  // ---------------------------------------------------------------------
  // GET /urls
  // ---------------------------------------------------------------------

  /** One element of the listing's JSON array. */
  datatype UrlEntry = UrlEntry(shortId: string, longUrl: string, shortUrl: string)

  /** `Array.from(entries).map(...)` over the keys in the given order. */
  function Listing(keys: seq<string>, urls: map<string, string>, env: Env): (r: seq<UrlEntry>)
    requires forall k :: k in keys ==> k in urls
    ensures |r| == |keys|
    ensures forall i :: 0 <= i < |keys| ==>
              r[i] == UrlEntry(keys[i], urls[keys[i]], ShortUrl(env, keys[i]))
  {
    if keys == [] then []
    else [UrlEntry(keys[0], urls[keys[0]], ShortUrl(env, keys[0]))] + Listing(keys[1..], urls, env)
  }

  /** The urls handler: one entry per key, in insertion order, each with
      the short URL that shorten and qr build for it; every entry is a
      stored pair and no identifier is listed twice. */
  function Urls(db: UrlDatabase, env: Env): (r: seq<UrlEntry>)
    reads db
    requires db.Valid()
    ensures |r| == |db.keys|
    ensures forall i :: 0 <= i < |r| ==>
              && r[i].shortId == db.keys[i]
              && r[i].longUrl == db.urls[db.keys[i]]
              && r[i].shortUrl == ShortUrl(env, db.keys[i])
    ensures forall i, j :: 0 <= i < j < |r| ==> r[i].shortId != r[j].shortId
  {
    Listing(db.keys, db.urls, env)
  }

  /** A duplicate-free key order that covers the map has one key per entry. */
  lemma {:induction false} DistinctKeysCount(keys: seq<string>, urls: map<string, string>)
    requires Distinct(keys)
    requires forall k :: k in urls <==> k in keys
    ensures |urls| == |keys|
  {
    if keys == [] {
      assert urls.Keys == {};
    } else {
      var rest := urls - {keys[0]};
      assert Distinct(keys[1..]);
      forall k
        ensures k in rest <==> k in keys[1..]
      {
        if k in keys[1..] {
          var j :| 0 <= j < |keys[1..]| && keys[1..][j] == k;
          assert keys[j + 1] == k;
        }
      }
      DistinctKeysCount(keys[1..], rest);
      assert rest.Keys == urls.Keys - {keys[0]};
    }
  }

  /** No entry is left out of the listing: every stored identifier is
      listed, and there are as many elements as the map has entries. */
  lemma UrlsListsEveryEntry(db: UrlDatabase, env: Env)
    requires db.Valid()
    ensures |Urls(db, env)| == |db.urls|
    ensures forall id :: id in db.urls ==>
              exists i :: 0 <= i < |Urls(db, env)| && Urls(db, env)[i].shortId == id && Urls(db, env)[i].longUrl == db.urls[id]
  {
    DistinctKeysCount(db.keys, db.urls);
    var r := Urls(db, env);
    forall id | id in db.urls
      ensures exists i :: 0 <= i < |r| && r[i].shortId == id && r[i].longUrl == db.urls[id]
    {
      assert id in db.keys;
      var i :| 0 <= i < |db.keys| && db.keys[i] == id;
      assert r[i].shortId == id;
    }
  }

  /** Every listed short URL is the payload qr encodes for that identifier,
      once the database holds only what shorten stored. */
  lemma UrlsAgreesWithQr(db: UrlDatabase, env: Env, validUrl: string -> bool)
    requires db.Valid() && db.HoldsOnlyValidUrls(validUrl)
    ensures forall i :: 0 <= i < |Urls(db, env)| ==>
              Qr(db, env, Urls(db, env)[i].shortId) == QrImage(Urls(db, env)[i].shortUrl)
  {
  }

  // ---------------------------------------------------------------------
  // A session against a fresh process
  // ---------------------------------------------------------------------

  /** Shorten a URL in a freshly started service, then resolve it, encode
      it, and resolve an identifier that was never issued. */
  method ExampleSession(validUrl: string -> bool, shortId: string, unknownId: string, env: Env)
    returns (created: ShortenResponse, resolved: RedirectResponse, qr: QrResponse,
             listed: seq<UrlEntry>, missing: RedirectResponse)
    requires validUrl("https://example.com/page")
    requires IsNanoId(shortId) && unknownId != shortId
    ensures created == Shortened(shortId, ShortUrl(env, shortId), "https://example.com/page")
    ensures resolved == Found("https://example.com/page")
    ensures qr == QrImage(created.shortUrl)
    ensures listed == [UrlEntry(shortId, "https://example.com/page", created.shortUrl)]
    ensures missing == NotFound("Short URL not found")
  {
    var db := new UrlDatabase();
    created := Shorten(db, Some("https://example.com/page"), validUrl, shortId, env);
    resolved := Redirect(db, shortId);
    qr := Qr(db, env, shortId);
    listed := Urls(db, env);
    missing := Redirect(db, unknownId);
  }
}
