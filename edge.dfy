/** The edge service: it serves the front-end page and forwards paths that
    look like short identifiers to the API. The decision is made from the
    path segment's syntax alone; no store is consulted (the functions below
    read no state).
 */
module Edge {
  import opened NanoId

  /** A GET the edge routes: the root path, or one path segment. */
  datatype Request = Root | Segment(shortId: string)

  /** 302 to `location` (the argument given to `res.redirect`), or the
      index page. */
  datatype Response = Forward(location: string) | ServeIndex

  /** One character of the class `[a-zA-Z0-9]`. Within nanoid's alphabet it
      is every character except `_` and `-`. */
  predicate IsAlnum(c: char)
    ensures IsAlnum(c) ==> IsIdChar(c)
    ensures IsIdChar(c) ==> (IsAlnum(c) <==> c != '_' && c != '-')
  {
    ('a' <= c <= 'z') || ('A' <= c <= 'Z') || ('0' <= c <= '9')
  }

  /** `/^[a-zA-Z0-9]+$/.test(s)`: non-empty and alphanumeric throughout.
      The `+` rejects the empty string; a match of length 7 is an
      identifier nanoid could issue. */
  predicate MatchesAlnum(s: string)
    ensures MatchesAlnum(s) ==> |s| > 0
    ensures MatchesAlnum(s) && |s| == Size ==> IsNanoId(s)
  {
    |s| > 0 && forall i :: 0 <= i < |s| ==> IsAlnum(s[i])
  }

  /** The `/:shortId` handler: forward a 7-character alphanumeric segment to
      `/api/<segment>`, serve the index page for anything else. */
  function Classify(shortId: string): (r: Response)
    ensures r.Forward? <==> |shortId| == 7 && forall i :: 0 <= i < |shortId| ==> IsAlnum(shortId[i])
    ensures r.Forward? ==> |r.location| == 12 && r.location[..5] == "/api/" && r.location[5..] == shortId
  {
    if |shortId| == 7 && MatchesAlnum(shortId) then Forward("/api/" + shortId) else ServeIndex
  }

  /** The two routes: `/` serves the index page, `/:shortId` is classified. */
  function Handle(req: Request): (r: Response)
    ensures req.Root? ==> r == ServeIndex
    ensures req.Segment? ==> r == Classify(req.shortId)
  {
    match req
    case Root => ServeIndex
    case Segment(s) => Classify(s)
  }

  /** A segment of any other length than 7 gets the index page. */
  lemma WrongLengthServesIndex(shortId: string)
    requires |shortId| != 7
    ensures Classify(shortId) == ServeIndex
  {
  }

  /** One character outside `[a-zA-Z0-9]` is enough to get the index page. */
  lemma NonAlnumServesIndex(shortId: string, i: nat)
    requires i < |shortId| && !IsAlnum(shortId[i])
    ensures Classify(shortId) == ServeIndex
  {
  }

  /** The forward target determines the segment, so distinct identifiers
      are forwarded to distinct API paths. */
  lemma ForwardInjective(a: string, b: string)
    requires Classify(a).Forward? && Classify(b).Forward?
    ensures Classify(a) == Classify(b) <==> a == b
  {
  }

  /** Of the identifiers nanoid issues, the edge forwards exactly those
      without `_` or `-`: the other two characters of nanoid's alphabet
      send the visitor to the index page. */
  lemma NanoIdForwardedIffNoSymbol(id: string)
    requires IsNanoId(id)
    ensures Classify(id).Forward? <==> forall i :: 0 <= i < |id| ==> id[i] != '_' && id[i] != '-'
  {
  }

  /** A concrete identifier nanoid can issue that never reaches the API. */
  lemma IssuedIdServedIndex()
    ensures IsNanoId("abc-123") && Classify("abc-123") == ServeIndex
  {
    assert "abc-123"[3] == '-';
    NonAlnumServesIndex("abc-123", 3);
  }

  /** The classifier over nanoid's own alphabet: forward a segment exactly
      when it is an identifier the shortener can issue. */
  function ClassifyIssued(shortId: string): (r: Response)
    ensures r.Forward? <==> IsNanoId(shortId)
    ensures r.Forward? ==> |r.location| == 12 && r.location[..5] == "/api/" && r.location[5..] == shortId
  {
    if IsNanoId(shortId) then Forward("/api/" + shortId) else ServeIndex
  }

  /** The corrected classifier forwards every segment the written one
      forwards, to the same target, and also the identifiers with `_` or `-`. */
  lemma ClassifyIssuedExtendsClassify(shortId: string)
    ensures Classify(shortId).Forward? ==> ClassifyIssued(shortId) == Classify(shortId)
    ensures IsNanoId(shortId) ==> ClassifyIssued(shortId).Forward?
  {
  }
}
