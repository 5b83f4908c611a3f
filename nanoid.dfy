/** The shape of the identifiers that `nanoid(7)` hands out.

    nanoid is an external library: the model never draws an identifier, it
    only describes the strings the library can return, so that callers can
    state what they receive. Its default alphabet is the 64 URL-safe
    characters `A-Z`, `a-z`, `0-9`, `_` and `-`.
 */
module NanoId {

  /** The length requested at the single call site, `nanoid(7)`. */
  const Size: nat := 7

  /** A character of nanoid's default (URL-safe) alphabet. */
  predicate IsIdChar(c: char) {
    ('A' <= c <= 'Z') || ('a' <= c <= 'z') || ('0' <= c <= '9') || c == '_' || c == '-'
  }

  /** A string that `nanoid(7)` can return. Such an identifier is one URL
      path segment that needs no escaping: it holds no `/`, `?`, `#` or `%`. */
  predicate IsNanoId(id: string)
    ensures IsNanoId(id) ==> |id| == Size
    ensures IsNanoId(id) ==> forall i :: 0 <= i < |id| ==> id[i] !in {'/', '?', '#', '%'}
  {
    |id| == Size && forall i :: 0 <= i < |id| ==> IsIdChar(id[i])
  }
}
