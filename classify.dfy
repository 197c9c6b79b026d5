/**
  Deciding whether the user's query already is something to download (a magnet link or
  an exact URL) or a keyword phrase to search for.
 */
module Classify {

  const MagnetPrefix: string := "magnet:?"

  /** `s.startsWith(prefix)`. */
  predicate StartsWith(s: string, prefix: string) {
    |prefix| <= |s| && s[..|prefix|] == prefix
  }

  /** A query is direct when it starts with the magnet prefix or, failing that, when the
      exact-URL test accepts it. `isExactUrl` stands for `isUrl({ exact: true }).test`,
      a test on the whole string whose pattern is not part of this model. */
  function IsDirect(query: string, isExactUrl: string -> bool): (direct: bool)
    ensures StartsWith(query, MagnetPrefix) ==> direct
    ensures !StartsWith(query, MagnetPrefix) ==> (direct <==> isExactUrl(query))
    ensures !direct ==> !isExactUrl(query) && (|query| < |MagnetPrefix| || query[..|MagnetPrefix|] != MagnetPrefix)
  {
    if StartsWith(query, MagnetPrefix) then true
    else isExactUrl(query)
  }

  /** Whatever follows the magnet prefix, the query is direct, whatever the URL test says. */
  lemma MagnetIsDirect(rest: string, isExactUrl: string -> bool)
    ensures IsDirect(MagnetPrefix + rest, isExactUrl)
  {
    assert (MagnetPrefix + rest)[..|MagnetPrefix|] == MagnetPrefix;
  }
}
