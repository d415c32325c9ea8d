/**
 * Path arithmetic on URI strings: the last path segment of a URI, its parent
 * (everything up to and including the last '/'), and appending one segment
 * the way `UriBuilder.fromUri(base).path(segment)` does.
 */
module Uris {

  predicate EndsWithSlash(s: string) {
    |s| > 0 && s[|s| - 1] == '/'
  }

  /** The text after the last '/': a '/'-free suffix that is either the whole URI or preceded by '/'. */
  function LastSegment(uri: string): (seg: string)
    ensures |seg| <= |uri| && seg == uri[|uri| - |seg|..]
    ensures '/' !in seg
    ensures |seg| < |uri| ==> uri[|uri| - |seg| - 1] == '/'
  {
    if uri == [] || uri[|uri| - 1] == '/' then []
    else LastSegment(uri[..|uri| - 1]) + [uri[|uri| - 1]]
  }

  /** The URI with its last segment removed; it is empty or ends with '/'. */
  function Parent(uri: string): (p: string)
    ensures p + LastSegment(uri) == uri
    ensures p == [] || EndsWithSlash(p)
  {
    uri[..|uri| - |LastSegment(uri)|]
  }

  /** The base as a directory: a '/' is added unless it already ends with one. */
  function Directory(base: string): (d: string)
    ensures EndsWithSlash(d)
    ensures EndsWithSlash(base) ==> d == base
    ensures |base| <= |d| <= |base| + 1 && d[..|base|] == base
  {
    if EndsWithSlash(base) then base else base + "/"
  }

  /** Behind a '/', the last segment is exactly the '/'-free text that follows. */
  lemma {:induction false} LastSegmentAfterSlash(dir: string, seg: string)
    requires EndsWithSlash(dir) && '/' !in seg
    ensures LastSegment(dir + seg) == seg
    ensures Parent(dir + seg) == dir
  {
    if seg == [] {
      assert dir + seg == dir;
    } else {
      var init := seg[..|seg| - 1];
      assert (dir + seg)[..|dir + seg| - 1] == dir + init;
      assert '/' !in init by {
        forall i | 0 <= i < |init| ensures init[i] != '/' {
          assert init[i] == seg[i];
        }
      }
      LastSegmentAfterSlash(dir, init);
      assert init + [seg[|seg| - 1]] == seg;
    }
  }

  /**
   * `UriBuilder.fromUri(base).path(segment)` for a single non-empty segment
   * without '/': the result is the base extended by exactly that one segment.
   */
  function AppendSegment(base: string, segment: string): (uri: string)
    requires segment != [] && '/' !in segment
    ensures LastSegment(uri) == segment
    ensures Parent(uri) == Directory(base)
    ensures |base| < |uri| && uri[..|base|] == base
  {
    LastSegmentAfterSlash(Directory(base), segment);
    Directory(base) + segment
  }

  /** Appending different segments to the same base never yields the same URI. */
  lemma AppendSegmentInjective(base: string, s1: string, s2: string)
    requires s1 != [] && '/' !in s1
    requires s2 != [] && '/' !in s2
    ensures AppendSegment(base, s1) == AppendSegment(base, s2) ==> s1 == s2
  {
  }
}
