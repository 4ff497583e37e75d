/** What is done to the endpoint of a URL before a path is put behind it. */
module Urls {

  /** str.rstrip("/") */
  function TrimSlashes(s: string): (t: string)
    ensures WithoutTrailingSlashes(s, t)
  {
    if s != [] && s[|s| - 1] == '/' then TrimSlashes(s[..|s| - 1]) else s
  }

  /** t is s up to its last character that is not a slash. */
  predicate WithoutTrailingSlashes(s: string, t: string) {
    t <= s && (forall k :: |t| <= k < |s| ==> s[k] == '/') && (t == [] || t[|t| - 1] != '/')
  }

  /** A URL with this path on that endpoint. */
  predicate UrlOn(url: string, endpoint: string, path: string) {
    |url| >= |path| && url[|url| - |path|..] == path && WithoutTrailingSlashes(endpoint, url[..|url| - |path|])
  }

  function Url(endpoint: string, path: string): (url: string)
    ensures UrlOn(url, endpoint, path)
  {
    var base := TrimSlashes(endpoint);
    assert (base + path)[|base|..] == path && (base + path)[..|base|] == base;
    base + path
  }

  lemma NoShorter(s: string, x: string, y: string)
    requires WithoutTrailingSlashes(s, x) && WithoutTrailingSlashes(s, y)
    ensures |y| <= |x|
  {
    if y != [] {
      assert s[|y| - 1] == y[|y| - 1];
    }
  }

  /** There is only one. */
  lemma UrlIsUnique(a: string, b: string, endpoint: string, path: string)
    requires UrlOn(a, endpoint, path) && UrlOn(b, endpoint, path)
    ensures a == b
  {
    var x, y := a[..|a| - |path|], b[..|b| - |path|];
    NoShorter(endpoint, x, y);
    NoShorter(endpoint, y, x);
    assert a == x + path && b == y + path;
  }
}
