/**
 * Candidate selection of `MacRumors.new_post_get_from_sitemap` (app.py): the
 * sitemap's `<loc>` texts in document order, minus every one that equals a
 * stripped line of the cache file, and the first of what is left.
 */
module Catalog {
  import opened Wrappers

  /** Python's `str.isspace()` for one character: what `str.strip()` removes. */
  predicate IsSpace(c: char) {
    || ('\t' <= c <= '\r')
    || ('\U{1C}' <= c <= ' ')
    || c == '\U{85}' || c == '\U{A0}' || c == '\U{1680}'
    || ('\U{2000}' <= c <= '\U{200A}')
    || c == '\U{2028}' || c == '\U{2029}' || c == '\U{202F}' || c == '\U{205F}'
    || c == '\U{3000}'
  }

  /** True when `s` neither starts nor ends with whitespace. */
  predicate IsStripped(s: string) {
    s == [] || (!IsSpace(s[0]) && !IsSpace(s[|s| - 1]))
  }

  predicate AllSpace(s: string) {
    forall i :: 0 <= i < |s| ==> IsSpace(s[i])
  }

  /** `str.lstrip()`: drops the leading whitespace and nothing else. */
  function TrimStart(s: string): (r: string)
    ensures |r| <= |s| && r == s[|s| - |r|..]
    ensures AllSpace(s[..|s| - |r|])
    ensures r == [] || !IsSpace(r[0])
    ensures s == [] || !IsSpace(s[0]) ==> r == s
  {
    if |s| > 0 && IsSpace(s[0]) then
      var r := TrimStart(s[1..]);
      assert s[1..][|s| - 1 - |r|..] == s[|s| - |r|..];
      assert forall i :: 1 <= i < |s| - |r| ==> s[i] == s[1..][..|s| - 1 - |r|][i - 1];
      r
    else
      s
  }

  /** `str.rstrip()`: drops the trailing whitespace and nothing else. */
  function TrimEnd(s: string): (r: string)
    ensures |r| <= |s| && r == s[..|r|]
    ensures AllSpace(s[|r|..])
    ensures r == [] || !IsSpace(r[|r| - 1])
    ensures s == [] || !IsSpace(s[|s| - 1]) ==> r == s
  {
    if |s| > 0 && IsSpace(s[|s| - 1]) then
      var r := TrimEnd(s[..|s| - 1]);
      assert s[..|s| - 1][..|r|] == s[..|r|];
      assert forall i :: |r| <= i < |s| - 1 ==> s[i] == s[..|s| - 1][|r|..][i - |r|];
      r
    else
      s
  }

  /** `str.strip()`: `s` is leading whitespace, then `r`, then trailing whitespace. */
  function Strip(s: string): (r: string)
    ensures IsStripped(r)
    ensures exists i, j :: 0 <= i <= j <= |s| && r == s[i..j] && AllSpace(s[..i]) && AllSpace(s[j..])
    ensures r == s <==> IsStripped(s)
  {
    var t := TrimStart(s);
    var r := TrimEnd(t);
    var i := |s| - |t|;
    var j := i + |r|;
    assert r == s[i..j] && s[j..] == t[|r|..];
    assert 0 <= i <= j <= |s| && AllSpace(s[..i]) && AllSpace(s[j..]);
    r
  }

  /** The cache file's lines as `new_post_get_from_sitemap` compares them: each stripped. */
  function Stripped(lines: seq<string>): (r: seq<string>)
    ensures |r| == |lines|
    ensures forall i :: 0 <= i < |lines| ==> r[i] == Strip(lines[i])
  {
    seq(|lines|, i requires 0 <= i < |lines| => Strip(lines[i]))
  }

  /** The list comprehension: the sitemap entries not in `cached`, in document order. */
  function Uncached(locs: seq<string>, cached: seq<string>): (r: seq<string>)
    ensures forall x :: x in r <==> x in locs && x !in cached
    ensures |r| <= |locs|
  {
    if |locs| == 0 then []
    else (if locs[0] in cached then [] else [locs[0]]) + Uncached(locs[1..], cached)
  }

  /** The head of the filtered list is the first sitemap entry, in document order, not in `cached`. */
  lemma {:induction false} UncachedHead(locs: seq<string>, cached: seq<string>)
    requires |Uncached(locs, cached)| > 0
    ensures exists i :: 0 <= i < |locs| && locs[i] == Uncached(locs, cached)[0]
                        && locs[i] !in cached && forall j :: 0 <= j < i ==> locs[j] in cached
  {
    if locs[0] in cached {
      UncachedHead(locs[1..], cached);
      var i :| 0 <= i < |locs| - 1 && locs[1..][i] == Uncached(locs[1..], cached)[0]
               && locs[1..][i] !in cached && forall j :: 0 <= j < i ==> locs[1..][j] in cached;
      assert locs[i + 1] == locs[1..][i];
      forall j | 0 <= j < i + 1 ensures locs[j] in cached {
        if j > 0 { assert locs[j] == locs[1..][j - 1]; }
      }
    } else {
      assert Uncached(locs, cached)[0] == locs[0];
    }
  }

  datatype CatalogError = NoCandidate

  /**
   * `new_post_get_from_sitemap` once the sitemap is parsed: `locs` are the
   * `<loc>` texts, `cacheLines` the lines of the cache file. `post_url[0]` on an
   * empty list raises IndexError, here `Failure(NoCandidate)`.
   */
  function NewPost(locs: seq<string>, cacheLines: seq<string>): (r: Result<string, CatalogError>)
    ensures r.Success? <==> exists i :: 0 <= i < |locs| && locs[i] !in Stripped(cacheLines)
    ensures r.Success? ==>
      exists i :: 0 <= i < |locs| && locs[i] == r.value && locs[i] !in Stripped(cacheLines)
                  && forall j :: 0 <= j < i ==> locs[j] in Stripped(cacheLines)
  {
    var left := Uncached(locs, Stripped(cacheLines));
    if |left| == 0 then
      Failure(NoCandidate)
    else
      UncachedHead(locs, Stripped(cacheLines));
      Success(left[0])
  }

  /** A loc without surrounding whitespace that is a line of the cache file is never selected. */
  lemma CachedNeverSelected(locs: seq<string>, cacheLines: seq<string>, u: string)
    requires u in cacheLines && IsStripped(u)
    ensures NewPost(locs, cacheLines) != Success(u)
  {
    var k :| 0 <= k < |cacheLines| && cacheLines[k] == u;
    assert Stripped(cacheLines)[k] == u;
  }
}
