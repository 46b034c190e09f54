/**
 * The paging arithmetic shared by the `posts` resolver and the REST
 * `getPosts` controller: a page number, `skip = (page - 1) * 2`, `limit 2`.
 */
module Paging {
  import opened Wrappers

  /** `perPage` in both the resolver and the controller. */
  const PerPage: nat := 2

  function Min(a: int, b: int): (m: int) {
    if a <= b then a else b
  }

  /** `(page - 1) * perPage`; negative for a page below 1. */
  function Skip(page: int): (skip: int)
    ensures skip < 0 <==> page < 1
    ensures skip % PerPage == 0
  {
    (page - 1) * PerPage
  }

  /**
   * The resolver's `if (!page) { page = 1; }`: a missing page and page 0
   * (both falsy) become 1, every other number is kept.
   */
  function GraphQLPage(page: Option<int>): (p: int)
    ensures p != 0
    ensures p == 1 <==> page.None? || page.value == 0 || page.value == 1
    ensures page.Some? && page.value != 0 ==> p == page.value
  {
    if page.None? || page.value == 0 then 1 else page.value
  }

  /**
   * The controller's `req.query.page || 1`: a query value is a string, and
   * every non-empty string (including "0") is truthy, so only a missing
   * page becomes 1.
   */
  function RestPage(page: Option<int>): (p: int)
    ensures page.Some? ==> p == page.value
    ensures page.None? ==> p == 1
  {
    if page.None? then 1 else page.value
  }

  /** `.skip(skip).limit(limit)` over a list of documents. */
  function Window<T>(s: seq<T>, skip: nat, limit: nat): (w: seq<T>)
    ensures |w| == if skip >= |s| then 0 else Min(limit, |s| - skip)
    ensures forall k :: 0 <= k < |w| ==> w[k] == s[skip + k]
  {
    if skip >= |s| then [] else s[skip..skip + Min(limit, |s| - skip)]
  }

  /** Pages 1 to `n`, one after the other. */
  function Pages<T>(s: seq<T>, n: nat): (r: seq<T>) {
    if n == 0 then [] else Pages(s, n - 1) + Window(s, Skip(n), PerPage)
  }

  /** Reading pages 1 to `n` in turn yields the first `2 * n` documents: no gap, no repeat. */
  lemma {:induction false} PagesCover<T>(s: seq<T>, n: nat)
    ensures Pages(s, n) == s[..Min(PerPage * n, |s|)]
  {
    if n > 0 {
      PagesCover(s, n - 1);
      var lo := Min(PerPage * (n - 1), |s|);
      var hi := Min(PerPage * n, |s|);
      assert Skip(n) == PerPage * (n - 1);
      if Skip(n) >= |s| {
        assert lo == hi;
      } else {
        assert Window(s, Skip(n), PerPage) == s[lo..hi];
      }
      assert s[..lo] + s[lo..hi] == s[..hi];
    }
  }

  /** Enough pages list every document exactly once, in order. */
  lemma PagesCoverAll<T>(s: seq<T>)
    ensures Pages(s, (|s| + 1) / PerPage) == s
  {
    PagesCover(s, (|s| + 1) / PerPage);
    assert Min(PerPage * ((|s| + 1) / PerPage), |s|) == |s|;
  }

  /** The document at position `k` is shown on page `k / 2 + 1`, at slot `k % 2`. */
  lemma PageOf<T>(s: seq<T>, k: nat)
    requires k < |s|
    ensures var w := Window(s, Skip(k / PerPage + 1), PerPage);
            k % PerPage < |w| && w[k % PerPage] == s[k]
  {
    assert Skip(k / PerPage + 1) == k - k % PerPage;
  }

  /** A missing page and page 0 both show the first two documents. */
  lemma FirstPageDefault<T>(s: seq<T>)
    ensures Window(s, Skip(GraphQLPage(None)), PerPage) == s[..Min(PerPage, |s|)]
    ensures Window(s, Skip(GraphQLPage(Some(0))), PerPage) == s[..Min(PerPage, |s|)]
  {
  }

  /** On the REST route the query "0" is truthy and yields a negative skip. */
  lemma RestPageZeroSkipsBackwards()
    ensures Skip(RestPage(Some(0))) < 0 && Skip(GraphQLPage(Some(0))) == 0
  {
  }
}
