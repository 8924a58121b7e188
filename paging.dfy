/** The pagination arithmetic shared by both listings: `skip = (page - 1) * limit`, `take = limit`,
    `totalPages = ceil(total / limit)`. */
module Paging {

  /** Rows skipped before the requested page. */
  function Skip(page: int, limit: int): int {
    (page - 1) * limit
  }

  function Min(a: int, b: int): int {
    if a <= b then a else b
  }

  /** Integer ceiling of `n / d`: the least number of pages of size `d` that hold `n` rows. */
  function CeilDiv(n: nat, d: nat): (q: nat)
    requires d >= 1
    ensures q * d >= n
    ensures q == 0 || (q - 1) * d < n
  {
    if n == 0 then 0 else 1 + CeilDiv(if n <= d then 0 else n - d, d)
  }

  /** The `meta` block of a listing. */
  datatype PageMeta = PageMeta(total: nat, page: int, limit: int, totalPages: nat)

  function Meta(total: nat, page: int, limit: int): (m: PageMeta)
    requires limit >= 1
    ensures m.total == total && m.page == page && m.limit == limit
    ensures m.totalPages * limit >= total
    ensures m.totalPages == 0 || (m.totalPages - 1) * limit < total
  {
    PageMeta(total, page, limit, CeilDiv(total, limit))
  }

  /** The rows `findMany({skip, take})` returns from the filtered, ordered rows `s`: at most `limit` of them,
      starting at index `skip`; nothing once `skip` is past the end. */
  function PageOf<T>(s: seq<T>, page: int, limit: int): (r: seq<T>)
    requires page >= 1 && limit >= 1
    ensures |r| <= limit
    ensures |r| == if Skip(page, limit) >= |s| then 0 else Min(limit, |s| - Skip(page, limit))
    ensures forall k :: 0 <= k < |r| ==> r[k] == s[Skip(page, limit) + k]
  {
    var lo := Min(Skip(page, limit), |s|);
    var hi := Min(Skip(page, limit) + limit, |s|);
    s[lo..hi]
  }

  /** Pages 1 to `n`, one after the other. */
  function FirstPages<T>(s: seq<T>, limit: int, n: nat): seq<T>
    requires limit >= 1
  {
    if n == 0 then [] else FirstPages(s, limit, n - 1) + PageOf(s, n, limit)
  }

  lemma SkipStep(n: nat, limit: int)
    requires n >= 1 && limit >= 1
    ensures Skip(n, limit) == (n - 1) * limit
    ensures n * limit == (n - 1) * limit + limit
  {
  }

  /** Page `n` is the slice between the first `n - 1` and the first `n` pages' worth of rows. */
  lemma PageIsSlice<T>(s: seq<T>, limit: int, n: nat)
    requires limit >= 1 && n >= 1
    ensures 0 <= Min((n - 1) * limit, |s|) <= Min(n * limit, |s|) <= |s|
    ensures PageOf(s, n, limit) == s[Min((n - 1) * limit, |s|)..Min(n * limit, |s|)]
  {
    SkipStep(n, limit);
  }

  /** The first `n` pages are exactly the first `n * limit` rows (or all of them). */
  lemma {:induction false} FirstPagesArePrefix<T>(s: seq<T>, limit: int, n: nat)
    requires limit >= 1
    ensures FirstPages(s, limit, n) == s[..Min(n * limit, |s|)]
  {
    if n > 0 {
      FirstPagesArePrefix(s, limit, n - 1);
      PageIsSlice(s, limit, n);
      PrefixThenSlice(s, Min((n - 1) * limit, |s|), Min(n * limit, |s|),
                      FirstPages(s, limit, n - 1), PageOf(s, n, limit));
    }
  }

  lemma PrefixThenSlice<T>(s: seq<T>, a: int, b: int, p: seq<T>, q: seq<T>)
    requires 0 <= a <= b <= |s| && p == s[..a] && q == s[a..b]
    ensures p + q == s[..b]
  {
    assert s[..b] == s[..a] + s[a..b];
  }

  /** The pages 1 to `totalPages` partition the filtered rows: read in order, they give back every row exactly
      once, so the per-page counts add up to `total`. */
  lemma PagesPartition<T>(s: seq<T>, limit: int)
    requires limit >= 1
    ensures FirstPages(s, limit, Meta(|s|, 1, limit).totalPages) == s
    ensures |FirstPages(s, limit, Meta(|s|, 1, limit).totalPages)| == |s|
  {
    var n := CeilDiv(|s|, limit);
    FirstPagesArePrefix(s, limit, n);
    assert Min(n * limit, |s|) == |s|;
  }

  /** Every page before the last is full. */
  lemma {:induction false} PagesBeforeLastAreFull<T>(s: seq<T>, page: int, limit: int)
    requires limit >= 1 && 1 <= page < Meta(|s|, page, limit).totalPages
    ensures |PageOf(s, page, limit)| == limit
  {
    var n := CeilDiv(|s|, limit);
    MulMonotone(page, n - 1, limit);
    assert page * limit <= (n - 1) * limit < |s|;
    SkipStep(page, limit);
  }

  /** A page past `totalPages` is empty. */
  lemma {:induction false} PageBeyondLastIsEmpty<T>(s: seq<T>, page: int, limit: int)
    requires limit >= 1 && page > Meta(|s|, page, limit).totalPages
    ensures PageOf(s, page, limit) == []
  {
    var n := CeilDiv(|s|, limit);
    MulMonotone(n, page - 1, limit);
    assert Skip(page, limit) >= n * limit >= |s|;
  }

  lemma MulMonotone(a: int, b: int, c: int)
    requires 0 <= a <= b && c >= 0
    ensures a * c <= b * c
  {
  }
}
