/** Client-side paging as both list screens do it: `Math.ceil` for the page
    count, a clamp that pulls the current page back inside the range, and
    `Array.prototype.slice` for the visible window. */
module Pagination {

  function Min(a: int, b: int): int {
    if a <= b then a else b
  }

  function Max(a: int, b: int): int {
    if a >= b then a else b
  }

  /** `Math.ceil(n / d)` for whole numbers: the fewest pages of `d` that hold `n`. */
  function CeilDiv(n: nat, d: nat): (k: nat)
    requires d > 0
    ensures k * d >= n
    ensures k > 0 ==> (k - 1) * d < n
    decreases n
  {
    if n == 0 then 0 else if n <= d then 1 else 1 + CeilDiv(n - d, d)
  }

  /** `s.slice(start, end)` for non-negative bounds: out-of-range bounds are
      clamped to the length and an inverted range is empty. */
  function Slice<T>(s: seq<T>, start: nat, end: nat): (r: seq<T>)
    ensures start <= |s| && start <= end ==> r == s[start..Min(end, |s|)]
    ensures start >= |s| || end <= start ==> r == []
  {
    var a := Min(start, |s|);
    var b := Min(end, |s|);
    if a < b then s[a..b] else []
  }

  /** The items of page `page` (counted from 1) at `per` items a page. */
  function PageOf<T>(all: seq<T>, page: nat, per: nat): (r: seq<T>)
    requires page >= 1
    ensures |r| <= per
    ensures (page - 1) * per <= |all| ==> r == all[(page - 1) * per..Min(page * per, |all|)]
    ensures (page - 1) * per >= |all| ==> r == []
  {
    assert (page - 1) * per + per == page * per;
    Slice(all, (page - 1) * per, (page - 1) * per + per)
  }

  /** The concatenation of pages `1..n`. */
  function PagesUpTo<T>(all: seq<T>, per: nat, n: nat): seq<T> {
    if n == 0 then [] else PagesUpTo(all, per, n - 1) + PageOf(all, n, per)
  }

  /** The first `n` pages are exactly the first `n * per` items. */
  lemma {:induction false} PagesUpToIsPrefix<T>(all: seq<T>, per: nat, n: nat)
    ensures PagesUpTo(all, per, n) == all[..Min(n * per, |all|)]
  {
    if n > 0 {
      PagesUpToIsPrefix(all, per, n - 1);
      assert (n - 1) * per + per == n * per;
      if (n - 1) * per <= |all| {
        assert all[..Min(n * per, |all|)]
          == all[..(n - 1) * per] + all[(n - 1) * per..Min(n * per, |all|)];
      }
    }
  }

  /** Paging loses nothing and repeats nothing: the pages `1..⌈len/per⌉`,
      read in order, are the whole list. */
  lemma PagesCoverAll<T>(all: seq<T>, per: nat)
    requires per > 0
    ensures PagesUpTo(all, per, CeilDiv(|all|, per)) == all
  {
    PagesUpToIsPrefix(all, per, CeilDiv(|all|, per));
  }

  /** A page within the count holds at least one item. */
  lemma PageInRangeNonEmpty<T>(all: seq<T>, page: nat, per: nat)
    requires per > 0
    requires 1 <= page <= CeilDiv(|all|, per)
    ensures PageOf(all, page, per) != []
  {
    var k := CeilDiv(|all|, per);
    assert (page - 1) * per <= (k - 1) * per;
  }

  /** `if (currentPage > totalPages) currentPage = Math.max(1, totalPages)`. */
  function ClampPage(current: int, total: nat): (p: int)
    ensures current <= total ==> p == current
    ensures current > total ==> p == Max(1, total)
  {
    if current > total then Max(1, total) else current
  }

  /** Clamping keeps a page that starts at 1 inside `1..max(1, total)`. */
  lemma ClampInRange(current: int, total: nat)
    requires current >= 1
    ensures 1 <= ClampPage(current, total) <= Max(1, total)
  {
  }
}
