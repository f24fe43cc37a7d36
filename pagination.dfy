/**
 * The pagination-window calculator behind every paginated admin list
 * (users, external accounts, user groups).
 */
module Pagination {
  import opened Wrappers

  /** The window size every admin list passes in; the edge corrections use it directly. */
  const MAX_PAGE_LIST: int := 50

  /**
   * The pager handed to the list templates. `previous`/`next` are `null` (None)
   * at the ends; the dots flags are `true` or `null`, never `false`.
   */
  datatype Pager = Pager(
    page: int,
    pagesCount: int,
    pages: seq<int>,
    total: int,
    previous: Option<int>,
    previousDots: Option<bool>,
    next: Option<int>,
    nextDots: Option<bool>)

  /** The first and last page number of the window. */
  datatype Bounds = Bounds(min: int, max: int)

  function Max(a: int, b: int): int { if a < b then b else a }

  function Min(a: int, b: int): int { if a < b then a else b }

  /** The ascending run lo, lo + 1, ..., hi; empty when hi < lo. */
  function Run(lo: int, hi: int): seq<int>
    decreases if hi < lo then 0 else hi - lo + 1
  {
    if hi < lo then [] else Run(lo, hi - 1) + [hi]
  }

  /**
   * The window bounds after both edge corrections. `Math.ceil(page - m / 2)` and
   * `Math.floor(page + m / 2)` are `page - m / 2` and `page + m / 2` with the floor
   * division Dafny's `/` performs for the divisor 2. Whatever the window size, the
   * window never leaves the page range.
   */
  function WindowBounds(page: int, pagesCount: int, maxPageList: int): (b: Bounds)
    ensures 1 <= b.min && b.max <= pagesCount
  {
    var min0 := Max(1, page - maxPageList / 2);
    var max0 := Min(pagesCount, page + maxPageList / 2);
    var max1 := if min0 == 1 then (if MAX_PAGE_LIST < pagesCount then MAX_PAGE_LIST else pagesCount) else max0;
    var min1 := if max1 == pagesCount then (if max1 - MAX_PAGE_LIST < 1 then 1 else max1 - MAX_PAGE_LIST) else min0;
    Bounds(min1, max1)
  }

  /**
   * createPager: the previous/next links, the window of page numbers and the dots
   * flags for the current page. `limit` is accepted and ignored, as in the source.
   */
  method CreatePager(total: int, limit: int, page: int, pagesCount: int, maxPageList: int) returns (pager: Pager)
    ensures pager.page == page && pager.pagesCount == pagesCount && pager.total == total
    ensures pager.previous.Some? <==> page > 1
    ensures pager.previous.Some? ==> pager.previous.value == page - 1
    ensures pager.next.Some? <==> page < pagesCount
    ensures pager.next.Some? ==> pager.next.value == page + 1
    ensures var b := WindowBounds(page, pagesCount, maxPageList);
      && pager.pages == Run(b.min, b.max)
      && (pager.previousDots.Some? <==> b.min > 1)
      && (pager.nextDots.Some? <==> b.max < pagesCount)
    ensures pager.previousDots != Some(false) && pager.nextDots != Some(false)
  {
    var previous: Option<int> := None;
    var next: Option<int> := None;
    if page > 1 {
      previous := Some(page - 1);
    }
    if page < pagesCount {
      next := Some(page + 1);
    }

    var pagerMin := Max(1, page - maxPageList / 2);
    var pagerMax := Min(pagesCount, page + maxPageList / 2);
    if pagerMin == 1 {
      if MAX_PAGE_LIST < pagesCount {
        pagerMax := MAX_PAGE_LIST;
      } else {
        pagerMax := pagesCount;
      }
    }
    if pagerMax == pagesCount {
      if pagerMax - MAX_PAGE_LIST < 1 {
        pagerMin := 1;
      } else {
        pagerMin := pagerMax - MAX_PAGE_LIST;
      }
    }

    var previousDots: Option<bool> := None;
    if pagerMin > 1 {
      previousDots := Some(true);
    }
    var nextDots: Option<bool> := None;
    if pagerMax < pagesCount {
      nextDots := Some(true);
    }

    var pages: seq<int> := [];
    var i := pagerMin;
    while i <= pagerMax
      invariant pagerMin <= i
      invariant i <= pagerMax + 1 || i == pagerMin
      invariant pages == Run(pagerMin, i - 1)
      decreases pagerMax - i
    {
      pages := pages + [i];
      i := i + 1;
    }

    pager := Pager(page, pagesCount, pages, total, previous, previousDots, next, nextDots);
  }

  /** Run(lo, hi) has hi - lo + 1 entries (none when hi < lo) and its k-th entry is lo + k. */
  lemma {:induction false} RunShape(lo: int, hi: int)
    ensures |Run(lo, hi)| == if hi < lo then 0 else hi - lo + 1
    ensures forall k :: 0 <= k < |Run(lo, hi)| ==> Run(lo, hi)[k] == lo + k
    decreases if hi < lo then 0 else hi - lo + 1
  {
    if lo <= hi {
      RunShape(lo, hi - 1);
    }
  }

  /** A page number is in Run(lo, hi) exactly when it lies between lo and hi. */
  lemma RunMembers(lo: int, hi: int, x: int)
    ensures x in Run(lo, hi) <==> lo <= x <= hi
  {
    RunShape(lo, hi);
    if lo <= x <= hi {
      assert Run(lo, hi)[x - lo] == x;
    }
  }

  /** Whatever the window size, every listed page is a real page, and there are none when pagesCount <= 0. */
  lemma WindowWithinPages(page: int, pagesCount: int, maxPageList: int)
    ensures var b := WindowBounds(page, pagesCount, maxPageList);
      && (forall x :: x in Run(b.min, b.max) ==> 1 <= x <= pagesCount)
      && (pagesCount <= 0 ==> Run(b.min, b.max) == [])
  {
    var b := WindowBounds(page, pagesCount, maxPageList);
    forall x | x in Run(b.min, b.max)
      ensures 1 <= x <= pagesCount
    {
      RunMembers(b.min, b.max, x);
    }
    RunShape(b.min, b.max);
  }

  /** With the standard window size the current page is always listed when it exists. */
  lemma WindowContainsPage(page: int, pagesCount: int, maxPageList: int)
    requires maxPageList == MAX_PAGE_LIST
    requires 1 <= page <= pagesCount
    ensures var b := WindowBounds(page, pagesCount, maxPageList);
      page in Run(b.min, b.max)
  {
    var b := WindowBounds(page, pagesCount, maxPageList);
    RunMembers(b.min, b.max, page);
  }

  /**
   * With the standard window size at most MAX_PAGE_LIST + 1 pages are listed: the
   * centred window and the right-edge correction both span MAX_PAGE_LIST + 1 numbers.
   */
  lemma WindowSize(page: int, pagesCount: int, maxPageList: int)
    requires maxPageList == MAX_PAGE_LIST
    ensures var b := WindowBounds(page, pagesCount, maxPageList);
      |Run(b.min, b.max)| <= MAX_PAGE_LIST + 1
  {
    var b := WindowBounds(page, pagesCount, maxPageList);
    RunShape(b.min, b.max);
  }

  /** With the standard window size and at most MAX_PAGE_LIST pages, every page 1..pagesCount is listed, whatever `page` is, and no dots are shown. */
  lemma FewPagesShowAll(page: int, pagesCount: int, maxPageList: int)
    requires maxPageList == MAX_PAGE_LIST
    requires pagesCount <= MAX_PAGE_LIST
    ensures var b := WindowBounds(page, pagesCount, maxPageList);
      && |Run(b.min, b.max)| == Max(0, pagesCount)
      && (forall k :: 0 <= k < |Run(b.min, b.max)| ==> Run(b.min, b.max)[k] == k + 1)
      && !(b.min > 1) && !(b.max < pagesCount)
  {
    var b := WindowBounds(page, pagesCount, maxPageList);
    RunShape(b.min, b.max);
  }

  /**
   * With the standard window size and at least one page, whatever `page` is, the
   * dots mark hidden pages: `previousDots` is set exactly when page 1 is not listed
   * and `nextDots` exactly when the last page is not.
   */
  lemma DotsMarkHiddenPages(page: int, pagesCount: int, maxPageList: int)
    requires maxPageList == MAX_PAGE_LIST
    requires 1 <= pagesCount
    ensures var b := WindowBounds(page, pagesCount, maxPageList);
      && (b.min > 1 <==> 1 !in Run(b.min, b.max))
      && (b.max < pagesCount <==> pagesCount !in Run(b.min, b.max))
  {
    var b := WindowBounds(page, pagesCount, maxPageList);
    RunMembers(b.min, b.max, 1);
    RunMembers(b.min, b.max, pagesCount);
  }

  /** Page 60 of 100 lists pages 35..85: MAX_PAGE_LIST + 1 numbers, dots on both sides. */
  lemma MidRangeExample()
    ensures WindowBounds(60, 100, MAX_PAGE_LIST) == Bounds(35, 85)
    ensures |Run(35, 85)| == MAX_PAGE_LIST + 1
  {
    RunShape(35, 85);
  }

  /** Page 1 of 50 lists pages 1..50 with no dots. */
  lemma FirstPageExample()
    ensures WindowBounds(1, 50, MAX_PAGE_LIST) == Bounds(1, 50)
  {
  }
}
