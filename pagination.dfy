/** The pager of the product list (`ProductList/src/components/Pagination/Pagination.tsx`): the
    number of pages, the window of page numbers with ellipses, and the previous / next
    buttons. */
module Pagination {
  import opened Base

  const MaxVisible: int := 5

  /** An entry of the page-number list: a page button or the `'...'` marker. */
  datatype PageEntry = PageNumber(n: int) | Ellipsis

  /** `Math.ceil(a / b)` for a positive divisor: the least `r` with `a <= r * b`. */
  function CeilDiv(a: int, b: int): (r: int)
    requires b > 0
    ensures (r - 1) * b < a <= r * b
  {
    var q := (-a) / b;
    assert -a == b * q + (-a) % b;
    assert (-q - 1) * b == -(b * q) - b;
    -q
  }

  function TotalPages(total: int, pageSize: int): int
    requires pageSize > 0
  {
    CeilDiv(total, pageSize)
  }

  /** The pager shows only when the items do not fit on one page. */
  lemma ShownIffMoreThanOnePage(total: int, pageSize: int)
    requires pageSize > 0
    ensures TotalPages(total, pageSize) > 1 <==> total > pageSize
  {
    var r := TotalPages(total, pageSize);
    if r > 1 {
      MulNonneg(r - 2, pageSize);
      assert (r - 1) * pageSize == (r - 2) * pageSize + pageSize;
    } else {
      MulNonneg(1 - r, pageSize);
      assert r * pageSize == pageSize - (1 - r) * pageSize;
    }
  }

  lemma {:induction false} MulNonneg(x: int, y: int)
    requires x >= 0 && y >= 0
    ensures x * y >= 0
    decreases x
  {
    if x > 0 {
      MulNonneg(x - 1, y);
      assert x * y == (x - 1) * y + y;
    }
  }

  /** The page buttons `lo` to `hi`. */
  function Range(lo: int, hi: int): (r: seq<PageEntry>)
    ensures |r| == if lo <= hi then hi - lo + 1 else 0
    ensures forall k | 0 <= k < |r| :: r[k] == PageNumber(lo + k)
  {
    seq(if lo <= hi then hi - lo + 1 else 0, k => PageNumber(lo + k))
  }

  /** The list `getPageNumbers` builds, branch by branch. */
  function Window(current: int, totalPages: int): seq<PageEntry> {
    if totalPages <= MaxVisible then Range(1, totalPages)
    else if current <= 3 then Range(1, 4) + [Ellipsis, PageNumber(totalPages)]
    else if current >= totalPages - 2 then [PageNumber(1), Ellipsis] + Range(totalPages - 3, totalPages)
    else [PageNumber(1), Ellipsis] + Range(current - 1, current + 1) + [Ellipsis, PageNumber(totalPages)]
  }

  /** `getPageNumbers`: pushes the buttons and markers with its `for` loops. */
  method GetPageNumbers(current: int, totalPages: int) returns (pages: seq<PageEntry>)
    ensures pages == Window(current, totalPages)
  {
    pages := [];
    if totalPages <= MaxVisible {
      pages := PushRange(pages, 1, totalPages);
    } else if current <= 3 {
      pages := PushRange(pages, 1, 4);
      pages := pages + [Ellipsis];
      pages := pages + [PageNumber(totalPages)];
    } else if current >= totalPages - 2 {
      pages := pages + [PageNumber(1)];
      pages := pages + [Ellipsis];
      pages := PushRange(pages, totalPages - 3, totalPages);
    } else {
      pages := pages + [PageNumber(1)];
      pages := pages + [Ellipsis];
      pages := PushRange(pages, current - 1, current + 1);
      pages := pages + [Ellipsis];
      pages := pages + [PageNumber(totalPages)];
    }
  }

  /** `for (let i = lo; i <= hi; i++) pages.push(i)`. */
  method PushRange(pages: seq<PageEntry>, lo: int, hi: int) returns (r: seq<PageEntry>)
    ensures r == pages + Range(lo, hi)
  {
    r := pages;
    var i := lo;
    while i <= hi
      invariant lo <= i <= hi + 1 || (i == lo && hi < lo)
      invariant r == pages + Range(lo, i - 1)
      decreases hi - i
    {
      assert Range(lo, i) == Range(lo, i - 1) + [PageNumber(i)];
      r := r + [PageNumber(i)];
      i := i + 1;
    }
  }

  /** Up to five pages are all listed. */
  lemma FewPagesAllListed(current: int, totalPages: int)
    requires totalPages <= MaxVisible
    ensures |Window(current, totalPages)| == if totalPages >= 1 then totalPages else 0
    ensures forall k | 0 <= k < |Window(current, totalPages)| :: Window(current, totalPages)[k] == PageNumber(k + 1)
  {
  }

  /** Near the start: `[1, 2, 3, 4, '...', totalPages]`. */
  lemma WindowAtStart(current: int, totalPages: int)
    requires totalPages > MaxVisible && current <= 3
    ensures Window(current, totalPages) ==
      [PageNumber(1), PageNumber(2), PageNumber(3), PageNumber(4), Ellipsis, PageNumber(totalPages)]
  {
  }

  /** Near the end: `[1, '...', totalPages - 3, ..., totalPages]`. */
  lemma WindowAtEnd(current: int, totalPages: int)
    requires totalPages > MaxVisible && 3 < current && current >= totalPages - 2
    ensures Window(current, totalPages) ==
      [PageNumber(1), Ellipsis, PageNumber(totalPages - 3), PageNumber(totalPages - 2),
       PageNumber(totalPages - 1), PageNumber(totalPages)]
  {
  }

  /** In the middle: the current page with one neighbour on each side, between ellipses. */
  lemma WindowInMiddle(current: int, totalPages: int)
    requires totalPages > MaxVisible && 3 < current < totalPages - 2
    ensures Window(current, totalPages) ==
      [PageNumber(1), Ellipsis, PageNumber(current - 1), PageNumber(current), PageNumber(current + 1),
       Ellipsis, PageNumber(totalPages)]
  {
  }

  /** The page numbers in the list strictly increase. */
  predicate NumbersIncrease(w: seq<PageEntry>) {
    forall x, y | 0 <= x < y < |w| && w[x].PageNumber? && w[y].PageNumber? :: w[x].n < w[y].n
  }

  /** Each marker sits between two page numbers and stands for at least one hidden page. */
  predicate MarkersHidePages(w: seq<PageEntry>) {
    forall k | 0 <= k < |w| && w[k].Ellipsis? ::
      0 < k < |w| - 1 && w[k - 1].PageNumber? && w[k + 1].PageNumber? && w[k - 1].n + 1 < w[k + 1].n
  }

  /** The facts every window of at least two pages has. */
  predicate WellShaped(w: seq<PageEntry>, current: int, totalPages: int) {
    |w| <= 7 && |w| >= 1 && w[0] == PageNumber(1) && w[|w| - 1] == PageNumber(totalPages) &&
    NumbersIncrease(w) && MarkersHidePages(w) &&
    (forall k | 0 <= k < |w| && w[k].PageNumber? :: 1 <= w[k].n <= totalPages) &&
    (1 <= current <= totalPages ==> PageNumber(current) in w)
  }

  lemma ShapeFew(current: int, totalPages: int)
    requires 1 < totalPages <= MaxVisible
    ensures WellShaped(Window(current, totalPages), current, totalPages)
  {
    var w := Window(current, totalPages);
    if 1 <= current <= totalPages {
      assert w[current - 1] == PageNumber(current);
    }
  }

  lemma ShapeAtStart(current: int, totalPages: int)
    requires totalPages > MaxVisible && current <= 3
    ensures WellShaped(Window(current, totalPages), current, totalPages)
  {
    var w := Window(current, totalPages);
    WindowAtStart(current, totalPages);
    if 1 <= current {
      assert w[current - 1] == PageNumber(current);
    }
  }

  lemma ShapeAtEnd(current: int, totalPages: int)
    requires totalPages > MaxVisible && 3 < current && current >= totalPages - 2
    ensures WellShaped(Window(current, totalPages), current, totalPages)
  {
    var w := Window(current, totalPages);
    WindowAtEnd(current, totalPages);
    if current <= totalPages {
      assert w[current - totalPages + 5] == PageNumber(current);
    }
  }

  lemma ShapeInMiddle(current: int, totalPages: int)
    requires totalPages > MaxVisible && 3 < current < totalPages - 2
    ensures WellShaped(Window(current, totalPages), current, totalPages)
  {
    var w := Window(current, totalPages);
    WindowInMiddle(current, totalPages);
    assert w[3] == PageNumber(current);
  }

  /** A window of at least two pages has at most seven entries, starts at page 1 and ends at the
      last page, lists its numbers in increasing order within range, shows the current page when
      it is one, and every ellipsis hides at least one page. */
  lemma WindowShape(current: int, totalPages: int)
    requires totalPages > 1
    ensures WellShaped(Window(current, totalPages), current, totalPages)
  {
    if totalPages <= MaxVisible {
      ShapeFew(current, totalPages);
    } else if current <= 3 {
      ShapeAtStart(current, totalPages);
    } else if current >= totalPages - 2 {
      ShapeAtEnd(current, totalPages);
    } else {
      ShapeInMiddle(current, totalPages);
    }
  }

  /** `handlePrevious`: the page reported, if any. */
  function HandlePrevious(current: int): (r: Option<int>)
    ensures r.Some? <==> current > 1
    ensures r.Some? ==> r.value == current - 1
  {
    if current > 1 then Some(current - 1) else None
  }

  /** `handleNext`: the page reported, if any. */
  function HandleNext(current: int, totalPages: int): (r: Option<int>)
    ensures r.Some? <==> current < totalPages
    ensures r.Some? ==> r.value == current + 1
  {
    if current < totalPages then Some(current + 1) else None
  }

  /** A click on an entry: page buttons report their page, the marker is not a button. */
  function ClickEntry(e: PageEntry): Option<int> {
    match e
    case PageNumber(n) => Some(n)
    case Ellipsis => None
  }

  /** What the pager renders: nothing, or the two buttons' disabled flags around the entries. */
  datatype PagerView = PagerView(previousDisabled: bool, entries: seq<PageEntry>, nextDisabled: bool)

  function Render(current: int, total: int, pageSize: int): (v: Option<PagerView>)
    requires pageSize > 0
    ensures v.None? <==> total <= pageSize
    ensures v.Some? ==> v.value.entries == Window(current, TotalPages(total, pageSize))
  {
    ShownIffMoreThanOnePage(total, pageSize);
    var totalPages := TotalPages(total, pageSize);
    if totalPages <= 1 then None
    else Some(PagerView(current == 1, Window(current, totalPages), current == totalPages))
  }

  /** For a current page in range, a button is disabled exactly when its handler would report
      nothing, every reported page stays in range, and a page button reports a page in range. */
  lemma ButtonsMatchHandlers(current: int, total: int, pageSize: int)
    requires pageSize > 0 && total > pageSize
    requires 1 <= current <= TotalPages(total, pageSize)
    ensures var v := Render(current, total, pageSize).value;
      var totalPages := TotalPages(total, pageSize);
      (v.previousDisabled <==> HandlePrevious(current).None?) &&
      (v.nextDisabled <==> HandleNext(current, totalPages).None?) &&
      (HandlePrevious(current).Some? ==> 1 <= HandlePrevious(current).value <= totalPages) &&
      (HandleNext(current, totalPages).Some? ==> 1 <= HandleNext(current, totalPages).value <= totalPages) &&
      (forall e | e in v.entries && ClickEntry(e).Some? :: 1 <= ClickEntry(e).value <= totalPages)
  {
    var totalPages := TotalPages(total, pageSize);
    ShownIffMoreThanOnePage(total, pageSize);
    WindowShape(current, totalPages);
    var w := Window(current, totalPages);
    forall e | e in w && ClickEntry(e).Some? ensures 1 <= ClickEntry(e).value <= totalPages {
      var k :| 0 <= k < |w| && w[k] == e;
    }
  }
}
