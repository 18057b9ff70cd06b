/**
 The table's pagination arithmetic: the record offset of a selected page,
 the number of pages, whether the pager is shown and the "Results" label
 under it. The page size is an arbitrary positive number of records.
 */
module Paging {

  /** The page size: any positive number of records. */
  type PageSize = n: nat | 0 < n witness 1

  /**
   The record offset of the zero-based page `selected`. Both operands of the
   remainder are non-negative, where JavaScript's `%` agrees with Dafny's.
   */
  function PageOffset(selected: nat, totalCount: nat, pageSize: PageSize): (offset: nat)
    requires 0 < totalCount
    ensures offset < totalCount
    ensures selected * pageSize < totalCount ==> offset == selected * pageSize
  {
    (selected * pageSize) % totalCount
  }

  /** The number of pages: the ceiling of totalCount / pageSize, on whole records. */
  function PageCount(totalCount: nat, pageSize: PageSize): (pages: nat)
    ensures totalCount <= pages * pageSize
    ensures 0 < pages ==> (pages - 1) * pageSize < totalCount
    ensures pages == 0 <==> totalCount == 0
  {
    var q, r := (totalCount + pageSize - 1) / pageSize, (totalCount + pageSize - 1) % pageSize;
    assert q * pageSize + r == totalCount + pageSize - 1;
    assert 0 < q ==> (q - 1) * pageSize == q * pageSize - pageSize;
    q
  }

  /**
   The pager and the label under it are rendered only when there is more
   than one page's worth of records, which is exactly when there are at
   least two pages.
   */
  predicate PagerShown(totalCount: nat, pageSize: PageSize)
    ensures PagerShown(totalCount, pageSize) <==> 2 <= PageCount(totalCount, pageSize)
  {
    var n := PageCount(totalCount, pageSize);
    assert 2 <= n ==> pageSize <= (n - 1) * pageSize by {
      if 2 <= n { MulMonotone(1, n - 1, pageSize); }
    }
    assert pageSize < totalCount ==> !(totalCount <= 1 * pageSize);
    pageSize < totalCount
  }

  /** No smaller number of pages holds every record. */
  lemma PageCountIsLeast(totalCount: nat, pageSize: PageSize, pages: nat)
    requires totalCount <= pages * pageSize
    ensures PageCount(totalCount, pageSize) <= pages
  {
    var n := PageCount(totalCount, pageSize);
    if pages < n {
      assert pages * pageSize <= (n - 1) * pageSize by {
        MulMonotone(pages, n - 1, pageSize);
      }
    }
  }

  /**
   For a page the pager offers, the remainder never wraps: the offset is
   the page index times the page size, a multiple of the page size.
   */
  lemma OffsetOfOfferedPage(selected: nat, totalCount: nat, pageSize: PageSize)
    requires selected < PageCount(totalCount, pageSize)
    ensures 0 < totalCount
    ensures PageOffset(selected, totalCount, pageSize) == selected * pageSize
    ensures PageOffset(selected, totalCount, pageSize) % pageSize == 0
  {
    var n := PageCount(totalCount, pageSize);
    MulMonotone(selected, n - 1, pageSize);
  }

  /** The number of records in [offset, offset + pageSize) of a collection of totalCount records. */
  function RowsAt(offset: nat, totalCount: nat, pageSize: PageSize): (rows: nat)
    requires offset <= totalCount
    ensures rows <= pageSize && offset + rows <= totalCount
    ensures offset + rows == totalCount || rows == pageSize
  {
    if totalCount - offset < pageSize then totalCount - offset else pageSize
  }

  /** The upper end of the "Results" label: a record number, or "..." while a page is loading. */
  datatype LabelEnd = Through(last: int) | Loading

  /** What the table shows under its rows. */
  datatype Footer =
    | Hidden
    | Pager(pageCount: nat, first: int, last: LabelEnd, totalCount: nat)

  /**
   The footer for the given state: the pager with "Results: first - last of
   totalCount", where the shown rows start after `offset`.
   */
  function RenderFooter(totalCount: nat, pageSize: PageSize, offset: nat, isFetching: bool, rowCount: nat): (f: Footer)
    ensures f.Pager? <==> PagerShown(totalCount, pageSize)
    ensures f.Pager? ==> f.pageCount == PageCount(totalCount, pageSize) && 2 <= f.pageCount
    ensures f.Pager? ==> f.first == offset + 1 && f.totalCount == totalCount
    ensures f.Pager? ==> (f.last.Loading? <==> isFetching)
    ensures f.Pager? && !isFetching ==> f.last.last - f.first + 1 == rowCount
  {
    if !PagerShown(totalCount, pageSize) then Hidden
    else
      Pager(PageCount(totalCount, pageSize),
            offset + 1,
            if !isFetching then Through(offset + rowCount) else Loading,
            totalCount)
  }

  /** The footer once page `selected` has loaded with every record the collection has there. */
  function LoadedFooter(selected: nat, totalCount: nat, pageSize: PageSize): Footer
    requires selected < PageCount(totalCount, pageSize)
  {
    var offset := PageOffset(selected, totalCount, pageSize);
    RenderFooter(totalCount, pageSize, offset, false, RowsAt(offset, totalCount, pageSize))
  }

  /** A loaded page's label lies within 1 .. totalCount and is never empty. */
  lemma LoadedLabelWithinTotal(selected: nat, totalCount: nat, pageSize: PageSize)
    requires PagerShown(totalCount, pageSize)
    requires selected < PageCount(totalCount, pageSize)
    ensures LoadedFooter(selected, totalCount, pageSize).Pager?
    ensures var f := LoadedFooter(selected, totalCount, pageSize);
      1 <= f.first && f.last.Through? && f.first <= f.last.last <= totalCount
  {
  }

  /** Consecutive loaded pages label adjacent ranges: no record is skipped or shown twice. */
  lemma LoadedLabelsAdjacent(selected: nat, totalCount: nat, pageSize: PageSize)
    requires selected + 1 < PageCount(totalCount, pageSize)
    ensures LoadedFooter(selected, totalCount, pageSize).Pager?
    ensures LoadedFooter(selected + 1, totalCount, pageSize).Pager?
    ensures LoadedFooter(selected, totalCount, pageSize).last
         == Through(LoadedFooter(selected + 1, totalCount, pageSize).first - 1)
  {
    OffsetOfOfferedPage(selected, totalCount, pageSize);
    OffsetOfOfferedPage(selected + 1, totalCount, pageSize);
    var offset := selected * pageSize;
    assert (selected + 1) * pageSize == offset + pageSize;
    assert offset + pageSize < totalCount;
  }

  /** The first page's label starts at record 1 and the last page's ends at totalCount. */
  lemma LoadedLabelsSpanAll(totalCount: nat, pageSize: PageSize)
    requires PagerShown(totalCount, pageSize)
    ensures 0 < PageCount(totalCount, pageSize)
    ensures LoadedFooter(0, totalCount, pageSize).Pager?
    ensures LoadedFooter(0, totalCount, pageSize).first == 1
    ensures LoadedFooter(PageCount(totalCount, pageSize) - 1, totalCount, pageSize).Pager?
    ensures LoadedFooter(PageCount(totalCount, pageSize) - 1, totalCount, pageSize).last == Through(totalCount)
  {
    var n := PageCount(totalCount, pageSize);
    OffsetOfOfferedPage(0, totalCount, pageSize);
    OffsetOfOfferedPage(n - 1, totalCount, pageSize);
    assert (n - 1) * pageSize + pageSize == n * pageSize;
  }

  /** Page counts and offsets for a few concrete collections, including one where the remainder wraps. */
  lemma WorkedExamples()
    ensures PageOffset(2, 45, 20) == 40
    ensures PageOffset(5, 30, 10) == 20
    ensures PageCount(45, 20) == 3
  {
  }

  /** Multiplying by a non-negative number keeps order. */
  lemma MulMonotone(a: nat, b: nat, c: nat)
    requires a <= b
    ensures a * c <= b * c
  {
  }
}
