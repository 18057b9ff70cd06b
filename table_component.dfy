/**
 The data table's own state and event handlers: the sorting-change
 handler, which forwards the widget's new sort state to the owner, and the
 page-click handler, which records the new offset, raises the loading flag,
 requests the page and lowers the flag again however the request ends.
 */
module TableComponent {
  import opened SortState
  import opened Paging

  /** The pagination variables of one fetch-more request. */
  datatype PageRequest = PageRequest(limit: nat, offset: nat)

  /** A fetch-more call as it was issued: its request and whether the loading flag was up at that moment. */
  datatype IssuedFetch = IssuedFetch(request: PageRequest, whileFetching: bool)

  /** How the fetch-more promise settles: with the fetched rows, or rejected. */
  datatype FetchResponse<Row> = Fetched(rows: seq<Row>) | Rejected(reason: string)

  /** How the page-click handler's own promise settles. */
  datatype Completion = Resolved | Thrown(reason: string)

  /** The merge passed to fetch-more: the fetched result replaces the previous one. */
  function UpdateQuery<Q>(previousResult: Q, fetchMoreResult: Q): Q
  {
    fetchMoreResult
  }

  /** The previous result has no say in the merged one. */
  lemma UpdateQueryIgnoresPrevious<Q>(previous1: Q, previous2: Q, fetchMoreResult: Q)
    ensures UpdateQuery(previous1, fetchMoreResult) == UpdateQuery(previous2, fetchMoreResult) == fetchMoreResult
  {
  }

  class Table<Row> {
    /** The page size the table requests and counts pages by. */
    const pageSize: PageSize
    /** Maps the widget's sort state back to sort descriptors; its definition is not part of this model. */
    const transformSortingState: seq<ColumnSort> -> seq<SortDescriptor>

    /** The owner's sort descriptors, as passed in. */
    var sorting: seq<SortDescriptor>
    /** The rows of the current query result. */
    var data: seq<Row>
    /** The record offset of the page last asked for. */
    var offset: nat
    /** True while a page fetch is outstanding; drives the loading overlay. */
    var isFetching: bool

    /** Every value handed to the owner's setSorting, oldest first. */
    var sortingUpdates: seq<seq<SortDescriptor>>
    /** Every fetch-more call issued, oldest first. */
    var fetches: seq<IssuedFetch>

    constructor (pageSize: PageSize, transformSortingState: seq<ColumnSort> -> seq<SortDescriptor>,
                 sorting: seq<SortDescriptor>, data: seq<Row>)
      ensures this.pageSize == pageSize && this.transformSortingState == transformSortingState
      ensures this.sorting == sorting && this.data == data
      ensures offset == 0 && !isFetching
      ensures sortingUpdates == [] && fetches == []
    {
      this.pageSize := pageSize;
      this.transformSortingState := transformSortingState;
      this.sorting := sorting;
      this.data := data;
      offset := 0;
      isFetching := false;
      sortingUpdates := [];
      fetches := [];
    }

    /** The pager and label the table currently shows for a collection of totalCount records. */
    function Footer(totalCount: nat): (f: Paging.Footer)
      reads this
      ensures f.Pager? <==> PagerShown(totalCount, pageSize)
      ensures f.Pager? ==> f.first == offset + 1 && f.pageCount == PageCount(totalCount, pageSize)
      ensures f.Pager? ==> f.totalCount == totalCount
      ensures f.Pager? ==> f.last == if isFetching then Loading else Through(offset + |data|)
    {
      RenderFooter(totalCount, pageSize, offset, isFetching, |data|)
    }

    /** The owner's setter, seen from the table: one more value handed over. */
    method SetSorting(value: seq<SortDescriptor>)
      modifies this`sortingUpdates
      ensures sortingUpdates == old(sortingUpdates) + [value]
    {
      sortingUpdates := sortingUpdates + [value];
    }

    /**
     The sorting-change handler: an updater is applied to the current widget
     state, a literal state is taken as is, and setSorting is called exactly
     once with the transformed result.
     */
    method HandleSortingChange(change: SortingChange)
      modifies this`sortingUpdates
      ensures |sortingUpdates| == |old(sortingUpdates)| + 1
      ensures sortingUpdates[..|old(sortingUpdates)|] == old(sortingUpdates)
      ensures change.Updater? ==>
        sortingUpdates[|sortingUpdates| - 1] == transformSortingState(change.update(ToSortingState(sorting)))
      ensures change.NewState? ==>
        sortingUpdates[|sortingUpdates| - 1] == transformSortingState(change.state)
    {
      var sortingState := ToSortingState(sorting);
      if change.Updater? {
        var value := change.update(sortingState);
        SetSorting(transformSortingState(value));
        return;
      }
      SetSorting(transformSortingState(change.state));
    }

    /**
     The fetch-more call: records the request and, when the promise resolves,
     merges the fetched rows with UpdateQuery; a rejection leaves the rows alone.
     */
    method FetchMore(request: PageRequest, response: FetchResponse<Row>) returns (done: Completion)
      modifies this`data, this`fetches
      ensures fetches == old(fetches) + [IssuedFetch(request, isFetching)]
      ensures data == if response.Fetched? then UpdateQuery(old(data), response.rows) else old(data)
      ensures done == if response.Fetched? then Resolved else Thrown(response.reason)
    {
      fetches := fetches + [IssuedFetch(request, isFetching)];
      match response
      case Fetched(rows) =>
        data := UpdateQuery(data, rows);
        done := Resolved;
      case Rejected(reason) =>
        done := Thrown(reason);
    }

    /**
     The page-click handler for zero-based page `selected`. It is wired to the
     pager only, so it runs only while the pager is shown.
     */
    method HandlePageClick(selected: nat, totalCount: nat, response: FetchResponse<Row>) returns (done: Completion)
      requires PagerShown(totalCount, pageSize)
      modifies this`offset, this`isFetching, this`data, this`fetches
      ensures offset == PageOffset(selected, totalCount, pageSize) && offset < totalCount
      ensures selected < PageCount(totalCount, pageSize) ==> offset == selected * pageSize && offset % pageSize == 0
      ensures fetches == old(fetches) + [IssuedFetch(PageRequest(pageSize, offset), true)]
      ensures data == if response.Fetched? then response.rows else old(data)
      ensures !isFetching
      ensures done == if response.Fetched? then Resolved else Thrown(response.reason)
      ensures Footer(totalCount).Pager? && Footer(totalCount).last == Through(offset + |data|)
      ensures response.Fetched? && selected < PageCount(totalCount, pageSize)
              && |response.rows| == RowsAt(offset, totalCount, pageSize)
              ==> Footer(totalCount) == LoadedFooter(selected, totalCount, pageSize)
    {
      var newOffset := PageOffset(selected, totalCount, pageSize);
      offset := newOffset;
      // try
      isFetching := true;
      done := FetchMore(PageRequest(pageSize, newOffset), response);
      // finally
      isFetching := false;
      if selected < PageCount(totalCount, pageSize) {
        OffsetOfOfferedPage(selected, totalCount, pageSize);
      }
    }
  }

  /**
   Two clicks on a table of 45 records in pages of 20: a failed fetch of
   page 2 and a good fetch of page 1, which returns its 20 records. Each
   time the flag is low again afterwards, and the failure is passed on.
   */
  method PageClickScenario(table: Table<int>)
    requires table.pageSize == 20
    modifies table
    ensures !table.isFetching && table.offset == 20 && table.data == seq(20, i => 20 + i)
    ensures table.Footer(45) == Pager(3, 21, Through(40), 45)
  {
    var done := table.HandlePageClick(2, 45, Rejected("network"));
    assert !table.isFetching && done == Thrown("network");
    assert table.offset == 40 && table.fetches[|table.fetches| - 1] == IssuedFetch(PageRequest(20, 40), true);
    done := table.HandlePageClick(1, 45, Fetched(seq(20, i => 20 + i)));
    assert !table.isFetching && done == Resolved;
  }

  /**
   The offset is stored before the fetch and the rows change only when it
   succeeds, so after a rejected fetch the label pairs the new offset with
   the previous page's row count. On 45 records in pages of 20, a table
   showing page 0 that fails to fetch page 2 reads "Results: 41 - 60 of 45",
   past the total.
   */
  method StaleLabelAfterRejection(table: Table<int>)
    requires table.pageSize == 20 && table.offset == 0 && |table.data| == 20
    modifies table
    ensures table.Footer(45) == Pager(3, 41, Through(60), 45)
    ensures table.Footer(45).last.last > 45
  {
    var done := table.HandlePageClick(2, 45, Rejected("network"));
  }
}
