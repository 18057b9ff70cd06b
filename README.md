# Paged, sorted data table — a Dafny model

This project models the non-rendering logic of the web UI library's data
table (`components/common/Table/index.tsx`). The table shows one page of a
server-side query result. It translates the application's sort descriptors
(`{field, direction}`) into the grid widget's sort state (`{id, desc}`). It
forwards the widget's sorting changes to the owner's `setSorting`. When a
page is clicked it computes the record offset, raises an `isFetching` flag,
calls `fetchMore` with `limit = PAGE_SIZE` and the offset, and lowers the
flag in a `finally` block. Under the rows it shows a pager and a
"Results: first - last of total" label when there is more than one page.

Files:

- `sort_state.dfy` (module `SortState`): sort descriptors, the widget's
  column sorts, the forward mapping and its reverse, and the shape of a
  sorting change.
- `paging.dfy` (module `Paging`): page offset, page count, pager visibility
  and the footer label, with lemmas tying them together.
- `table_component.dfy` (module `TableComponent`): class `Table`, holding
  the `offset` and `isFetching` state, the two handlers and logs of the
  calls made to `setSorting` and `fetchMore`.

Modelling choices:

- `PAGE_SIZE` comes from `~/constants/pagination`, which is not part of this
  model. It is any positive number (`Paging.PageSize`), passed as a
  parameter or kept in `Table.pageSize`.
- `transformSortingState` comes from
  `components/common/Table/utils/transformSortingState`, which is not part of
  this model. It is the uninterpreted function `Table.transformSortingState`.
- `Sorting` comes from `~/types`, which is not part of this model. A direction
  is modelled as `Asc | Desc`, and `desc` is true exactly for `Desc`.
- The owner's `setSorting` and Apollo's `fetchMore` are outside the table.
  Each call is appended to a log (`sortingUpdates`, `fetches`), so "called
  exactly once" reads as "the log grew by one entry". `IssuedFetch` also
  records whether `isFetching` was up when the request went out.
- `setOffset` and `setFetching` are React state setters whose effect shows
  on the next render; the model assigns `offset` and `isFetching` at once.
  The handler never reads either field, so the sequence of values is the
  same. `IssuedFetch.whileFetching` means that `setFetching(true)` was
  called before `fetchMore`.
- The outcome of the fetch is a parameter (`FetchResponse`: rows or a
  rejection). `Table.data` stands for the rows of the query result. The
  table receives these back through its `data` prop.
- The table does not compute how many rows a request returns: it only
  sets `limit` and `offset`. `Paging.RowsAt` is the size of the window
  [offset, offset + PAGE_SIZE) of the collection. The `Loaded*` lemmas and
  the last clause of `HandlePageClick` hold when the server honours
  `limit` and `offset` and `totalCount` is accurate, so that the fetched
  page has exactly `RowsAt` rows.
- The offset is stored before the fetch (line 107) and the rows change
  only when the fetch succeeds. After a rejected fetch the label pairs the
  new offset with the old row count and can run past the total
  (`StaleLabelAfterRejection`). The `Loaded*` bounds hold after a
  successful fetch only.
- `%` in the offset formula has non-negative operands, where JavaScript and
  Dafny agree. `Math.ceil(totalCount / PAGE_SIZE)` is integer ceiling
  division on record counts.

## Model

| member | source | states |
|---|---|---|
| `SortState.ToSortingState` | components/common/Table/index.tsx:68-73 | the widget state has one entry per descriptor, in the same order; entry i has id = field i, and desc is true exactly when direction i is descending |
| `SortState.DistinctFieldsIffDistinctIds` | components/common/Table/index.tsx:68-73 | the sort list names each field at most once if and only if the widget state names each column id at most once |
| `SortState.ToSortingStateAppend` | components/common/Table/index.tsx:69 | the mapping commutes with concatenation, so relative priority order is kept |
| `SortState.FromToSortingState` | components/common/Table/index.tsx:68-73 | reading the widget state back (id as field, desc as Desc, otherwise Asc) gives the original sort list: the mapping has a left inverse |
| `SortState.ToSortingStateInjective` | components/common/Table/index.tsx:68-73 | the mapping is injective: two sort lists with the same widget state are equal |
| `SortState.TwoColumnExample` | components/common/Table/index.tsx:68-73 | name ascending then age descending maps to name/false then age/true, in that order |
| `TableComponent.Table.HandleSortingChange` | components/common/Table/index.tsx:75-86 | setSorting is called exactly once; with an updater its argument is the transform of the updater applied to the current widget state, and with a literal state it is the transform of that state |
| `TableComponent.Table.SetSorting` | components/common/Table/index.tsx:33 | the owner's setter receives exactly the given value, appended after the earlier ones |
| `TableComponent.Table.constructor` | components/common/Table/index.tsx:101-102 | a new table is not fetching, has offset 0 and has made no calls |
| `Paging.PageOffset` | components/common/Table/index.tsx:106 | for a positive total the offset lies in [0, totalCount), and it equals selected × PAGE_SIZE whenever that is below the total |
| `Paging.OffsetOfOfferedPage` | components/common/Table/index.tsx:106 | for a page index below the page count the remainder has no effect: the offset is selected × PAGE_SIZE, a multiple of PAGE_SIZE |
| `Paging.PageCount` | components/common/Table/index.tsx:127 | pageCount × PAGE_SIZE covers the total, (pageCount − 1) × PAGE_SIZE falls short of it, and the count is 0 exactly for an empty collection |
| `Paging.PageCountIsLeast` | components/common/Table/index.tsx:127 | no smaller number of pages covers the total |
| `Paging.PagerShown` | components/common/Table/index.tsx:157 | the pager condition totalCount > PAGE_SIZE holds exactly when there are at least two pages |
| `Paging.RowsAt` | components/common/Table/index.tsx:114-115 | the window [offset, offset + PAGE_SIZE) that a request with these limit and offset asks for holds at most PAGE_SIZE records, never past the total, and fewer only on the final partial page (what a server honouring limit and offset returns) |
| `Paging.RenderFooter` | components/common/Table/index.tsx:157-184 | the pager and label appear exactly when totalCount > PAGE_SIZE; the pager gets PageCount pages (at least two); the label starts at offset + 1 and names totalCount; its upper end reads "..." exactly while fetching, and otherwise the label spans as many records as rows are shown |
| `TableComponent.Table.Footer` | components/common/Table/index.tsx:157-184 | the footer of a table's own state: shown exactly when totalCount > PAGE_SIZE, with PageCount pages, label from offset + 1 to offset + the number of rows, or to "..." while the table is fetching, and naming totalCount |
| `Paging.LoadedLabelWithinTotal` | components/common/Table/index.tsx:183 | when the server returns exactly the records in [offset, offset + PAGE_SIZE), the label of an offered page is non-empty and lies within 1 .. totalCount |
| `Paging.LoadedLabelsAdjacent` | components/common/Table/index.tsx:106-183 | when the server returns exactly the records in [offset, offset + PAGE_SIZE), consecutive pages label adjacent ranges, so no record is skipped or counted twice |
| `Paging.LoadedLabelsSpanAll` | components/common/Table/index.tsx:106-183 | when the server returns exactly the records in [offset, offset + PAGE_SIZE), the first page's label starts at record 1 and the last page's ends at totalCount |
| `Paging.WorkedExamples` | components/common/Table/index.tsx:106-127 | page 2 of 45 by 20 starts at 40; page 5 of 30 by 10 wraps to 20; 45 records by 20 make 3 pages |
| `TableComponent.UpdateQueryIgnoresPrevious` | components/common/Table/index.tsx:118 | `UpdateQuery`, the merge lambda, returns the fetched result whatever the previous result was |
| `TableComponent.Table.FetchMore` | components/common/Table/index.tsx:111-119 | one request is logged together with the flag at that moment; a resolved fetch replaces the rows through updateQuery and a rejected one leaves them and is passed on |
| `TableComponent.Table.HandlePageClick` | components/common/Table/index.tsx:104-125 | the stored offset is the computed offset, below the total and a multiple of PAGE_SIZE for an offered page; exactly one request goes out with limit PAGE_SIZE and that offset while the flag is up; the rows are replaced on success; afterwards the flag is down on success and on failure, a failure is rethrown, and the label shows a number again, which for an offered page fetched with exactly the records in [offset, offset + PAGE_SIZE) is that page's loaded label |
| `TableComponent.PageClickScenario` | components/common/Table/index.tsx:104-125 | worked example on 45 records in pages of 20: after a rejected fetch of page 2 and a good fetch of page 1 the flag is down, the offset is 20, the rows are the fetched ones and the label reads "21 - 40 of 45" over 3 pages |
| `TableComponent.StaleLabelAfterRejection` | components/common/Table/index.tsx:106-183 | after a rejected fetch the new offset is kept while the old rows stay: a table showing 20 rows that fails to fetch page 2 of 45 by 20 reads "Results: 41 - 60 of 45", past the total |

## Left out

- Rendering of headers, rows, cells and the loading overlay, and the
  configuration of the grid widget and the pager (lines 88-99, 129-188).
  These are presentation over third-party widgets. Only the pager's
  visibility and page count, and the label values, are modelled.
- The body of `transformSortingState`: its file is not part of this model.
  No round trip between it and `ToSortingState` is claimed. The left
  inverse `FromSortingState` is a reference definition of this model only.
- Overlapping page clicks: two handler calls whose fetches are in flight at
  once are an event-loop race. Each `HandlePageClick` call is modelled as
  running to completion.
- `HandlePageClick` requires `totalCount > PAGE_SIZE`: the handler is wired
  only to the pager, which is rendered only then. A zero total would make
  the JavaScript offset `NaN`, which is not modelled.
- The memoisation by `useMemo` and `useCallback`: the model recomputes the
  widget sort state from the current `sorting` on every change.
- The Select stories, the debounced search input and the badge: demos, a
  timer-based wrapper over a library not shown, and a class-name builder.
