# Dynamic data grid: pagination and layout controller

A Dafny model of the controller inside the `DynamicDataGrid` widget. The widget
shows a table over three paged data sources: rows, columns, and the
row-by-column cells. The controller does four things:

- It resolves the page size.
- It derives the current page from the offset of the paged source.
- It keeps the three sources' offsets and limits in step with the page size
  and with page navigation.
- It keeps the list of column widths, and the `loading` flag that hides
  cells until they are available.

Two small pure parts go with it. One builds the header row. The other places
the pagination control and builds the CSS grid template.

Modules:

- `DataSource`: the external data sources. `ListHandle` is a class with the
  fields the grid reads. Its `SetOffset`, `SetLimit` and `RequestTotalCount`
  update the fields and log the call. `ListState` is the same data as a value.
- `GridProps`: the enumerated settings (`paging`, `pageSizeType`,
  `pagingPosition`).
- `Grid`: the controller as values. `GridState` is what one render sees. Each
  effect and callback is a function from the state before to the state after.
- `GridController`: the class `Controller`. It holds the three handles, the
  `loading` flag and the column widths. It has one method per effect and per
  callback. Each method's `ensures` ties the new state to the matching
  `GridState` transition of the old state.
- `GridProperties`: what those transitions guarantee.
- `Headers`: header value selection, click-handler priority and the header
  list.
- `TableFrame`: pagination placement and the grid template.
- `Text`: decimal numerals and `join`. Each has an inverse and a round-trip
  lemma.

Behaviour of the code that the model keeps, though a reader might not expect it:

- The dynamic page size is `Number(value ?? 10)`. It is neither rounded nor
  forced to be positive (`GridProperties.PageSizePositiveIff`).
- `currentPage` is plain division, not floor division. The model defines it
  only where the offset is a whole number of pages.
- The page-size effect always asks for the row total count. It rewinds only
  the row source, and only in dynamic mode while paging rows. A page-size
  change never touches the column source.
- Navigation computes the cell offset from the column count, even when
  columns are paged. The cell window, by contrast, is sized by the count of
  the source that is not paged. So when paging rows, cell pages follow each
  other exactly (`GridProperties.CellPagesFollowRowPages`). When paging
  columns they do not: with 3 rows, 7 columns and pages of 2, page 1 of the
  cells starts at 14, not 6
  (`GridProperties.CellOffsetUsesColumnCountWhenPagingColumns`).
- The page size is computed even when `paging` is `"none"`. The current page
  is then read from the column source.
- With row headers shown, the header row has one more entry than the column
  width list (`GridProperties.AdjustedColumnCountIsHeaderCount`).

## Model

| member | source | states |
|---|---|---|
| `GridProperties.PageSizeResolution` | src/DynamicDataGrid.tsx:17 | In dynamic mode the page size is the runtime value, or 10 when it has none. In fixed mode it is the configured page size, unchanged. |
| `GridProperties.PageSizePositiveIff` | src/DynamicDataGrid.tsx:17 | The page size is positive exactly when the value it is taken from is positive (or the dynamic value is absent). Nothing clamps it. |
| `Grid.PageOf` | src/DynamicDataGrid.tsx:19-20 | On a page boundary, the page times the page size is the offset. |
| `Grid.GridState.CurrentPage` | src/DynamicDataGrid.tsx:19-20 | The current page times the page size is the row offset when paging rows, and the column offset otherwise. |
| `GridProperties.PageOfMultiple` | src/DynamicDataGrid.tsx:19-20 | Offset `k * pageSize` is on a page boundary, and its page is `k`. |
| `GridProperties.NeighbourPagesOnBoundary` | src/DynamicDataGrid.tsx:19-20 | The offsets one page forward and one page back are on page boundaries, at pages `page + 1` and `page - 1`. |
| `GridProperties.CurrentPageFollowsOffset` | src/DynamicDataGrid.tsx:19-20 | If anyone sets the paged source's offset to `k * pageSize`, the derived current page is `k`. No stored page can drift. |
| `GridController.Controller.constructor` | src/DynamicDataGrid.tsx:21-24 | At the first render, `loading` is true and there is one `"1fr"` per column item. |
| `GridProperties.InitiallyLoading` | src/DynamicDataGrid.tsx:21 | The initial state is loading. |
| `GridController.Controller.SetColumnWidth` | src/DynamicDataGrid.tsx:27-31 | The new width list is the old one with entry `index` replaced by the `<width>px` token. Nothing else changes. |
| `GridProperties.ColumnWidthSetOne` | src/DynamicDataGrid.tsx:27-31 | A resize keeps the length and makes entry `index` equal to the decimal width followed by `px`. That decimal part reads back as the width. Every other entry and the rest of the state are unchanged. |
| `GridController.Controller.OnCellSourceChange` | src/DynamicDataGrid.tsx:33-37 | The new state is the cell-source effect applied to the old one. |
| `GridProperties.CellSourceChangeEndsLoading` | src/DynamicDataGrid.tsx:33-37 | After the effect, `loading` is false exactly when the cells are available with a limit other than 0, or it was already false. Only `loading` can change. |
| `GridProperties.OnlyCellSourceChangeEndsLoading` | src/DynamicDataGrid.tsx:33-88 | No other effect or callback turns `loading` off. Navigation turns it on whenever cells are paged, and otherwise leaves it as it was. |
| `GridController.Controller.OnPageSizeChange` | src/DynamicDataGrid.tsx:38-46 | The new state is the page-size effect applied to the old one. Only the row source is touched. |
| `GridProperties.PageSizeChangeEffect` | src/DynamicDataGrid.tsx:38-46 | The row total count is always requested. Only when paging rows in dynamic mode is the row offset set to 0 and the limit to the page size, in that order. Otherwise the offset and limit are unchanged. The row's items, total count, `hasMoreItems` and status are kept, and nothing else in the state changes. |
| `GridProperties.DynamicPageSizeChange` | src/DynamicDataGrid.tsx:17-46 | With no dynamic value the page size is 10. When the value becomes 5, the effect puts the rows at offset 0 with limit 5. |
| `GridProperties.ColumnPagingResizeLeavesPageBoundary` | src/DynamicDataGrid.tsx:38-46 | Paging columns in dynamic mode, offset 10 with pages of 10 is page 1. After the page size becomes 3 and the effect runs, the column offset is still 10 and its limit is unchanged, so the offset is no page boundary. |
| `GridProperties.RowPagingResizeStaysOnPageBoundary` | src/DynamicDataGrid.tsx:38-46 | Paging rows in dynamic mode with a positive page size, the effect leaves the rows on page 0. |
| `GridController.Controller.OnSourcesChange` | src/DynamicDataGrid.tsx:48-61 | The new state is the sources effect applied to the old one. |
| `GridProperties.SourcesChangeEffect` | src/DynamicDataGrid.tsx:48-61 | The paged source's total count is requested. Its limit becomes the page size only if it was unbounded; a finite limit is kept. Its other fields and the other sources are unchanged. With paging off, nothing happens. |
| `GridController.Controller.SyncCellLimit` | src/DynamicDataGrid.tsx:62-69 | The new state is the cell-limit effect applied to the old one. Only the cell source is touched. |
| `GridProperties.CellLimitSyncEffect` | src/DynamicDataGrid.tsx:62-69 | With paged cells, the cell limit becomes the page size times the item count of the source that is not paged. It is written, as one `setLimit` call, exactly when it differed. Without paged cells nothing is written. No other field of the cell source changes. |
| `GridProperties.CellLimitSyncIdempotent` | src/DynamicDataGrid.tsx:62-69 | Running the effect a second time changes nothing and makes no call. |
| `GridProperties.CellLimitFollowsCrossCount` | src/DynamicDataGrid.tsx:62-69 | Paging rows with pages of 20 over 5 columns needs 100 cells. When the columns drop to none, a limit of 0 is written, not skipped. |
| `GridProperties.CellLimitWhenPagingColumns` | src/DynamicDataGrid.tsx:62-69 | Paging columns over 3 rows with pages of 2, the cell limit is 6. |
| `GridController.Controller.OnColumnCountChange` | src/DynamicDataGrid.tsx:71-73 | The new width list is one `"1fr"` per column item. |
| `GridProperties.ColumnCountChangeResetsWidths` | src/DynamicDataGrid.tsx:23-24 | After a column-count change there are exactly `columnCount` widths, all `"1fr"`. Nothing else changes. |
| `GridProperties.ResetDiscardsResizes` | src/DynamicDataGrid.tsx:71-73 | A resize followed by a reset gives the same state as the reset alone. |
| `GridProperties.WidthTokensTemplateSafe` | src/DynamicDataGrid.tsx:24-31 | Every width token, initial, reset or resized, is non-empty and holds no space. |
| `GridController.Controller.SetPage` | src/DynamicDataGrid.tsx:75-89 | The new state is `setPage` applied to the old one. The paged source's offset becomes `f(currentPage) * pageSize`. With paged cells, the cell offset becomes that times the column count and `loading` is set. |
| `GridController.Controller.GotoPage` | src/DynamicDataGrid.tsx:110 | `setPage` with the constant page. |
| `GridController.Controller.NextPage` | src/DynamicDataGrid.tsx:111 | `setPage` with `page + 1`. |
| `GridController.Controller.PreviousPage` | src/DynamicDataGrid.tsx:115 | `setPage` with `page - 1`. |
| `GridProperties.GotoPageOffset` | src/DynamicDataGrid.tsx:75-89 | Going to page `n` puts the paged source at offset `n * pageSize` with one `setOffset` call. With paged cells the cell offset is `n * pageSize * columnCount`; otherwise the cells and `loading` are untouched. Page `n` is then current. |
| `GridProperties.NavigationMovesOnlyThePagedSource` | src/DynamicDataGrid.tsx:75-89 | Navigation leaves the source that is not paged, the props and the widths alone. |
| `GridProperties.NextThenPreviousRestores` | src/DynamicDataGrid.tsx:111-115 | `nextPage` then `previousPage` brings the paged source back to its offset. With paged cells, the cell offset becomes that offset times the column count. |
| `GridProperties.PreviousThenNextRestores` | src/DynamicDataGrid.tsx:111-115 | `previousPage` then `nextPage` brings the paged source back to its offset. |
| `GridProperties.CanPreviousPageIffNotFirst` | src/DynamicDataGrid.tsx:105-127 | `canPreviousPage` holds exactly when the paged source's offset is not 0. `canNextPage` holds exactly when it reports more items. The page shown is the offset over the page size. |
| `GridProperties.CellPagesFollowRowPages` | src/DynamicDataGrid.tsx:62-89 | Paging rows with paged cells, cell page `n` starts at `n` times the cell limit. |
| `GridProperties.CellOffsetUsesColumnCountWhenPagingColumns` | src/DynamicDataGrid.tsx:84-86 | Paging columns (3 rows, 7 columns, pages of 2), the cell limit is 6, but page 1 of the cells starts at 14. |
| `GridProperties.AdjustedColumnCountIsHeaderCount` | src/DynamicDataGrid.tsx:101-104 | The adjusted column count is the number of headers. With row headers shown, that is one more than the number of widths. |
| `GridProperties.TemplateKeepsWidths` | src/components/TableFrame.tsx:22 | The grid template built from reset or resized widths splits back into exactly those widths, in order. |
| `DataSource.ListHandle.SetOffset` | src/DynamicDataGrid.tsx:42 | `setOffset(n)` moves the window to `n` and is logged. Nothing else changes. |
| `DataSource.ListHandle.SetLimit` | src/DynamicDataGrid.tsx:43 | `setLimit(l)` sets the window size to `l` and is logged. Nothing else changes. |
| `DataSource.ListHandle.RequestTotalCount` | src/DynamicDataGrid.tsx:39 | `requestTotalCount(b)` is logged and changes nothing else. |
| `Text.Decimal` | src/DynamicDataGrid.tsx:29 | The numeral of a width is a non-empty string of digits, with no leading zero unless the width is 0. |
| `Text.DecimalRoundTrip` | src/DynamicDataGrid.tsx:29 | Reading the numeral of `n` back gives `n`. |
| `Text.SplitJoin` | src/components/TableFrame.tsx:22 | Splitting a join of non-empty, separator-free tokens at the separator gives the tokens back. |
| `Headers.HeaderValue` | src/components/Headers.tsx:12-30 | A missing column shows a no-break space. `"attribute"` and `"dynamicText"` show the looked-up value, or a no-break space when there is none. `"custom"` shows the column's widget. Any other mode shows `"n/a"`. |
| `Headers.HeaderList` | src/components/Headers.tsx:32-77 | There is one header per column item, in column order. Column header `i` has index `i`, the item's id as key, the caller's `resizable` flag, the item's click handler and header value. With row headers shown, a non-resizable row header with index -1 comes first, so the length is columns + 1. Otherwise the length is the column count. |
| `Headers.ClickPriority` | src/components/Headers.tsx:38-43 | A column header runs the header action when there is one, else the column action, else nothing. |
| `Headers.NoItemsNoColumnHeaders` | src/components/Headers.tsx:36-58 | With no column items there are no column headers, only the row header when shown. |
| `TableFrame.PaginationSlots` | src/components/TableFrame.tsx:27-35 | With paging off, the control is in neither slot. It is in both slots exactly when paging is on and the position is `both`. It is in some slot exactly when paging is on and the position is not `none`. It is in exactly one slot for `top` or `bottom`. |
| `TableFrame.TemplateRoundTrip` | src/components/TableFrame.tsx:22 | The grid template is the tokens joined by single spaces. Splitting it at spaces gives the tokens back, in order. |

## Left out

- Rendering is left out: JSX, the DOM, CSS, `classNames`, ARIA roles and `console.log`. It is presentation only. `Header.tsx`, `GridColumn.ts` and the `Row`, `Cells`, `Pagination` and `EmptyPlaceholder` components are not part of this model. The `(index, width)` signal of the column resizer is an input to `SetColumnWidth`.
- React's scheduling is not modelled. Each `useEffect` is a method the host calls once its dependencies have changed, and each callback is a method. The dependency arrays and re-render timing are left to the caller.
- The data layer is external. Fetching, status transitions, total-count values and `hasMoreItems` are fields the host sets. `setOffset` and `setLimit` take effect at once, and the asynchronous reload that follows them is not modelled. Each source logs its own calls, so the order of calls across different sources is not recorded.
- Grid.GridState.CurrentPage: defined only with a positive page size and an offset that is a whole number of pages. `Number(...)` coercion, fractional page sizes and the floating-point quotient the code computes elsewhere are not modelled. For the same reason `SetPage`, `GotoPage`, `NextPage` and `PreviousPage` require the state to be on a page boundary. The grid's own page-size effect can leave that domain: paging columns in dynamic mode, it does not rewind the columns, so a new page size can leave the column offset between page boundaries (`GridProperties.ColumnPagingResizeLeavesPageBoundary`). The code then shows a fractional page, and navigating from there is not modelled. Paging rows, the effect always lands on page 0 (`GridProperties.RowPagingResizeStaysOnPageBoundary`).
- The dynamic page size is modelled as an integer value. Non-numeric values are not modelled.
- GridController.Controller.SetColumnWidth: requires an index inside the width list. JavaScript would grow the array for an index past its end. The resizer only sends indices of existing columns.
- Numbers are exact unbounded integers. JavaScript numbers are doubles, which lose precision above 2^53 (an offset `newPage * pageSize * columnCount`) and print in exponent notation from 10^21 on (`${width}`). No offset or width in use comes near either bound.
- Widths are whole numbers of pixels. A fractional width from the resizer, printed by JavaScript's number formatting, is not modelled.
- Stale closures are not modelled. `setPage` and `handleSetColumnWidth` capture the current page and widths of the render that created them. The model uses the state at the time of the call.
- `sortedData` is left out. It is set once and only drives row rendering.
- In the header list, lookups (`get(item)`) are functions given with the props, and widgets are numbered stand-ins. The row header's class name is absent. Every column item in the list is defined, as it is in the data source. The code would fail on a missing item, because it reads `column.id`, so `HeaderValue`'s missing-column case is only reachable when `getHeaderValue` is called directly.
- The values of `showRowAs`, `showHeaderAs` and `showRowColumnNameAs` are strings, compared with the same literals as the code. The props typings are not part of this model.
