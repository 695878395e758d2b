/**
 * The pagination and layout controller of the dynamic data grid, as values.
 *
 * A `GridState` is what one render of the component sees: its props, the three
 * data sources (rows, columns, cells), the `loading` flag and the list of
 * column widths. Each effect and callback of the component is a function from
 * the state before it to the state after it; the class in GridController runs
 * them on the shared objects, and GridProperties proves what they guarantee.
 */
module Grid {
  import opened DataSource
  import opened GridProps
  import Text

  /** The props the controller reads. */
  datatype Props = Props(
    paging: Paging,
    pageSizeType: PageSizeType,
    pageSize: int,                  // the configured page size
    dynamicPageSize: Option<int>,   // the runtime value, when it has one
    pageCell: bool,                 // whether the cell source is paged too
    showRowAs: string)

  const DefaultPageSize := 10
  const FlexWidth := "1fr"
  const PixelSuffix := "px"

  /**
   * The effective page size: the runtime value (10 when it has none) in
   * dynamic mode, the configured one in fixed mode. Neither is rounded nor
   * forced to be positive.
   */
  function ResolvePageSize(p: Props): int {
    match p.pageSizeType
    case DynamicSize => if p.dynamicPageSize.Some? then p.dynamicPageSize.value else DefaultPageSize
    case FixedSize => p.pageSize
  }

  /** `offset / pageSize` is a whole page number exactly when this holds. */
  predicate OnPageBoundary(offset: int, size: int) {
    size > 0 && offset % size == 0
  }

  /** The page that starts at `offset`. */
  function PageOf(offset: int, size: int): (page: int)
    requires OnPageBoundary(offset, size)
    ensures page * size == offset
  {
    offset / size
  }

  /** The number of columns a header row occupies: one more when row headers are shown. */
  function AdjustedColumnCount(columnCount: nat, showRowAs: string): nat {
    if showRowAs != NoRowHeader then columnCount + 1 else columnCount
  }

  /** `Array(n).fill("1fr")`: every column shares the free space. */
  function ResetWidths(n: nat): seq<string> {
    seq(n, _ => FlexWidth)
  }

  /** `${width}px` for a whole number of pixels. */
  function WidthToken(width: nat): string {
    Text.Decimal(width) + PixelSuffix
  }

  /** A copy of `ws` whose entry `index` is `width` pixels. */
  function WithWidth(ws: seq<string>, index: nat, width: nat): seq<string>
    requires index < |ws|
  {
    ws[index := WidthToken(width)]
  }

  /** A `limit` of `Number.POSITIVE_INFINITY` becomes one page; a finite one is kept. */
  function LimitToPage(s: ListState, size: int): ListState {
    if s.limit == Unbounded then s.SetLimit(Finite(size)) else s
  }

  /** The page transitions the pagination control offers. */
  function ConstantPage(n: int): int -> int {
    _ => n
  }

  function NextPageOf(page: int): int {
    page + 1
  }

  function PreviousPageOf(page: int): int {
    page - 1
  }

  /** The values handed to the pagination control. */
  datatype PaginationProps = PaginationProps(
    canNextPage: bool,
    canPreviousPage: bool,
    page: int,
    pageSize: int,
    numberOfItems: Option<int>)

  datatype GridState = GridState(
    props: Props,
    row: ListState,
    column: ListState,
    cell: ListState,
    loading: bool,
    columnWidths: seq<string>)
  {
    function PageSize(): int {
      ResolvePageSize(props)
    }

    /** The paged source: rows when paging rows, the columns otherwise. */
    function Axis(): ListState {
      if props.paging == RowPaging then row else column
    }

    predicate OnPage() {
      OnPageBoundary(Axis().offset, PageSize())
    }

    /** The current page, derived from the paged source's offset on every render. */
    function CurrentPage(): (page: int)
      requires OnPage()
      ensures page * PageSize() == (if props.paging == RowPaging then row.offset else column.offset)
    {
      PageOf(Axis().offset, PageSize())
    }

    /** `dataSourceColumn.items?.length || 0`. */
    function ColumnCount(): nat {
      column.ItemCount()
    }

    /** The item count of the source that is not paged (rows unless paging rows). */
    function CrossCount(): nat {
      if props.paging == RowPaging then column.ItemCount() else row.ItemCount()
    }

    /** The number of cells one page needs. */
    function CellLimit(): int {
      PageSize() * CrossCount()
    }

    /** The effect on a change of the cell source: loading ends once cells can be shown. */
    function CellSourceChanged(): GridState {
      if cell.status == Available && cell.limit != Finite(0) then this.(loading := false) else this
    }

    /** The effect on a change of the page size. */
    function PageSizeChanged(): GridState {
      var counted := row.RequestTotalCount(true);
      if props.paging == RowPaging && props.pageSizeType == DynamicSize
      then this.(row := counted.SetOffset(0).SetLimit(Finite(PageSize())))
      else this.(row := counted)
    }

    /** The effect on a change of the row or column source or of the paging setting. */
    function SourcesChanged(): GridState {
      match props.paging
      case RowPaging => this.(row := LimitToPage(row.RequestTotalCount(true), PageSize()))
      case ColumnPaging => this.(column := LimitToPage(column.RequestTotalCount(true), PageSize()))
      case NoPaging => this
    }

    /** The effect that keeps the cell window one page of cells long. */
    function CellLimitSynced(): GridState {
      var limit := Finite(CellLimit());
      if props.pageCell && cell.limit != limit then this.(cell := cell.SetLimit(limit)) else this
    }

    /** The effect on a change of the column count. */
    function ColumnCountChanged(): GridState {
      this.(columnWidths := ResetWidths(ColumnCount()))
    }

    /** `handleSetColumnWidth(index, width)`. */
    function ColumnWidthSet(index: nat, width: nat): GridState
      requires index < |columnWidths|
    {
      this.(columnWidths := WithWidth(columnWidths, index, width))
    }

    /** `setPage(computePage)`. */
    function PageSet(computePage: int -> int): GridState
      requires OnPage()
    {
      var offset := computePage(CurrentPage()) * PageSize();
      var moved :=
        match props.paging
        case RowPaging => this.(row := row.SetOffset(offset))
        case ColumnPaging => this.(column := column.SetOffset(offset))
        case NoPaging => this;
      if props.pageCell
      then moved.(cell := cell.SetOffset(offset * ColumnCount()), loading := true)
      else moved
    }

    /** The pagination control's inputs. */
    function Pagination(): PaginationProps
      requires OnPage()
    {
      PaginationProps(
        canNextPage := if Axis().hasMoreItems.Some? then Axis().hasMoreItems.value else false,
        canPreviousPage := CurrentPage() != 0,
        page := CurrentPage(),
        pageSize := PageSize(),
        numberOfItems := Axis().totalCount)
    }
  }

  /** The first render: `loading` is true and every column is flexible. */
  function InitialState(props: Props, row: ListState, column: ListState, cell: ListState): GridState {
    GridState(props, row, column, cell, true, ResetWidths(column.ItemCount()))
  }
}
