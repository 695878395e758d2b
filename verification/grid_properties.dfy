/**
 * What the controller's derivations and effects guarantee, proved on the
 * transitions of Grid.GridState that the Controller methods follow.
 */
module GridProperties {
  import opened DataSource
  import opened GridProps
  import opened Grid
  import Text
  import Headers
  import TableFrame

  // ---------------------------------------------------------------------------
  // Page size and current page

  /** The three ways the page size is resolved. */
  lemma PageSizeResolution(p: Props)
    ensures p.pageSizeType == FixedSize ==> ResolvePageSize(p) == p.pageSize
    ensures p.pageSizeType == DynamicSize && p.dynamicPageSize.Some? ==>
              ResolvePageSize(p) == p.dynamicPageSize.value
    ensures p.pageSizeType == DynamicSize && p.dynamicPageSize.None? ==>
              ResolvePageSize(p) == DefaultPageSize
  {
  }

  /** The page size is positive only when the value it is taken from is: nothing clamps it. */
  lemma PageSizePositiveIff(p: Props)
    ensures ResolvePageSize(p) > 0 <==>
              (p.pageSizeType == FixedSize && p.pageSize > 0) ||
              (p.pageSizeType == DynamicSize && (p.dynamicPageSize.None? || p.dynamicPageSize.value > 0))
  {
  }

  /** The offset of page `k` is a page boundary, and it is page `k`. */
  lemma PageOfMultiple(k: int, size: int)
    requires size > 0
    ensures OnPageBoundary(k * size, size)
    ensures PageOf(k * size, size) == k
  {
    MultipleModulo(k, size);
    var page := PageOf(k * size, size);
    MultiplicationCancels(page, k, size);
  }

  lemma MultipleModulo(k: int, size: int)
    requires size > 0
    ensures (k * size) % size == 0
  {
    var q, r := (k * size) / size, (k * size) % size;
    assert 0 <= r < size;
    var d := k - q;
    assert d * size == k * size - q * size;
    assert d * size == r;
    if d > 0 {
      MultipleAtLeast(d, size);
    } else if d < 0 {
      MultipleAtLeast(-d, size);
    }
  }

  lemma MultipleAtLeast(d: int, size: int)
    requires d > 0 && size > 0
    ensures d * size >= size
  {
    assert d * size == (d - 1) * size + size;
    assert (d - 1) * size >= 0;
  }

  lemma MultiplicationCancels(a: int, b: int, size: int)
    requires size > 0 && a * size == b * size
    ensures a == b
  {
    assert (a - b) * size == 0;
  }

  /** Page boundaries one page apart: moving forward or back keeps the state on a boundary. */
  lemma NeighbourPagesOnBoundary(page: int, size: int)
    requires size > 0
    ensures OnPageBoundary((page + 1) * size, size) && PageOf((page + 1) * size, size) == page + 1
    ensures OnPageBoundary((page - 1) * size, size) && PageOf((page - 1) * size, size) == page - 1
  {
    PageOfMultiple(page + 1, size);
    PageOfMultiple(page - 1, size);
  }

  /** The current page follows the paged source's offset, whoever moved it: offset `k * pageSize` is page `k`. */
  lemma {:induction false} CurrentPageFollowsOffset(s: GridState, k: int)
    requires s.PageSize() > 0
    ensures var moved := if s.props.paging == RowPaging
                         then s.(row := s.row.(offset := k * s.PageSize()))
                         else s.(column := s.column.(offset := k * s.PageSize()));
      moved.OnPage() && moved.CurrentPage() == k
  {
    PageOfMultiple(k, s.PageSize());
  }

  // ---------------------------------------------------------------------------
  // Loading flag

  lemma InitiallyLoading(props: Props, row: ListState, column: ListState, cell: ListState)
    ensures InitialState(props, row, column, cell).loading
  {
  }

  /** The cell-source effect ends loading exactly when the cells are available and the window is not empty. */
  lemma CellSourceChangeEndsLoading(s: GridState)
    ensures s.CellSourceChanged().loading ==
              (s.loading && !(s.cell.status == Available && s.cell.limit != Finite(0)))
    ensures s.CellSourceChanged() == s.(loading := s.CellSourceChanged().loading)
  {
  }

  /** No other effect or callback ends loading; navigation with paged cells starts it again. */
  lemma OnlyCellSourceChangeEndsLoading(s: GridState, index: nat, width: nat, computePage: int -> int)
    ensures s.PageSizeChanged().loading == s.loading
    ensures s.SourcesChanged().loading == s.loading
    ensures s.CellLimitSynced().loading == s.loading
    ensures s.ColumnCountChanged().loading == s.loading
    ensures index < |s.columnWidths| ==> s.ColumnWidthSet(index, width).loading == s.loading
    ensures s.OnPage() ==> s.PageSet(computePage).loading == (s.loading || s.props.pageCell)
  {
  }

  // ---------------------------------------------------------------------------
  // Synchronising the data sources

  /** A page-size change always asks for the row total; only dynamic row paging rewinds the rows. */
  lemma PageSizeChangeEffect(s: GridState)
    ensures var t := s.PageSizeChanged();
      var rewind := s.props.paging == RowPaging && s.props.pageSizeType == DynamicSize;
      && t.row.requests == s.row.requests + [TotalCountRequest(true)] +
           (if rewind then [SetOffsetRequest(0), SetLimitRequest(Finite(s.PageSize()))] else [])
      && t.row.offset == (if rewind then 0 else s.row.offset)
      && t.row.limit == (if rewind then Finite(s.PageSize()) else s.row.limit)
      && t.row == s.row.(offset := t.row.offset, limit := t.row.limit, requests := t.row.requests)
      && t == s.(row := t.row)
  {
  }

  /**
   * Dynamic paging of rows: with no runtime value the page size is 10; once
   * the value becomes 5 the page-size effect rewinds the rows to offset 0 with
   * a limit of 5.
   */
  lemma DynamicPageSizeChange(s: GridState)
    requires s.props.paging == RowPaging && s.props.pageSizeType == DynamicSize
    requires s.props.dynamicPageSize.None?
    ensures s.PageSize() == 10
    ensures var t := s.(props := s.props.(dynamicPageSize := Some(5))).PageSizeChanged();
      t.PageSize() == 5 && t.row.offset == 0 && t.row.limit == Finite(5)
  {
  }

  /**
   * Paging columns, a change of the dynamic page size does not rewind the
   * columns: from offset 10 with pages of 10 (page 1), pages of 3 leave the
   * column offset at 10, which is no page boundary.
   */
  lemma ColumnPagingResizeLeavesPageBoundary(s: GridState)
    requires s.props.paging == ColumnPaging && s.props.pageSizeType == DynamicSize
    requires s.props.dynamicPageSize == Some(10) && s.column.offset == 10
    ensures s.OnPage() && s.CurrentPage() == 1
    ensures var t := s.(props := s.props.(dynamicPageSize := Some(3))).PageSizeChanged();
      !t.OnPage() && t.column.offset == 10 && t.column.limit == s.column.limit
  {
  }

  /** Paging rows, a change of the dynamic page size to a positive one always lands on page 0. */
  lemma RowPagingResizeStaysOnPageBoundary(s: GridState)
    requires s.props.paging == RowPaging && s.props.pageSizeType == DynamicSize && s.PageSize() > 0
    ensures s.PageSizeChanged().OnPage() && s.PageSizeChanged().CurrentPage() == 0
  {
  }

  /** The paged source gets a page-sized limit only when it had none; its total is refreshed. */
  lemma SourcesChangeEffect(s: GridState)
    ensures var t := s.SourcesChanged();
      && (s.props.paging == NoPaging ==> t == s)
      && (s.props.paging != NoPaging ==>
            && t.Axis().limit == (if s.Axis().limit == Unbounded then Finite(s.PageSize()) else s.Axis().limit)
            && t.Axis().offset == s.Axis().offset
            && t.Axis() == s.Axis().(limit := t.Axis().limit, requests := t.Axis().requests)
            && t.Axis().requests == s.Axis().requests + [TotalCountRequest(true)] +
                 (if s.Axis().limit == Unbounded then [SetLimitRequest(Finite(s.PageSize()))] else []))
      && (s.props.paging == RowPaging ==> t == s.(row := t.row))
      && (s.props.paging == ColumnPaging ==> t == s.(column := t.column))
  {
  }

  /**
   * With paged cells the cell window becomes one page of cells, written only
   * when it differs (a window of zero cells included); without, nothing is written.
   */
  lemma CellLimitSyncEffect(s: GridState)
    ensures var t := s.CellLimitSynced();
      && (s.props.pageCell ==> t.cell.limit == Finite(s.PageSize() * s.CrossCount()))
      && (s.props.pageCell && s.cell.limit != Finite(s.CellLimit()) ==>
            t.cell.requests == s.cell.requests + [SetLimitRequest(Finite(s.CellLimit()))])
      && (!s.props.pageCell || s.cell.limit == Finite(s.CellLimit()) ==> t == s)
      && t.cell == s.cell.(limit := t.cell.limit, requests := t.cell.requests)
      && t == s.(cell := t.cell)
  {
  }

  /** Running the cell-limit effect again makes no further call. */
  lemma CellLimitSyncIdempotent(s: GridState)
    ensures s.CellLimitSynced().CellLimitSynced() == s.CellLimitSynced()
  {
  }

  /** A row page of 20 over 5 columns needs 100 cells; with no columns left it needs none. */
  lemma CellLimitFollowsCrossCount(s: GridState)
    requires s.props.pageCell && s.props.paging == RowPaging && s.PageSize() == 20
    requires s.column.items.Some? && |s.column.items.value| == 5
    ensures s.CellLimitSynced().cell.limit == Finite(100)
    ensures var emptied := s.CellLimitSynced().(column := s.column.(items := Some([])));
      emptied.CellLimitSynced().cell.limit == Finite(0) &&
      emptied.CellLimitSynced().cell.requests == emptied.cell.requests + [SetLimitRequest(Finite(0))]
  {
  }

  /** Paging columns over 3 rows with pages of 2: a page of cells is 6 cells. */
  lemma CellLimitWhenPagingColumns(s: GridState)
    requires s.props.pageCell && s.props.paging == ColumnPaging && s.PageSize() == 2
    requires s.row.items.Some? && |s.row.items.value| == 3
    requires s.column.items.Some? && |s.column.items.value| == 7
    ensures s.CellLimitSynced().cell.limit == Finite(6)
  {
  }

  // ---------------------------------------------------------------------------
  // Navigation

  /** Going to page `n` puts the paged source at offset `n * pageSize`, and page `n` is then current. */
  lemma {:induction false} GotoPageOffset(s: GridState, n: int)
    requires s.OnPage() && s.props.paging != NoPaging
    ensures var t := s.PageSet(ConstantPage(n));
      && t.Axis().offset == n * s.PageSize()
      && t.Axis().requests == s.Axis().requests + [SetOffsetRequest(n * s.PageSize())]
      && (s.props.pageCell ==> t.cell.offset == n * s.PageSize() * s.ColumnCount() && t.loading)
      && (!s.props.pageCell ==> t.cell == s.cell && t.loading == s.loading)
      && t.OnPage() && t.CurrentPage() == n
  {
    var t := s.PageSet(ConstantPage(n));
    assert t.PageSize() == s.PageSize();
    PageOfMultiple(n, s.PageSize());
  }

  /** The other source is not moved by navigation. */
  lemma NavigationMovesOnlyThePagedSource(s: GridState, computePage: int -> int)
    requires s.OnPage()
    ensures var t := s.PageSet(computePage);
      && (s.props.paging == RowPaging ==> t.column == s.column)
      && (s.props.paging == ColumnPaging ==> t.row == s.row)
      && (s.props.paging == NoPaging ==> t.row == s.row && t.column == s.column)
      && t.props == s.props && t.columnWidths == s.columnWidths
  {
  }

  /** `nextPage()` then `previousPage()` returns the paged source (and the cells) to where they were. */
  lemma {:induction false} NextThenPreviousRestores(s: GridState)
    requires s.OnPage() && s.props.paging != NoPaging
    ensures s.PageSet(NextPageOf).OnPage()
    ensures var t := s.PageSet(NextPageOf).PageSet(PreviousPageOf);
      && t.Axis().offset == s.Axis().offset
      && (s.props.pageCell ==> t.cell.offset == s.Axis().offset * s.ColumnCount())
  {
    var page, size := s.CurrentPage(), s.PageSize();
    var u := s.PageSet(NextPageOf);
    assert u.Axis().offset == (page + 1) * size;
    NeighbourPagesOnBoundary(page, size);
    assert u.CurrentPage() == page + 1;
    var t := u.PageSet(PreviousPageOf);
    assert t.Axis().offset == page * size;
  }

  /** `previousPage()` then `nextPage()` returns the paged source to where it was. */
  lemma {:induction false} PreviousThenNextRestores(s: GridState)
    requires s.OnPage() && s.props.paging != NoPaging
    ensures s.PageSet(PreviousPageOf).OnPage()
    ensures s.PageSet(PreviousPageOf).PageSet(NextPageOf).Axis().offset == s.Axis().offset
  {
    var page, size := s.CurrentPage(), s.PageSize();
    var u := s.PageSet(PreviousPageOf);
    assert u.Axis().offset == (page - 1) * size;
    NeighbourPagesOnBoundary(page, size);
    assert u.CurrentPage() == page - 1;
    var t := u.PageSet(NextPageOf);
    assert t.Axis().offset == page * size;
  }

  /** The previous-page button is enabled exactly when the paged source is not at its start. */
  lemma CanPreviousPageIffNotFirst(s: GridState)
    requires s.OnPage()
    ensures s.Pagination().canPreviousPage <==> s.Axis().offset != 0
    ensures s.Pagination().canNextPage <==> s.Axis().hasMoreItems == Some(true)
    ensures s.Pagination().page * s.PageSize() == s.Axis().offset
  {
  }

  /** Paging rows, cell page `n` starts right after `n` full cell pages. */
  lemma CellPagesFollowRowPages(s: GridState, n: int)
    requires s.OnPage() && s.props.paging == RowPaging && s.props.pageCell
    ensures s.PageSet(ConstantPage(n)).cell.offset == n * s.CellLimit()
  {
    var size, count := s.PageSize(), s.ColumnCount();
    assert n * size * count == n * (size * count);
  }

  /**
   * Paging columns, the cell offset is computed with the column count while
   * the cell window is sized by the row count: with 3 rows, 7 columns and
   * pages of 2, page 1 of the cells starts at 14, not at 6.
   */
  lemma CellOffsetUsesColumnCountWhenPagingColumns(s: GridState)
    requires s.props.paging == ColumnPaging && s.props.pageCell && s.PageSize() == 2
    requires s.row.items.Some? && |s.row.items.value| == 3
    requires s.column.items.Some? && |s.column.items.value| == 7
    requires s.column.offset == 0
    ensures s.CellLimit() == 6
    ensures s.PageSet(ConstantPage(1)).cell.offset == 14
  {
  }

  // ---------------------------------------------------------------------------
  // Column widths

  /** A column-count change leaves exactly one "1fr" per column, whatever was there before. */
  lemma ColumnCountChangeResetsWidths(s: GridState)
    ensures var ws := s.ColumnCountChanged().columnWidths;
      && |ws| == s.ColumnCount()
      && (forall i :: 0 <= i < |ws| ==> ws[i] == FlexWidth)
    ensures s.ColumnCountChanged() == s.(columnWidths := s.ColumnCountChanged().columnWidths)
  {
  }

  /** Earlier resizes leave no trace after a column-count change. */
  lemma ResetDiscardsResizes(s: GridState, index: nat, width: nat)
    requires index < |s.columnWidths|
    ensures s.ColumnWidthSet(index, width).ColumnCountChanged() == s.ColumnCountChanged()
  {
  }

  /** A resize writes one entry, `<width>px`, and copies every other entry. */
  lemma {:induction false} ColumnWidthSetOne(s: GridState, index: nat, width: nat)
    requires index < |s.columnWidths|
    ensures var ws := s.ColumnWidthSet(index, width).columnWidths;
      && |ws| == |s.columnWidths|
      && ws[index] == Text.Decimal(width) + PixelSuffix
      && (forall i :: 0 <= i < |ws| && i != index ==> ws[i] == s.columnWidths[i])
      && Text.AllDigits(ws[index][..|ws[index]| - 2])
      && Text.DecimalValue(ws[index][..|ws[index]| - 2]) == width
    ensures s.ColumnWidthSet(index, width) == s.(columnWidths := s.ColumnWidthSet(index, width).columnWidths)
  {
    var token := s.ColumnWidthSet(index, width).columnWidths[index];
    assert token[..|token| - 2] == Text.Decimal(width);
    Text.DecimalRoundTrip(width);
  }

  /** Width tokens never hold a space and are never empty. */
  predicate TemplateSafe(ws: seq<string>) {
    Text.Separable(ws, ' ')
  }

  lemma {:induction false} WidthTokensTemplateSafe(s: GridState, index: nat, width: nat)
    ensures TemplateSafe(s.ColumnCountChanged().columnWidths)
    ensures TemplateSafe(s.columnWidths) && index < |s.columnWidths| ==>
              TemplateSafe(s.ColumnWidthSet(index, width).columnWidths)
    ensures TemplateSafe(InitialState(s.props, s.row, s.column, s.cell).columnWidths)
  {
    var token := WidthToken(width);
    assert token[|token| - 2] == 'p' && token[|token| - 1] == 'x';
    forall i | 0 <= i < |token| ensures token[i] != ' ' {
      if i < |token| - 2 {
        assert token[i] == Text.Decimal(width)[i];
      }
    }
  }

  /** Whatever resizes and resets happened, the grid template splits back into the widths. */
  lemma {:induction false} TemplateKeepsWidths(s: GridState, index: nat, width: nat)
    ensures var reset := s.ColumnCountChanged();
      Text.Split(TableFrame.GridTemplateColumns(reset.columnWidths), ' ') == reset.columnWidths
    ensures TemplateSafe(s.columnWidths) && index < |s.columnWidths| ==>
              var resized := s.ColumnWidthSet(index, width);
              Text.Split(TableFrame.GridTemplateColumns(resized.columnWidths), ' ') == resized.columnWidths
  {
    WidthTokensTemplateSafe(s, index, width);
    TableFrame.TemplateRoundTrip(s.ColumnCountChanged().columnWidths);
    if TemplateSafe(s.columnWidths) && index < |s.columnWidths| {
      TableFrame.TemplateRoundTrip(s.ColumnWidthSet(index, width).columnWidths);
    }
  }

  // ---------------------------------------------------------------------------
  // Header row

  /**
   * The adjusted column count is the length of the header row; with row
   * headers shown it is one more than the number of column widths.
   */
  lemma AdjustedColumnCountIsHeaderCount(s: GridState, p: Headers.HeaderProps)
    requires p.showRowAs == s.props.showRowAs
    ensures |Headers.HeaderList(s.column.items, p)| == AdjustedColumnCount(s.ColumnCount(), s.props.showRowAs)
    ensures var reset := s.ColumnCountChanged();
      |Headers.HeaderList(s.column.items, p)| ==
        |reset.columnWidths| + (if s.props.showRowAs != NoRowHeader then 1 else 0)
  {
  }
}
