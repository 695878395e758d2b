/**
 * The controller on the shared data-source objects. Each effect of the
 * component is a method the host calls once the values it depends on have
 * changed; each method's new state is the matching transition of Grid.GridState.
 */
module GridController {
  import opened DataSource
  import opened GridProps
  import opened Grid

  class Controller {
    var props: Props
    const row: ListHandle
    const column: ListHandle
    const cell: ListHandle
    var loading: bool
    var columnWidths: seq<string>

    /** The three sources are separate objects. */
    ghost predicate Valid()
      reads this
    {
      row != column && row != cell && column != cell
    }

    function State(): GridState
      reads this, row, column, cell
    {
      GridState(props, row.State(), column.State(), cell.State(), loading, columnWidths)
    }

    constructor (props: Props, row: ListHandle, column: ListHandle, cell: ListHandle)
      requires row != column && row != cell && column != cell
      ensures Valid()
      ensures this.row == row && this.column == column && this.cell == cell
      ensures State() == InitialState(props, row.State(), column.State(), cell.State())
    {
      this.props := props;
      this.row, this.column, this.cell := row, column, cell;
      loading := true;
      columnWidths := ResetWidths(column.ItemCount());
    }

    method SetColumnWidth(index: nat, width: nat)
      requires index < |columnWidths|
      modifies this`columnWidths
      ensures State() == old(State()).ColumnWidthSet(index, width)
    {
      var widths := columnWidths;
      widths := widths[index := WidthToken(width)];
      columnWidths := widths;
    }

    method OnCellSourceChange()
      modifies this`loading
      ensures State() == old(State()).CellSourceChanged()
    {
      if cell.status == Available && cell.limit != Finite(0) {
        loading := false;
      }
    }

    method OnPageSizeChange()
      requires Valid()
      modifies row
      ensures State() == old(State()).PageSizeChanged()
    {
      var pageSize := ResolvePageSize(props);
      row.RequestTotalCount(true);
      if props.paging == RowPaging {
        if props.pageSizeType == DynamicSize {
          row.SetOffset(0);
          row.SetLimit(Finite(pageSize));
        }
      }
    }

    method OnSourcesChange()
      requires Valid()
      modifies row, column
      ensures State() == old(State()).SourcesChanged()
    {
      var pageSize := ResolvePageSize(props);
      if props.paging == RowPaging {
        row.RequestTotalCount(true);
        if row.limit == Unbounded {
          row.SetLimit(Finite(pageSize));
        }
      }
      if props.paging == ColumnPaging {
        column.RequestTotalCount(true);
        if column.limit == Unbounded {
          column.SetLimit(Finite(pageSize));
        }
      }
    }

    method SyncCellLimit()
      requires Valid()
      modifies cell
      ensures State() == old(State()).CellLimitSynced()
    {
      var length := if props.paging == RowPaging then column.ItemCount() else row.ItemCount();
      var limit := ResolvePageSize(props) * length;
      if props.pageCell && cell.limit != Finite(limit) {
        cell.SetLimit(Finite(limit));
      }
    }

    method OnColumnCountChange()
      modifies this`columnWidths
      ensures State() == old(State()).ColumnCountChanged()
    {
      columnWidths := ResetWidths(column.ItemCount());
    }

    method SetPage(computePage: int -> int)
      requires Valid() && State().OnPage()
      modifies row, column, cell, this`loading
      ensures State() == old(State()).PageSet(computePage)
    {
      var pageSize := ResolvePageSize(props);
      var newPage := computePage(State().CurrentPage());
      if props.paging == RowPaging {
        row.SetOffset(newPage * pageSize);
      }
      if props.paging == ColumnPaging {
        column.SetOffset(newPage * pageSize);
      }
      if props.pageCell {
        var columnCount := column.ItemCount();
        cell.SetOffset(newPage * pageSize * columnCount);
        loading := true;
      }
    }

    method GotoPage(page: int)
      requires Valid() && State().OnPage()
      modifies row, column, cell, this`loading
      ensures State() == old(State()).PageSet(ConstantPage(page))
    {
      SetPage(ConstantPage(page));
    }

    method NextPage()
      requires Valid() && State().OnPage()
      modifies row, column, cell, this`loading
      ensures State() == old(State()).PageSet(NextPageOf)
    {
      SetPage(NextPageOf);
    }

    method PreviousPage()
      requires Valid() && State().OnPage()
      modifies row, column, cell, this`loading
      ensures State() == old(State()).PageSet(PreviousPageOf)
    {
      SetPage(PreviousPageOf);
    }
  }
}
