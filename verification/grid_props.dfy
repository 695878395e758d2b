/**
 * The enumerated settings of the grid widget that decide its behaviour. Those
 * whose full list of values is not needed (`showRowAs`, `showHeaderAs`,
 * `showRowColumnNameAs`) are kept as strings where they are used and compared
 * with the same literals as the code.
 */
module GridProps {

  /** `paging`: which data source is paged ("row", "column" or "none"). */
  datatype Paging = RowPaging | ColumnPaging | NoPaging

  /** `pageSizeType`: a configured page size, or one read at runtime. */
  datatype PageSizeType = FixedSize | DynamicSize

  /** `pagingPosition`: where the pagination control is placed. */
  datatype PagingPosition = Top | Bottom | Both | Nowhere

  /** The literal the code compares `showRowAs` against. */
  const NoRowHeader := "none"
}
