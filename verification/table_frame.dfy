/**
 * The frame around the grid: where the pagination control appears and the
 * CSS grid template built from the column widths.
 */
module TableFrame {
  import opened GridProps
  import Text

  /** The pagination control is rendered in the header slot. */
  predicate ShowTopPagination(paging: Paging, position: PagingPosition) {
    paging != NoPaging && (position == Top || position == Both)
  }

  /** The pagination control is rendered in the footer slot. */
  predicate ShowBottomPagination(paging: Paging, position: PagingPosition) {
    paging != NoPaging && (position == Bottom || position == Both)
  }

  /** `gridTemplateColumns`: the width tokens in order, separated by single spaces. */
  function GridTemplateColumns(columnWidths: seq<string>): string {
    Text.Join(columnWidths, ' ')
  }

  /** Where the control appears, slot by slot, for every paging and position. */
  lemma PaginationSlots(paging: Paging, position: PagingPosition)
    ensures paging == NoPaging ==> !ShowTopPagination(paging, position) && !ShowBottomPagination(paging, position)
    ensures ShowTopPagination(paging, position) && ShowBottomPagination(paging, position) <==>
              paging != NoPaging && position == Both
    ensures ShowTopPagination(paging, position) || ShowBottomPagination(paging, position) <==>
              paging != NoPaging && position != Nowhere
    ensures ShowTopPagination(paging, position) != ShowBottomPagination(paging, position) <==>
              paging != NoPaging && (position == Top || position == Bottom)
  {
  }

  /** The template keeps every token, in order: splitting it at spaces gives the widths back. */
  lemma TemplateRoundTrip(columnWidths: seq<string>)
    requires Text.Separable(columnWidths, ' ')
    ensures Text.Split(GridTemplateColumns(columnWidths), ' ') == columnWidths
  {
    Text.SplitJoin(columnWidths, ' ');
  }
}
