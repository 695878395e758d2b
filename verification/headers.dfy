/**
 * The header row: one header per column item, in column order, optionally
 * preceded by the header of the row-name column. Rendering is left out; a
 * header is the value of the props handed to the `Header` component.
 */
module Headers {
  import opened DataSource
  import opened GridProps

  const NoBreakSpace := "\U{00A0}"
  const NotAvailable := "n/a"
  const RowHeaderKey := "row_header"

  /** What a header shows: text, or a widget tree (identified by a number). */
  datatype Content = Text(text: string) | Widget(widget: nat)

  /** A click action bound to one column item. */
  datatype Click = ExecuteHeaderAction(column: Option<Item>) | ExecuteColumnAction(column: Option<Item>)

  /**
   * The props the header row reads. An optional expression that is looked up
   * per item is an `Option` of a function, whose result is `None` where the
   * looked-up value is undefined; an optional action is a presence flag.
   */
  datatype HeaderProps = HeaderProps(
    showHeaderAs: string,
    headerAttribute: Option<Item -> Option<string>>,
    headerTextTemplate: Option<Item -> Option<string>>,
    headerWidgets: Item -> nat,
    columnClass: Option<Item -> Option<string>>,
    hasOnClickColumnHeader: bool,
    hasOnClickColumn: bool,
    showRowAs: string,
    showRowColumnNameAs: string,
    rowColumnNameTextTemplate: Option<string>,
    rowColumnNameWidgets: nat,
    resizable: bool)

  /** The props of one rendered `Header`. */
  datatype Header = Header(
    key: string,
    index: int,
    resizable: bool,
    onClick: Option<Click>,
    className: Option<string>,
    content: Content)

  /** `lookup?.get(column)?.value ?? fallback`. */
  function LookUp(lookup: Option<Item -> Option<string>>, column: Item, fallback: string): string {
    if lookup.Some? && lookup.value(column).Some? then lookup.value(column).value else fallback
  }

  /** `getHeaderValue(column, props)`. */
  function HeaderValue(column: Option<Item>, p: HeaderProps): (v: Content)
    ensures column.None? ==> v == Text(NoBreakSpace)
    ensures column.Some? && p.showHeaderAs == "attribute" ==>
              v == Text(if p.headerAttribute.Some? && p.headerAttribute.value(column.value).Some?
                        then p.headerAttribute.value(column.value).value else NoBreakSpace)
    ensures column.Some? && p.showHeaderAs == "dynamicText" ==>
              v == Text(if p.headerTextTemplate.Some? && p.headerTextTemplate.value(column.value).Some?
                        then p.headerTextTemplate.value(column.value).value else NoBreakSpace)
    ensures column.Some? && p.showHeaderAs == "custom" ==> v == Widget(p.headerWidgets(column.value))
    ensures column.Some? && p.showHeaderAs !in {"attribute", "dynamicText", "custom"} ==> v == Text(NotAvailable)
  {
    if column.None? then Text(NoBreakSpace)
    else if p.showHeaderAs == "attribute" then Text(LookUp(p.headerAttribute, column.value, NoBreakSpace))
    else if p.showHeaderAs == "dynamicText" then Text(LookUp(p.headerTextTemplate, column.value, NoBreakSpace))
    else if p.showHeaderAs == "custom" then Widget(p.headerWidgets(column.value))
    else Text(NotAvailable)
  }

  /** The click handler of a column header: the header action first, then the column action. */
  function ClickHandler(column: Option<Item>, p: HeaderProps): Option<Click> {
    if column.Some? && p.hasOnClickColumnHeader then Some(ExecuteHeaderAction(column))
    else if p.hasOnClickColumn then Some(ExecuteColumnAction(column))
    else None
  }

  function ColumnHeader(column: Item, index: nat, p: HeaderProps): Header {
    Header(
      key := column.id,
      index := index,
      resizable := p.resizable,
      onClick := ClickHandler(Some(column), p),
      className := Some(LookUp(p.columnClass, column, "")),
      content := HeaderValue(Some(column), p))
  }

  /** The header of the row-name column: never resizable, index -1. */
  function RowHeader(p: HeaderProps): Header {
    var name :=
      if p.showRowColumnNameAs == "dynamicText"
      then Text(if p.rowColumnNameTextTemplate.Some? then p.rowColumnNameTextTemplate.value else "")
      else Widget(p.rowColumnNameWidgets);
    Header(key := RowHeaderKey, index := -1, resizable := false, onClick := None, className := None, content := name)
  }

  /** `dataSourceColumn.items?.map(...) ?? []`: the column headers, in column order. */
  function ColumnHeaders(items: Option<seq<Item>>, p: HeaderProps): seq<Header> {
    if items.None? then []
    else seq(|items.value|, i requires 0 <= i < |items.value| => ColumnHeader(items.value[i], i, p))
  }

  /** The whole header row as `Headers` builds it. */
  function HeaderList(items: Option<seq<Item>>, p: HeaderProps): (hs: seq<Header>)
    ensures var n := if items.Some? then |items.value| else 0;
      var first := if p.showRowAs != NoRowHeader then 1 else 0;
      && |hs| == n + first
      && (p.showRowAs != NoRowHeader ==> hs[0].index == -1 && !hs[0].resizable && hs[0].key == RowHeaderKey)
      && (forall i :: 0 <= i < n ==>
            var h := hs[first + i];
            && h.index == i
            && h.key == items.value[i].id
            && h.resizable == p.resizable
            && h.onClick == ClickHandler(Some(items.value[i]), p)
            && h.content == HeaderValue(Some(items.value[i]), p))
  {
    var columns := ColumnHeaders(items, p);
    if p.showRowAs != NoRowHeader then [RowHeader(p)] + columns else columns
  }

  /** Which action a column header runs, in order of priority. */
  lemma ClickPriority(column: Item, p: HeaderProps)
    ensures p.hasOnClickColumnHeader ==> ClickHandler(Some(column), p) == Some(ExecuteHeaderAction(Some(column)))
    ensures !p.hasOnClickColumnHeader && p.hasOnClickColumn ==>
              ClickHandler(Some(column), p) == Some(ExecuteColumnAction(Some(column)))
    ensures ClickHandler(Some(column), p).None? <==> !p.hasOnClickColumnHeader && !p.hasOnClickColumn
  {
  }

  /** Without column items there are no column headers, only the row-name header if shown. */
  lemma NoItemsNoColumnHeaders(items: Option<seq<Item>>, p: HeaderProps)
    requires items.None? || items.value == []
    ensures HeaderList(items, p) == (if p.showRowAs != NoRowHeader then [RowHeader(p)] else [])
  {
  }
}
