/**
 * The paged data sources the grid reads: one for rows, one for columns and one
 * for the row-by-column cells. They belong to the host's data layer; the grid
 * only reads their fields and calls `setOffset`, `setLimit` and
 * `requestTotalCount` on them. Each call is logged, so that the model can say
 * which calls the grid made and which it did not.
 */
module DataSource {

  datatype Option<+T> = None | Some(value: T)

  /** An object item of a data source; only its identity is observed. */
  datatype Item = Item(id: string)

  /** A window size: a finite number of items, or `Number.POSITIVE_INFINITY`. */
  datatype Limit = Finite(n: int) | Unbounded

  datatype Status = Loading | Available | Unavailable

  /** One call the grid makes on a data source. */
  datatype Request =
    | SetOffsetRequest(offset: int)
    | SetLimitRequest(limit: Limit)
    | TotalCountRequest(refresh: bool)

  /** Everything observable about one data source, as a value. */
  datatype ListState = ListState(
    items: Option<seq<Item>>,
    offset: int,
    limit: Limit,
    totalCount: Option<int>,
    hasMoreItems: Option<bool>,
    status: Status,
    requests: seq<Request>)
  {
    /** `items?.length ?? 0`: an item list that has not arrived counts as empty. */
    function ItemCount(): nat {
      if items.Some? then |items.value| else 0
    }

    /** The state after `setOffset(n)`: the window starts at `n`. */
    function SetOffset(n: int): ListState {
      this.(offset := n, requests := requests + [SetOffsetRequest(n)])
    }

    /** The state after `setLimit(l)`: the window holds `l` items. */
    function SetLimit(l: Limit): ListState {
      this.(limit := l, requests := requests + [SetLimitRequest(l)])
    }

    /** The state after `requestTotalCount(refresh)`: only the call is recorded. */
    function RequestTotalCount(refresh: bool): ListState {
      this.(requests := requests + [TotalCountRequest(refresh)])
    }
  }

  /** A data source as the grid sees it: a mutable object shared with the host. */
  class ListHandle {
    var items: Option<seq<Item>>
    var offset: int
    var limit: Limit
    var totalCount: Option<int>
    var hasMoreItems: Option<bool>
    var status: Status
    var requests: seq<Request>

    function State(): ListState
      reads this
    {
      ListState(items, offset, limit, totalCount, hasMoreItems, status, requests)
    }

    function ItemCount(): nat
      reads this
    {
      State().ItemCount()
    }

    constructor (s: ListState)
      ensures State() == s
    {
      items, offset, limit := s.items, s.offset, s.limit;
      totalCount, hasMoreItems, status := s.totalCount, s.hasMoreItems, s.status;
      requests := s.requests;
    }

    method SetOffset(n: int)
      modifies this
      ensures State() == old(State()).SetOffset(n)
    {
      offset := n;
      requests := requests + [SetOffsetRequest(n)];
    }

    method SetLimit(l: Limit)
      modifies this
      ensures State() == old(State()).SetLimit(l)
    {
      limit := l;
      requests := requests + [SetLimitRequest(l)];
    }

    method RequestTotalCount(refresh: bool)
      modifies this
      ensures State() == old(State()).RequestTotalCount(refresh)
    {
      requests := requests + [TotalCountRequest(refresh)];
    }
  }
}
