/**
 * The filtered, paginated listing queries of models.py and oapp.py (get_all_orders and
 * get_customers).  The SQL text is not modelled: a query is its list of WHERE conditions, the
 * parameter list bound to its %s placeholders, the offset, and the parameters of the matching
 * count query.  What the database answers is an input.
 */
module Queries {
  import opened Wrappers

  /** A bound parameter: a string or an integer. */
  datatype Param = Text(text: string) | Int(number: int)

  /**
   * The WHERE conditions the builders can add: the status equality, the four-column order
   * search and the three-column customer search.
   */
  datatype Condition = StatusIs | OrderSearch | CustomerSearch

  /** The number of %s placeholders in a condition's SQL text. */
  function Placeholders(c: Condition): nat {
    match c
    case StatusIs => 1
    case OrderSearch => 4
    case CustomerSearch => 3
  }

  function TotalPlaceholders(cs: seq<Condition>): nat {
    if cs == [] then 0 else Placeholders(cs[0]) + TotalPlaceholders(cs[1..])
  }

  lemma {:induction false} TotalPlaceholdersAppend(a: seq<Condition>, b: seq<Condition>)
    ensures TotalPlaceholders(a + b) == TotalPlaceholders(a) + TotalPlaceholders(b)
  {
    if a == [] {
      assert a + b == b;
    } else {
      assert (a + b)[0] == a[0];
      assert (a + b)[1..] == a[1..] + b;
      TotalPlaceholdersAppend(a[1..], b);
    }
  }

  /**
   * A built listing query: the conditions joined with AND after WHERE (no WHERE when there are
   * none), the parameters of the page query (filters, then LIMIT and OFFSET), and the
   * parameters of the count query.
   */
  datatype PagedQuery = PagedQuery(conditions: seq<Condition>, params: seq<Param>, offset: int, countParams: seq<Param>) {
    predicate HasWhere() { conditions != [] }
  }

  /** What the database returns for a listing: the page of rows and the count. */
  datatype Page<R> = Page(rows: seq<R>, total: int)

  /** Python truthiness of an optional string filter. */
  predicate Truthy(s: Option<string>) {
    s.Some? && s.value != ""
  }

  /** f"%{search}%". */
  function LikePattern(search: string): string {
    "%" + search + "%"
  }

  /** The pattern is the search text between two % signs, and dropping them gives the text back. */
  lemma LikePatternRecoversSearch(search: string)
    ensures var p := LikePattern(search); |p| == |search| + 2 && p[0] == '%' && p[|p| - 1] == '%'
    ensures LikePattern(search)[1..|search| + 1] == search
  {
  }

  /**
   * The filter parameters and the paging pair: the status only when it is truthy, the search
   * pattern `copies` times only when the search is truthy, then [per_page, offset]; the count
   * query gets exactly the filter parameters and has a WHERE iff some filter was given.
   */
  predicate ListingShape(q: PagedQuery, page: int, perPage: int, status: Option<string>, search: Option<string>, copies: nat) {
    var filters := (if Truthy(status) then 1 else 0) + (if Truthy(search) then copies else 0);
    && q.offset == (page - 1) * perPage
    && |q.params| == filters + 2
    && (Truthy(status) ==> q.params[0] == Text(status.value))
    && (Truthy(search) ==> forall i :: filters - copies <= i < filters ==> q.params[i] == Text(LikePattern(search.value)))
    && q.params[filters] == Int(perPage) && q.params[filters + 1] == Int(q.offset)
    && q.countParams == q.params[..filters]
    && (q.HasWhere() <==> Truthy(status) || Truthy(search))
  }

  predicate OrdersQuery(q: PagedQuery, page: int, perPage: int, status: Option<string>, search: Option<string>) {
    && ListingShape(q, page, perPage, status, search, 4)
    && q.conditions == (if Truthy(status) then [StatusIs] else []) + (if Truthy(search) then [OrderSearch] else [])
  }

  predicate CustomersQuery(q: PagedQuery, page: int, perPage: int, search: Option<string>) {
    && ListingShape(q, page, perPage, None, search, 3)
    && q.conditions == (if Truthy(search) then [CustomerSearch] else [])
  }

  /**
   * models.py lines 187-234 (the same code is at oapp.py lines 119-163): the orders listing
   * grows its condition and parameter lists filter by filter, appends per_page and the offset,
   * and gives the count query the list without its last two entries.
   */
  method BuildOrdersQuery(page: int, perPage: int, status: Option<string>, search: Option<string>) returns (q: PagedQuery)
    ensures OrdersQuery(q, page, perPage, status, search)
  {
    var offset := (page - 1) * perPage;
    var conditions: seq<Condition> := [];
    var params: seq<Param> := [];
    if Truthy(status) {
      conditions := conditions + [StatusIs];
      params := params + [Text(status.value)];
    }
    if Truthy(search) {
      conditions := conditions + [OrderSearch];
      var pattern := Text(LikePattern(search.value));
      params := params + [pattern, pattern, pattern, pattern];
    }
    params := params + [Int(perPage), Int(offset)];
    var countParams := if conditions != [] then params[..|params| - 2] else [];
    q := PagedQuery(conditions, params, offset, countParams);
  }

  /**
   * models.py lines 469-516 (the same code is at oapp.py lines 257-291): the customers listing,
   * with one search condition over three columns.
   */
  method BuildCustomersQuery(page: int, perPage: int, search: Option<string>) returns (q: PagedQuery)
    ensures CustomersQuery(q, page, perPage, search)
  {
    var offset := (page - 1) * perPage;
    var conditions: seq<Condition> := [];
    var params: seq<Param> := [];
    if Truthy(search) {
      conditions := conditions + [CustomerSearch];
      var pattern := Text(LikePattern(search.value));
      params := params + [pattern, pattern, pattern];
    }
    params := params + [Int(perPage), Int(offset)];
    var countParams := if conditions != [] then params[..|params| - 2] else [];
    q := PagedQuery(conditions, params, offset, countParams);
  }

  /**
   * Every placeholder gets exactly one parameter: the count query binds one per placeholder of
   * its conditions, and the page query two more for LIMIT and OFFSET.
   */
  lemma OrdersPlaceholdersBound(q: PagedQuery, page: int, perPage: int, status: Option<string>, search: Option<string>)
    requires OrdersQuery(q, page, perPage, status, search)
    ensures TotalPlaceholders(q.conditions) == |q.countParams|
    ensures TotalPlaceholders(q.conditions) + 2 == |q.params|
    ensures q.countParams == q.params[..|q.params| - 2]
  {
    TotalPlaceholdersAppend(if Truthy(status) then [StatusIs] else [], if Truthy(search) then [OrderSearch] else []);
    assert TotalPlaceholders([StatusIs]) == 1 by { assert [StatusIs][1..] == []; }
    assert TotalPlaceholders([OrderSearch]) == 4 by { assert [OrderSearch][1..] == []; }
  }

  lemma CustomersPlaceholdersBound(q: PagedQuery, page: int, perPage: int, search: Option<string>)
    requires CustomersQuery(q, page, perPage, search)
    ensures TotalPlaceholders(q.conditions) == |q.countParams|
    ensures TotalPlaceholders(q.conditions) + 2 == |q.params|
    ensures q.countParams == q.params[..|q.params| - 2]
  {
    assert TotalPlaceholders([CustomerSearch]) == 3 by { assert [CustomerSearch][1..] == []; }
  }

  /** The count query's parameters are all search or status strings: no paging value leaks in. */
  lemma CountParamsAreFilters(q: PagedQuery, page: int, perPage: int, status: Option<string>, search: Option<string>)
    requires OrdersQuery(q, page, perPage, status, search)
    ensures forall i :: 0 <= i < |q.countParams| ==> q.countParams[i].Text?
    ensures !q.HasWhere() ==> q.countParams == []
  {
  }

  /** The page of rows used when the query itself raised: no rows and a count of zero. */
  function OrEmpty<R>(answer: Option<Page<R>>): (r: Page<R>)
    ensures answer.None? ==> r.rows == [] && r.total == 0
    ensures answer.Some? ==> r == answer.value
  {
    answer.GetOr(Page([], 0))
  }
}
