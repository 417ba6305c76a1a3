/**
 * models.py: the connection URL check, the order status update with its audit log, the order
 * details lookup, the statistics windows, and the listing queries' fallbacks.  The database is
 * a foreign system: the orders table and order_logs are the state of the class OrderTable,
 * and everything a SELECT returns is an input.
 */
module Models {
  import opened Wrappers
  import opened Calendar
  import Config
  import Utils
  import Queries

  // ----- get_db_connection -----

  const UrlNotSet := "DATABASE_URL environment variable is not set"

  /**
   * models.py lines 25-33: an unset or empty DATABASE_URL raises ValueError; otherwise a leading
   * postgres:// is rewritten to postgresql:// before connecting.
   */
  function ConnectionUrl(databaseUrl: Option<string>): (r: Result<string>)
    ensures r.Failure? <==> !Queries.Truthy(databaseUrl)
    ensures r.Failure? ==> r.error == UrlNotSet
    ensures r.Success? ==> Some(r.value) == Config.NormalizeDatabaseUrl(databaseUrl)
  {
    if !Queries.Truthy(databaseUrl) then Failure(UrlNotSet)
    else
      var url := databaseUrl.value;
      Success(if Config.PostgresScheme <= url then Config.ReplaceFirst(url, Config.PostgresScheme, Config.PostgresqlScheme) else url)
  }

  /**
   * The value models.py receives was already rewritten once when config.py was imported, so
   * the second rewrite changes nothing.
   */
  lemma SecondRewriteIsNoOp(environment: Option<string>)
    requires Queries.Truthy(environment)
    ensures ConnectionUrl(Config.NormalizeDatabaseUrl(environment)) == ConnectionUrl(environment)
  {
    Config.NormalizeIdempotent(environment);
  }

  // ----- update_order_status -----

  /** A row of order_logs. */
  datatype LogEntry = LogEntry(orderId: int, adminId: Option<string>, action: string, details: Option<string>,
                               oldStatus: string, newStatus: string)

  /** The orders table's statuses by order id, and the order_logs rows in insertion order. */
  datatype Table = Table(statuses: map<int, string>, logs: seq<LogEntry>)

  datatype UpdateResult = UpdateResult(success: bool, message: string)

  const NotFound := "Order not found"
  const Updated := "Status updated successfully"
  const StatusUpdateAction := "status_update"

  /**
   * models.py lines 430-462, update_order_status, as a transition of the table.  `fault` is the
   * text of an exception raised by the connection or a statement (None when none is raised);
   * then the transaction is rolled back and the text is returned.
   */
  function UpdateTransition(t: Table, orderId: int, newStatus: string, adminId: Option<string>,
                            notes: Option<string>, fault: Option<string>): (r: (Table, UpdateResult))
    ensures r.1.success <==> fault.None? && orderId in t.statuses
    ensures !r.1.success ==> r.0 == t
    ensures fault.Some? ==> r.1.message == fault.value
    ensures fault.None? && orderId !in t.statuses ==> r.1.message == NotFound
    ensures r.1.success ==> r.1.message == Updated
    ensures r.1.success ==> r.0.statuses.Keys == t.statuses.Keys && r.0.statuses[orderId] == newStatus
    ensures r.1.success ==> forall k :: k in t.statuses && k != orderId ==> r.0.statuses[k] == t.statuses[k]
    ensures r.1.success ==> |r.0.logs| == |t.logs| + 1 && r.0.logs[..|t.logs|] == t.logs
    ensures r.1.success ==> r.0.logs[|t.logs|] == LogEntry(orderId, adminId, StatusUpdateAction, notes, t.statuses[orderId], newStatus)
  {
    if fault.Some? then (t, UpdateResult(false, fault.value))
    else if orderId !in t.statuses then (t, UpdateResult(false, NotFound))
    else
      var entry := LogEntry(orderId, adminId, StatusUpdateAction, notes, t.statuses[orderId], newStatus);
      (Table(t.statuses[orderId := newStatus], t.logs + [entry]), UpdateResult(true, Updated))
  }

  /** No later log row is about the same order as row i. */
  predicate LastFor(logs: seq<LogEntry>, i: int)
    requires 0 <= i < |logs|
  {
    forall j :: i < j < |logs| ==> logs[j].orderId != logs[i].orderId
  }

  /**
   * Every log row is about an existing order, and the latest row of each order records the
   * status the order has now.
   */
  predicate Explained(t: Table) {
    forall i :: 0 <= i < |t.logs| ==>
      t.logs[i].orderId in t.statuses && (LastFor(t.logs, i) ==> t.logs[i].newStatus == t.statuses[t.logs[i].orderId])
  }

  /** Consecutive log rows of one order chain: each old status is the previous new status. */
  predicate Chained(logs: seq<LogEntry>) {
    forall i, j :: 0 <= i < j < |logs| && logs[i].orderId == logs[j].orderId
                   && (forall k :: i < k < j ==> logs[k].orderId != logs[i].orderId)
                   ==> logs[j].oldStatus == logs[i].newStatus
  }

  /** The audit log keeps explaining the statuses, and keeps chaining, across every update. */
  lemma UpdateKeepsLogConsistent(t: Table, orderId: int, newStatus: string, adminId: Option<string>,
                                 notes: Option<string>, fault: Option<string>)
    requires Explained(t) && Chained(t.logs)
    ensures Explained(UpdateTransition(t, orderId, newStatus, adminId, notes, fault).0)
    ensures Chained(UpdateTransition(t, orderId, newStatus, adminId, notes, fault).0.logs)
  {
    var r := UpdateTransition(t, orderId, newStatus, adminId, notes, fault);
    if r.1.success {
      var t' := r.0;
      var n := |t.logs|;
      forall i | 0 <= i < |t'.logs|
        ensures t'.logs[i].orderId in t'.statuses
        ensures LastFor(t'.logs, i) ==> t'.logs[i].newStatus == t'.statuses[t'.logs[i].orderId]
      {
        if i < n {
          assert t'.logs[i] == t.logs[i];
          if LastFor(t'.logs, i) {
            assert t'.logs[n].orderId != t.logs[i].orderId;
            assert LastFor(t.logs, i);
          }
        }
      }
      forall i, j | 0 <= i < j < |t'.logs| && t'.logs[i].orderId == t'.logs[j].orderId
                    && (forall k :: i < k < j ==> t'.logs[k].orderId != t'.logs[i].orderId)
        ensures t'.logs[j].oldStatus == t'.logs[i].newStatus
      {
        if j == n {
          assert t'.logs[i] == t.logs[i];
          assert LastFor(t.logs, i) by {
            forall k | i < k < n ensures t.logs[k].orderId != t.logs[i].orderId {
              assert t'.logs[k] == t.logs[k];
            }
          }
        } else {
          assert t'.logs[i] == t.logs[i] && t'.logs[j] == t.logs[j];
          forall k | i < k < j ensures t.logs[k].orderId != t.logs[i].orderId {
            assert t'.logs[k] == t.logs[k];
          }
        }
      }
    }
  }

  /** The orders table and the order_logs table as one mutable object. */
  class OrderTable {
    var statuses: map<int, string>
    var logs: seq<LogEntry>

    predicate Valid()
      reads this
    {
      Explained(Table(statuses, logs)) && Chained(logs)
    }

    constructor (initial: map<int, string>)
      ensures statuses == initial && logs == []
      ensures Valid()
    {
      statuses := initial;
      logs := [];
    }

    /**
     * models.py lines 430-462: SELECT the current status; on a missing order return false
     * without writing; otherwise UPDATE the status, INSERT one log row and commit.
     */
    method UpdateOrderStatus(orderId: int, newStatus: string, adminId: Option<string>, notes: Option<string>,
                             fault: Option<string>)
      returns (success: bool, message: string)
      modifies this
      ensures (Table(statuses, logs), UpdateResult(success, message))
              == UpdateTransition(Table(old(statuses), old(logs)), orderId, newStatus, adminId, notes, fault)
      ensures old(Valid()) ==> Valid()
    {
      if Valid() {
        UpdateKeepsLogConsistent(Table(statuses, logs), orderId, newStatus, adminId, notes, fault);
      }
      if fault.Some? {
        return false, fault.value;
      }
      if orderId !in statuses {
        return false, NotFound;
      }
      var oldStatus := statuses[orderId];
      statuses := statuses[orderId := newStatus];
      logs := logs + [LogEntry(orderId, adminId, StatusUpdateAction, notes, oldStatus, newStatus)];
      return true, Updated;
    }
  }

  // ----- get_order_details -----

  /** The columns of an orders row this model uses. */
  datatype OrderRow = OrderRow(orderId: int, userId: Option<int>, status: string)

  /** Python truthiness of order['user_id']: NULL and 0 are false. */
  predicate HasUser(o: OrderRow) {
    o.userId.Some? && o.userId.value != 0
  }

  /**
   * An order_items row with the names the LEFT JOINs found for it (None where the join found
   * no service or menu row).
   */
  datatype ItemRow = ItemRow(orderItemId: int, itemType: string, serviceName: Option<string>, menuName: Option<string>)

  datatype UserRow = UserRow(id: int, fullName: string)

  const UnknownItem := "Unknown Item"

  /**
   * models.py lines 288-292: the CASE that names an item after its service for type 'service',
   * after its menu entry for type 'menu', and 'Unknown Item' otherwise.
   */
  function ItemDisplayName(item: ItemRow): (r: Option<string>)
    ensures item.itemType == "service" ==> r == item.serviceName
    ensures item.itemType == "menu" ==> r == item.menuName
    ensures item.itemType != "service" && item.itemType != "menu" ==> r == Some(UnknownItem)
  {
    if item.itemType == "service" then item.serviceName
    else if item.itemType == "menu" then item.menuName
    else Some(UnknownItem)
  }

  /** The name is NULL only when the typed join found nothing. */
  lemma DisplayNameMissingOnlyForBrokenJoin(item: ItemRow)
    ensures ItemDisplayName(item).None? <==>
              (item.itemType == "service" && item.serviceName.None?) || (item.itemType == "menu" && item.menuName.None?)
  {
  }

  datatype DetailItem = DetailItem(row: ItemRow, fullName: Option<string>)

  function NameItems(items: seq<ItemRow>): (r: seq<DetailItem>)
    ensures |r| == |items|
    ensures forall i :: 0 <= i < |items| ==> r[i] == DetailItem(items[i], ItemDisplayName(items[i]))
  {
    if items == [] then [] else [DetailItem(items[0], ItemDisplayName(items[0]))] + NameItems(items[1..])
  }

  /**
   * What the four SELECTs return: the order row (None when there is none), its items, the user
   * row looked up by user_id, and its log rows (newest first).
   */
  datatype DetailRows = DetailRows(order: Option<OrderRow>, items: seq<ItemRow>, user: Option<UserRow>, logs: seq<LogEntry>)

  /** The dictionary get_order_details returns; it has exactly the keys in DetailKeys. */
  datatype OrderDetails = OrderDetails(order: OrderRow, items: seq<DetailItem>, customer: Option<UserRow>, logs: seq<LogEntry>)

  const DetailKeys: set<string> := {"order", "items", "customer", "logs"}

  /**
   * models.py lines 259-339, get_order_details: None when the order row is missing or a query
   * raised (rows = None); the customer is looked up only when the order has a user.
   */
  function GetOrderDetails(rows: Option<DetailRows>): (r: Option<OrderDetails>)
    ensures r.None? <==> rows.None? || rows.value.order.None?
    ensures r.Some? ==> r.value.order == rows.value.order.value && r.value.logs == rows.value.logs
    ensures r.Some? ==> |r.value.items| == |rows.value.items|
                        && forall i :: 0 <= i < |rows.value.items| ==>
                             r.value.items[i].row == rows.value.items[i] && r.value.items[i].fullName == ItemDisplayName(rows.value.items[i])
    ensures r.Some? ==> r.value.customer == (if HasUser(r.value.order) then rows.value.user else None)
  {
    match rows
    case None => None
    case Some(d) =>
      match d.order
      case None => None
      case Some(o) =>
        Some(OrderDetails(o, NameItems(d.items), if HasUser(o) then d.user else None, d.logs))
  }

  // ----- get_order_statistics -----

  /** The unit the timeline rows are grouped by. */
  datatype Granularity = Hour | Day | Month

  datatype StatsWindow = StatsWindow(window: Utils.Window, groupBy: Granularity)

  /**
   * The totals row; the SUM and AVG are NULL when no order falls in the window.
   */
  datatype Totals = Totals(totalOrders: int, totalRevenue: Option<real>, avgOrderValue: Option<real>)

  /** What the four statistics SELECTs return for a window. */
  datatype StatsRows = StatsRows(timeline: seq<Utils.TimelineRow>, topItems: seq<Utils.TopItemRow>,
                                 statusDistribution: seq<Utils.StatusRow>, totals: Totals)

  /** The dictionary get_order_statistics returns: {} or the four entries. */
  datatype Statistics = Empty | Report(rows: StatsRows)

  /**
   * models.py lines 341-363 as written: 'today' and 'month' compute their windows; the 'week'
   * branch names timedelta and the all-time branch names UTC_TIMEZONE, neither of which
   * models.py imports (lines 4 and 12), so those branches raise NameError.
   */
  function StatisticsWindow(period: string, now: DateTime): (r: Result<StatsWindow>)
    requires now.Valid()
    ensures r.Success? <==> period == "today" || period == "month"
    ensures r.Success? ==> Utils.Ordered(r.value.window) && r.value.window.end == now
    ensures period == "today" ==> r == Success(StatsWindow(Utils.TodayWindow(now), Hour))
    ensures period == "month" ==> r == Success(StatsWindow(Utils.MonthWindow(now), Day))
    ensures period == "week" ==> r == Failure("name 'timedelta' is not defined")
  {
    if period == "today" then Success(StatsWindow(Utils.TodayWindow(now), Hour))
    else if period == "week" then Failure("name 'timedelta' is not defined")
    else if period == "month" then Success(StatsWindow(Utils.MonthWindow(now), Day))
    else Failure("name 'UTC_TIMEZONE' is not defined")
  }

  /**
   * models.py lines 341-428 as written: `fetch` answers the statistics queries for a window
   * (None when one of them raises); any exception makes the result {}.
   */
  function OrderStatistics(period: string, now: DateTime, fetch: StatsWindow -> Option<StatsRows>): (r: Statistics)
    requires now.Valid()
    ensures r.Report? <==> StatisticsWindow(period, now).Success? && fetch(StatisticsWindow(period, now).value).Some?
    ensures r.Report? ==> r.rows == fetch(StatisticsWindow(period, now).value).value
  {
    match StatisticsWindow(period, now)
    case Failure(_) => Empty
    case Success(w) =>
      match fetch(w)
      case None => Empty
      case Some(rows) => Report(rows)
  }

  /** The week and all-time statistics are always {}, whatever the database holds. */
  lemma WeekAndAllTimeStatisticsAreEmpty(period: string, now: DateTime, fetch: StatsWindow -> Option<StatsRows>)
    requires now.Valid() && period != "today" && period != "month"
    ensures OrderStatistics(period, now, fetch) == Empty
  {
  }

  /**
   * The evidently intended start of the all-time window, datetime.min marked as UTC and read in IST
   * (models.py line 361): the wall clock 05:30 on 0001-01-01.
   */
  function IntendedAllTimeStart(): (r: DateTime)
    ensures r.Valid() && Instant(r) == Instant(MinDateTime) + Config.IstOffsetMinutes * MinuteMicros
    ensures r == DateTime(MinDate, Config.IstOffsetMinutes * MinuteMicros)
  {
    var s := Config.Stamp(MinDateTime, Some(0));
    assert Config.Converts(s) by { InstantOnFirstDay(0); }
    Config.ToIst(Some(s)).value.wall
  }

  /**
   * The evidently intended windows: 'week' is the seven days up to now, grouped by day, and any
   * other keyword is all time from IntendedAllTimeStart, grouped by month.  None where the week
   * subtraction overflows.  Only an IST clock reading before 05:30 on 0001-01-01 puts the all-time
   * start after now.
   */
  function IntendedStatisticsWindow(period: string, now: DateTime): (r: Option<StatsWindow>)
    requires now.Valid()
    ensures r.None? <==> period == "week" && Ordinal(now.date) <= 7
    ensures r.Some? ==> r.value.window.end == now
    ensures r.Some? && period in {"today", "week", "month"} ==> Utils.Ordered(r.value.window)
    ensures period == "today" ==> r == Some(StatsWindow(Utils.TodayWindow(now), Hour))
    ensures period == "month" ==> r == Some(StatsWindow(Utils.MonthWindow(now), Day))
    ensures period == "week" && r.Some? ==> Instant(r.value.window.start) == Instant(now) - 7 * DayMicros && r.value.groupBy == Day
    ensures period !in {"today", "week", "month"} ==> r == Some(StatsWindow(Utils.Window(IntendedAllTimeStart(), now), Month))
    ensures period !in {"today", "week", "month"} ==>
              (Utils.Ordered(r.value.window) <==> Instant(IntendedAllTimeStart()) <= Instant(now))
  {
    if period == "today" then Some(StatsWindow(Utils.TodayWindow(now), Hour))
    else if period == "week" then
      match Utils.WeekWindow(now)
      case None => None
      case Some(w) => Some(StatsWindow(w, Day))
    else if period == "month" then Some(StatsWindow(Utils.MonthWindow(now), Day))
    else Some(StatsWindow(Utils.Window(IntendedAllTimeStart(), now), Month))
  }

  function IntendedOrderStatistics(period: string, now: DateTime, fetch: StatsWindow -> Option<StatsRows>): (r: Statistics)
    requires now.Valid()
    ensures r.Report? <==> IntendedStatisticsWindow(period, now).Some? && fetch(IntendedStatisticsWindow(period, now).value).Some?
    ensures r.Report? ==> r.rows == fetch(IntendedStatisticsWindow(period, now).value).value
  {
    match IntendedStatisticsWindow(period, now)
    case None => Empty
    case Some(w) =>
      match fetch(w)
      case None => Empty
      case Some(rows) => Report(rows)
  }

  /**
   * With the intended windows every keyword reports whenever the database answers (and the
   * week does not reach before datetime.min), and 'today' and 'month' agree with the code.
   */
  lemma IntendedStatisticsReport(period: string, now: DateTime, fetch: StatsWindow -> Option<StatsRows>)
    requires now.Valid() && (period == "week" ==> Ordinal(now.date) > 7)
    requires forall w :: fetch(w).Some?
    ensures IntendedOrderStatistics(period, now, fetch).Report?
    ensures period == "today" || period == "month" ==> IntendedOrderStatistics(period, now, fetch) == OrderStatistics(period, now, fetch)
  {
  }

  // ----- get_all_orders / get_customers -----

  /**
   * models.py lines 182-257: the orders page and its count, or ([], 0) when the connection or a
   * query raises (`answer` returns None then).
   */
  method GetAllOrders<R>(page: int, perPage: int, status: Option<string>, search: Option<string>,
                         answer: Queries.PagedQuery -> Option<Queries.Page<R>>)
    returns (q: Queries.PagedQuery, result: Queries.Page<R>)
    ensures Queries.OrdersQuery(q, page, perPage, status, search)
    ensures result == Queries.OrEmpty(answer(q))
  {
    q := Queries.BuildOrdersQuery(page, perPage, status, search);
    match answer(q) {
      case None => result := Queries.Page([], 0);
      case Some(p) => result := p;
    }
  }

  /** models.py lines 464-525: the customers page and its count, or ([], 0) on an exception. */
  method GetCustomers<R>(page: int, perPage: int, search: Option<string>,
                         answer: Queries.PagedQuery -> Option<Queries.Page<R>>)
    returns (q: Queries.PagedQuery, result: Queries.Page<R>)
    ensures Queries.CustomersQuery(q, page, perPage, search)
    ensures result == Queries.OrEmpty(answer(q))
  {
    q := Queries.BuildCustomersQuery(page, perPage, search);
    match answer(q) {
      case None => result := Queries.Page([], 0);
      case Some(p) => result := p;
    }
  }
}
