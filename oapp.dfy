/**
 * oapp.py: the self-contained variant of the admin application, which opens its own database
 * connection and carries its own helpers.  Its login, logout and gate are the code of the Auth
 * module (with the credentials of Config.AdminCredentials, read from the same variables with
 * the same defaults); its listing queries are those of the Queries module.
 */
module Oapp {
  import opened Wrappers
  import opened Calendar
  import opened Text
  import Config
  import Utils
  import Queries
  import Models
  import App

  // ----- get_db_connection -----

  /**
   * oapp.py lines 22-44: no connection (None) when DATABASE_URL is unset or empty, or when
   * connecting raises (`connects` says whether it succeeds); otherwise the connection is opened
   * on the URL with a leading postgres:// rewritten.  The result is that URL.
   */
  function DbConnection(databaseUrl: Option<string>, connects: bool): (r: Option<string>)
    ensures r.Some? <==> Queries.Truthy(databaseUrl) && connects
    ensures r.Some? ==> r == Config.NormalizeDatabaseUrl(databaseUrl)
  {
    if !Queries.Truthy(databaseUrl) || !connects then None
    else
      var url := databaseUrl.value;
      Some(if Config.PostgresScheme <= url then Config.ReplaceFirst(url, Config.PostgresScheme, Config.PostgresqlScheme) else url)
  }

  /** Where models.py raises on a missing URL, this variant answers None; both rewrite alike. */
  lemma ConnectionAgreesWithModels(databaseUrl: Option<string>)
    ensures DbConnection(databaseUrl, true).None? <==> Models.ConnectionUrl(databaseUrl).Failure?
    ensures DbConnection(databaseUrl, true).Some? ==> DbConnection(databaseUrl, true).value == Models.ConnectionUrl(databaseUrl).value
  {
  }

  // ----- format_currency / format_ist_datetime -----

  /**
   * oapp.py lines 66-73: None and an unconvertible value give the text for zero rupees; a number
   * is rendered (render is the ',.2f' format).
   */
  function FormatCurrency(amount: Utils.Amount, render: real -> string): (r: string)
    ensures !amount.Numeric? ==> r == Utils.ZeroRupees
    ensures amount.Numeric? ==> r == "\U{20B9}" + render(amount.value)
  {
    match amount
    case Missing => Utils.ZeroRupees
    case Numeric(v) => "\U{20B9}" + render(v)
    case Unconvertible(_) => Utils.ZeroRupees
  }

  /** The explicit None check changes nothing: both variants format every amount alike. */
  lemma CurrencyAgreesWithUtils(amount: Utils.Amount, render: real -> string)
    ensures FormatCurrency(amount, render) == Utils.FormatCurrency(amount, render)
  {
  }

  /** The argument of format_ist_datetime: None, a string, or a datetime. */
  datatype DateArg = NoDate | Text(text: string) | At(stamp: DateTime)

  /**
   * oapp.py lines 53-64: a falsy argument gives ""; a string is parsed with '%Y-%m-%d %H:%M:%S'
   * (parse, None when strptime raises) and returned unchanged when it does not parse; a datetime
   * is rendered with strftime (None when it raises), falling back to str(dt) (show).
   */
  function FormatIstDatetime(dt: DateArg, parse: string -> Option<DateTime>, strftime: DateTime -> Option<string>,
                             show: DateTime -> string): (r: string)
    ensures dt.NoDate? || dt == Text("") ==> r == ""
    ensures dt.Text? && dt.text != "" && parse(dt.text).None? ==> r == dt.text
    ensures dt.Text? && dt.text != "" && parse(dt.text).Some? ==> r == strftime(parse(dt.text).value).GetOr(show(parse(dt.text).value))
    ensures dt.At? ==> r == strftime(dt.stamp).GetOr(show(dt.stamp))
  {
    match dt
    case NoDate => ""
    case Text(s) =>
      if s == "" then ""
      else
        (match parse(s)
         case None => s
         case Some(d) => strftime(d).GetOr(show(d)))
    case At(d) => strftime(d).GetOr(show(d))
  }

  // ----- get_all_orders / get_order_details -----

  /**
   * oapp.py lines 112-184: with no connection ([], 0) is returned and no query is built;
   * otherwise the listing query is built and its answer returned, ([], 0) when it raises.
   */
  method GetAllOrders<R>(connection: Option<string>, page: int, perPage: int, status: Option<string>,
                         search: Option<string>, answer: Queries.PagedQuery -> Option<Queries.Page<R>>)
    returns (q: Option<Queries.PagedQuery>, result: Queries.Page<R>)
    ensures connection.None? ==> q.None? && result == Queries.Page([], 0)
    ensures connection.Some? ==> q.Some? && Queries.OrdersQuery(q.value, page, perPage, status, search)
                                 && result == Queries.OrEmpty(answer(q.value))
  {
    if connection.None? {
      return None, Queries.Page([], 0);
    }
    var built := Queries.BuildOrdersQuery(page, perPage, status, search);
    q := Some(built);
    result := Queries.OrEmpty(answer(built));
  }

  /** oapp.py lines 251-312, get_customers, with the same no-connection answer. */
  method GetCustomers<R>(connection: Option<string>, page: int, perPage: int, search: Option<string>,
                         answer: Queries.PagedQuery -> Option<Queries.Page<R>>)
    returns (q: Option<Queries.PagedQuery>, result: Queries.Page<R>)
    ensures connection.None? ==> q.None? && result == Queries.Page([], 0)
    ensures connection.Some? ==> q.Some? && Queries.CustomersQuery(q.value, page, perPage, search)
                                 && result == Queries.OrEmpty(answer(q.value))
  {
    if connection.None? {
      return None, Queries.Page([], 0);
    }
    var built := Queries.BuildCustomersQuery(page, perPage, search);
    q := Some(built);
    result := Queries.OrEmpty(answer(built));
  }

  /** The user row and address rows of the order's customer. */
  datatype CustomerData = CustomerData(user: Option<Models.UserRow>, addresses: seq<string>)

  /** What the SELECTs of this variant return. */
  datatype DetailRows = DetailRows(order: Option<Models.OrderRow>, items: seq<Models.ItemRow>, user: Option<Models.UserRow>,
                                   addresses: seq<string>, payment: Option<App.PaymentRow>)

  datatype OrderDetails = OrderDetails(order: Models.OrderRow, items: seq<Models.ItemRow>, customer: Option<CustomerData>,
                                       payment: Option<App.PaymentRow>)

  /**
   * oapp.py lines 186-249, get_order_details: None without a connection, for a missing order,
   * or when a query raises (rows = None); the customer part is None when the order has no user.
   */
  function GetOrderDetails(connection: Option<string>, rows: Option<DetailRows>): (r: Option<OrderDetails>)
    ensures r.None? <==> connection.None? || rows.None? || rows.value.order.None?
    ensures r.Some? ==> r.value.order == rows.value.order.value && r.value.items == rows.value.items
                        && r.value.payment == rows.value.payment
    ensures r.Some? ==> (r.value.customer.None? <==> !Models.HasUser(r.value.order))
    ensures r.Some? && r.value.customer.Some? ==> r.value.customer.value == CustomerData(rows.value.user, rows.value.addresses)
  {
    if connection.None? || rows.None? then None
    else
      var d := rows.value;
      match d.order
      case None => None
      case Some(o) =>
        Some(OrderDetails(o, d.items, if Models.HasUser(o) then Some(CustomerData(d.user, d.addresses)) else None, d.payment))
  }

  // ----- get_order_statistics -----

  /**
   * oapp.py lines 326-339: the window for a keyword on the naive clock; None where the week
   * subtraction overflows.
   */
  function StatisticsWindow(period: string, now: DateTime): (r: Option<Utils.Window>)
    requires now.Valid()
    ensures r.None? <==> period == "week" && Ordinal(now.date) <= 7
    ensures r.Some? ==> Utils.Ordered(r.value) && r.value.end == now
    ensures period == "today" ==> r.Some? && r.value.start == Midnight(now.date)
    ensures period == "week" && r.Some? ==> Instant(r.value.start) == Instant(now) - 7 * DayMicros
    ensures period == "month" ==> r.Some? && r.value.start == Midnight(Utils.FirstOfMonth(now.date))
    ensures period !in {"today", "week", "month"} ==> r.Some? && r.value.start == MinDateTime
  {
    if period == "today" then Some(Utils.TodayWindow(now))
    else if period == "week" then Utils.WeekWindow(now)
    else if period == "month" then Some(Utils.MonthWindow(now))
    else Some(Utils.AllTimeWindow(now))
  }

  /** For the keywords both know, these windows are those of utils.get_time_period_dates. */
  lemma WindowsAgreeWithUtils(period: string, now: DateTime)
    requires now.Valid() && period != "yesterday" && period != "last_month"
    ensures StatisticsWindow(period, now) == Utils.TimePeriodDates(period, now)
  {
  }

  /** What the three statistics SELECTs return; the totals row may be missing. */
  datatype StatsRows = StatsRows(totals: Option<Models.Totals>, topItems: seq<Utils.TopItemRow>, statusDistribution: seq<Utils.StatusRow>)

  datatype Statistics = Statistics(totals: Models.Totals, topItems: seq<Utils.TopItemRow>, statusDistribution: seq<Utils.StatusRow>)

  /** {'total_orders': 0, 'total_revenue': 0, 'avg_order_value': 0}. */
  const ZeroTotals := Models.Totals(0, Some(0.0), Some(0.0))
  const ZeroStatistics := Statistics(ZeroTotals, [], [])

  /**
   * oapp.py lines 314-394, get_order_statistics: zeroed totals and empty lists without a
   * connection, when the window computation overflows, or when a query raises (fetch answers
   * None); a missing totals row is replaced by the zeroed totals.
   */
  function OrderStatistics(connection: Option<string>, period: string, now: DateTime,
                           fetch: Utils.Window -> Option<StatsRows>): (r: Statistics)
    requires now.Valid()
    ensures connection.None? || StatisticsWindow(period, now).None? ==> r == ZeroStatistics
    ensures connection.Some? && StatisticsWindow(period, now).Some? && fetch(StatisticsWindow(period, now).value).None?
            ==> r == ZeroStatistics
    ensures connection.Some? && StatisticsWindow(period, now).Some? && fetch(StatisticsWindow(period, now).value).Some? ==>
              var rows := fetch(StatisticsWindow(period, now).value).value;
              r.totals == rows.totals.GetOr(ZeroTotals) && r.topItems == rows.topItems && r.statusDistribution == rows.statusDistribution
  {
    if connection.None? then ZeroStatistics
    else
      match StatisticsWindow(period, now)
      case None => ZeroStatistics
      case Some(w) =>
        match fetch(w)
        case None => ZeroStatistics
        case Some(rows) => Statistics(rows.totals.GetOr(ZeroTotals), rows.topItems, rows.statusDistribution)
  }

  /** Unlike models.py, this variant answers the 'week' and all-time keywords with real rows. */
  lemma StatisticsUseDatabaseRows(connection: Option<string>, period: string, now: DateTime,
                                  fetch: Utils.Window -> Option<StatsRows>)
    requires now.Valid() && connection.Some? && Ordinal(now.date) > 7
    requires forall w :: fetch(w).Some? && fetch(w).value.totals.Some?
    ensures OrderStatistics(connection, period, now, fetch).totals == fetch(StatisticsWindow(period, now).value).value.totals.value
  {
  }

  // ----- badges -----

  /** oapp.py lines 739-746: app.py's table without 'refunded'. */
  const StatusClasses: map<string, string> := map[
    "pending" := "warning",
    "confirmed" := "info",
    "processing" := "primary",
    "shipped" := "purple",
    "delivered" := "success",
    "cancelled" := "danger"
  ]

  /** oapp.py lines 750-754: three payment statuses only. */
  const PaymentClasses: map<string, string> := map[
    "pending" := "warning",
    "completed" := "success",
    "failed" := "danger"
  ]

  /** oapp.py lines 738-747, get_status_badge. */
  function StatusBadge(status: Option<string>): (r: string)
    ensures status.Some? && Lower(status.value) in StatusClasses ==> r == StatusClasses[Lower(status.value)]
    ensures status.None? || Lower(status.value) !in StatusClasses ==> r == App.Secondary
  {
    App.Lookup(StatusClasses, App.BadgeKey(status))
  }

  /** oapp.py lines 749-755, get_payment_badge. */
  function PaymentBadge(status: Option<string>): (r: string)
    ensures status.Some? && Lower(status.value) in PaymentClasses ==> r == PaymentClasses[Lower(status.value)]
    ensures status.None? || Lower(status.value) !in PaymentClasses ==> r == App.Secondary
  {
    App.Lookup(PaymentClasses, App.BadgeKey(status))
  }

  /**
   * Dropping 'refunded' changes no status badge, since app.py maps it to the fallback class
   * anyway; the payment badges differ only for 'processing' (in any letter case).
   */
  lemma BadgesCompareWithApp(status: Option<string>)
    ensures StatusBadge(status) == App.StatusBadge(status)
    ensures PaymentBadge(status) != App.PaymentBadge(status) <==> status.Some? && Lower(status.value) == "processing"
  {
    var k := App.BadgeKey(status);
    if k in App.StatusClasses {
      assert k in StatusClasses || k == "refunded";
    }
    if k in App.PaymentClasses {
      assert k in PaymentClasses || k == "refunded" || k == "processing";
    }
    if status.Some? && Lower(status.value) == "processing" {
      assert k == "processing";
    }
  }

  // ----- listing pages -----

  /**
   * oapp.py lines 536-560, admin_orders: get_all_orders with the requested page and filters, the
   * guarded page count of app.py, and the requested page and filters passed on to the template.
   */
  method AdminOrders<R>(connection: Option<string>, page: int, status: string, search: string,
                        answer: Queries.PagedQuery -> Option<Queries.Page<R>>)
    returns (q: Option<Queries.PagedQuery>, rows: seq<R>, view: App.ListingView)
    ensures connection.None? ==> q.None? && rows == [] && view == App.ListingView(page, 1, 0, status, search)
    ensures connection.Some? ==> q.Some? && Queries.OrdersQuery(q.value, page, App.PerPage, Some(status), Some(search))
                                 && rows == Queries.OrEmpty(answer(q.value)).rows
                                 && view.total == Queries.OrEmpty(answer(q.value)).total
    ensures view.page == page && view.currentStatus == status && view.currentSearch == search
    ensures view.totalPages == App.TotalPages(view.total) && view.totalPages >= 1
  {
    var result;
    q, result := GetAllOrders(connection, page, App.PerPage, Some(status), Some(search), answer);
    rows := result.rows;
    view := App.ListingView(page, App.TotalPages(result.total), result.total, status, search);
  }

  /**
   * oapp.py lines 616-644, admin_customers: get_customers with the requested page and search, the
   * guarded page count, and the requested page and search passed on to the template (this page
   * has no status filter, so currentStatus stays "").
   */
  method AdminCustomers<R>(connection: Option<string>, page: int, search: string,
                           answer: Queries.PagedQuery -> Option<Queries.Page<R>>)
    returns (q: Option<Queries.PagedQuery>, rows: seq<R>, view: App.ListingView)
    ensures connection.None? ==> q.None? && rows == [] && view == App.ListingView(page, 1, 0, "", search)
    ensures connection.Some? ==> q.Some? && Queries.CustomersQuery(q.value, page, App.PerPage, Some(search))
                                 && rows == Queries.OrEmpty(answer(q.value)).rows
                                 && view.total == Queries.OrEmpty(answer(q.value)).total
    ensures view.page == page && view.currentStatus == "" && view.currentSearch == search
    ensures view.totalPages == App.TotalPages(view.total) && view.totalPages >= 1
  {
    var result;
    q, result := GetCustomers(connection, page, App.PerPage, Some(search), answer);
    rows := result.rows;
    view := App.ListingView(page, App.TotalPages(result.total), result.total, "", search);
  }
}
