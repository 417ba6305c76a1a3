/**
 * app.py: the route-level decisions of the main admin application: page counts, the badge
 * lookups, the update-status validation, what the listing pages pass to their templates, and
 * the order-details endpoint.  Flask, templates and JSON rendering are not modelled.
 */
module App {
  import opened Wrappers
  import opened Text
  import Auth
  import Models
  import Queries

  const PerPage := 20

  /**
   * app.py lines 238 and 493: (total + 19) // 20 pages when there is something to show, and one
   * (empty) page otherwise.
   */
  function TotalPages(total: int): (r: int)
    ensures r >= 1
    ensures total <= 0 ==> r == 1
    ensures total > 0 ==> (r - 1) * PerPage < total <= r * PerPage
  {
    if total > 0 then (total + PerPage - 1) / PerPage else 1
  }

  // ----- badges -----

  const Secondary := "secondary"

  /** app.py lines 831-839. */
  const StatusClasses: map<string, string> := map[
    "pending" := "warning",
    "confirmed" := "info",
    "processing" := "primary",
    "shipped" := "purple",
    "delivered" := "success",
    "cancelled" := "danger",
    "refunded" := "secondary"
  ]

  /** app.py lines 844-850. */
  const PaymentClasses: map<string, string> := map[
    "pending" := "warning",
    "completed" := "success",
    "failed" := "danger",
    "refunded" := "secondary",
    "processing" := "info"
  ]

  /** The key a badge lookup uses: the lower-cased status, or '' for None and ''. */
  function BadgeKey(status: Option<string>): (r: string)
    ensures status.None? ==> r == ""
    ensures status.Some? ==> r == Lower(status.value)
  {
    if status.Some? && status.value != "" then Lower(status.value) else ""
  }

  /** table.get(key, 'secondary'). */
  function Lookup(table: map<string, string>, key: string): (r: string)
    ensures key in table ==> r == table[key]
    ensures key !in table ==> r == Secondary
  {
    if key in table then table[key] else Secondary
  }

  /** app.py lines 829-840, get_status_badge. */
  function StatusBadge(status: Option<string>): (r: string)
    ensures r in StatusClasses.Values
    ensures status.Some? && Lower(status.value) in StatusClasses ==> r == StatusClasses[Lower(status.value)]
    ensures status.None? || Lower(status.value) !in StatusClasses ==> r == Secondary
  {
    assert StatusClasses["refunded"] == Secondary;
    Lookup(StatusClasses, BadgeKey(status))
  }

  /** app.py lines 842-851, get_payment_badge. */
  function PaymentBadge(status: Option<string>): (r: string)
    ensures r in PaymentClasses.Values
    ensures status.Some? && Lower(status.value) in PaymentClasses ==> r == PaymentClasses[Lower(status.value)]
    ensures status.None? || Lower(status.value) !in PaymentClasses ==> r == Secondary
  {
    assert PaymentClasses["refunded"] == Secondary;
    Lookup(PaymentClasses, BadgeKey(status))
  }

  /** The badge lookups ignore letter case: a status and its lower-cased form get the same class. */
  lemma BadgesIgnoreCase(status: string)
    ensures StatusBadge(Some(status)) == StatusBadge(Some(Lower(status)))
    ensures PaymentBadge(Some(status)) == PaymentBadge(Some(Lower(status)))
  {
    LowerIdempotent(status);
  }

  // ----- update-status -----

  const StatusRequired := "Status is required"
  const ModulesNotLoaded := "Database modules not loaded"

  /**
   * app.py lines 437-465, admin_update_order_status, on the orders table: `modulesLoaded` is
   * whether the imports at the top of app.py succeeded.  A status that is blank after strip()
   * is refused without touching the orders; otherwise the stripped status and notes and the
   * session's admin_username are passed to update_order_status, whose answer is returned
   * unchanged.
   */
  function UpdateStatusDecision(t: Models.Table, modulesLoaded: bool, orderId: int, status: Option<string>,
                                admin: Option<string>, notes: Option<string>, fault: Option<string>)
    : (r: (Models.Table, Models.UpdateResult))
    ensures !modulesLoaded ==> r == (t, Models.UpdateResult(false, ModulesNotLoaded))
    ensures modulesLoaded && Auth.FormField(status) == "" ==> r == (t, Models.UpdateResult(false, StatusRequired))
    ensures modulesLoaded && Auth.FormField(status) != "" ==>
              r == Models.UpdateTransition(t, orderId, Auth.FormField(status), admin, Some(Auth.FormField(notes)), fault)
    ensures r.1.success <==> modulesLoaded && Auth.FormField(status) != "" && fault.None? && orderId in t.statuses
    ensures !r.1.success ==> r.0 == t
  {
    if !modulesLoaded then (t, Models.UpdateResult(false, ModulesNotLoaded))
    else if Auth.FormField(status) == "" then (t, Models.UpdateResult(false, StatusRequired))
    else Models.UpdateTransition(t, orderId, Auth.FormField(status), admin, Some(Auth.FormField(notes)), fault)
  }

  /** Whatever the request, the route keeps the audit log consistent with the orders. */
  lemma UpdateStatusKeepsLogConsistent(t: Models.Table, modulesLoaded: bool, orderId: int, status: Option<string>,
                                       admin: Option<string>, notes: Option<string>, fault: Option<string>)
    requires Models.Explained(t) && Models.Chained(t.logs)
    ensures var r := UpdateStatusDecision(t, modulesLoaded, orderId, status, admin, notes, fault);
            Models.Explained(r.0) && Models.Chained(r.0.logs)
  {
    if modulesLoaded && Auth.FormField(status) != "" {
      Models.UpdateKeepsLogConsistent(t, orderId, Auth.FormField(status), admin, Some(Auth.FormField(notes)), fault);
    }
  }

  /** The route over the mutable table: its new state and answer are UpdateStatusDecision's. */
  method UpdateStatusRoute(table: Models.OrderTable, session: Auth.Session, modulesLoaded: bool, orderId: int,
                           status: Option<string>, notes: Option<string>, fault: Option<string>)
    returns (success: bool, message: string)
    modifies table
    ensures (Models.Table(table.statuses, table.logs), Models.UpdateResult(success, message))
            == UpdateStatusDecision(Models.Table(old(table.statuses), old(table.logs)), modulesLoaded, orderId, status,
                                    old(session.AdminUsername()), notes, fault)
    ensures old(table.Valid()) ==> table.Valid()
  {
    ghost var before := Models.Table(table.statuses, table.logs);
    var admin := session.AdminUsername();
    if !modulesLoaded {
      return false, ModulesNotLoaded;
    }
    var newStatus := Auth.FormField(status);
    var notesText := Auth.FormField(notes);
    if newStatus == "" {
      return false, StatusRequired;
    }
    success, message := table.UpdateOrderStatus(orderId, newStatus, admin, Some(notesText), fault);
    assert UpdateStatusDecision(before, modulesLoaded, orderId, status, admin, notes, fault)
           == Models.UpdateTransition(before, orderId, newStatus, admin, Some(notesText), fault);
  }

  // ----- listing pages -----

  /** What a listing page passes to its template. */
  datatype ListingView = ListingView(page: int, totalPages: int, total: int, currentStatus: string, currentSearch: string)

  /**
   * app.py lines 212-248, admin_orders: the listing is fetched with the requested page and
   * filters, but the template always receives page 1 and empty current filters.
   */
  method AdminOrders<R>(page: int, status: string, search: string,
                        answer: Queries.PagedQuery -> Option<Queries.Page<R>>)
    returns (q: Queries.PagedQuery, rows: seq<R>, view: ListingView)
    ensures Queries.OrdersQuery(q, page, PerPage, Some(status), Some(search))
    ensures rows == Queries.OrEmpty(answer(q)).rows
    ensures view == ListingView(1, TotalPages(Queries.OrEmpty(answer(q)).total), Queries.OrEmpty(answer(q)).total, "", "")
  {
    var result;
    q, result := Models.GetAllOrders(page, PerPage, Some(status), Some(search), answer);
    rows := result.rows;
    view := ListingView(1, TotalPages(result.total), result.total, "", "");
  }

  /** app.py lines 471-512, admin_customers: the same, with the search filter only. */
  method AdminCustomers<R>(page: int, search: string, answer: Queries.PagedQuery -> Option<Queries.Page<R>>)
    returns (q: Queries.PagedQuery, rows: seq<R>, view: ListingView)
    ensures Queries.CustomersQuery(q, page, PerPage, Some(search))
    ensures rows == Queries.OrEmpty(answer(q)).rows
    ensures view == ListingView(1, TotalPages(Queries.OrEmpty(answer(q)).total), Queries.OrEmpty(answer(q)).total, "", "")
  {
    var result;
    q, result := Models.GetCustomers(page, PerPage, Some(search), answer);
    rows := result.rows;
    view := ListingView(1, TotalPages(result.total), result.total, "", "");
  }

  // ----- order details -----

  datatype PaymentRow = PaymentRow(orderId: int, paymentStatus: Option<string>)

  /** The JSON the order-details endpoint answers with. */
  datatype DetailsResponse = Failed(message: string) | Found(details: Models.OrderDetails, payment: Option<PaymentRow>)

  const OrderNotFound := "Order not found"

  /** str(KeyError(key)): the key in single quotes. */
  function KeyErrorText(key: string): string {
    "'" + key + "'"
  }

  /**
   * app.py lines 263-320 as written: the details come from models.get_order_details, and the
   * answer reads order_data['payment'] (line 314), a key that dictionary never has, so the
   * KeyError is caught and its text returned.
   */
  function AdminOrderDetails(modulesLoaded: bool, rows: Option<Models.DetailRows>): (r: DetailsResponse)
    ensures !modulesLoaded ==> r == Failed(ModulesNotLoaded)
    ensures modulesLoaded && Models.GetOrderDetails(rows).None? ==> r == Failed(OrderNotFound)
    ensures modulesLoaded && Models.GetOrderDetails(rows).Some? ==> r == Failed(KeyErrorText("payment"))
  {
    if !modulesLoaded then Failed(ModulesNotLoaded)
    else
      match Models.GetOrderDetails(rows)
      case None => Failed(OrderNotFound)
      case Some(d) =>
        if "payment" in Models.DetailKeys then Found(d, None) else Failed(KeyErrorText("payment"))
  }

  /** As written, the endpoint never succeeds, even for an order that exists. */
  lemma OrderDetailsNeverSucceed(modulesLoaded: bool, rows: Option<Models.DetailRows>)
    ensures AdminOrderDetails(modulesLoaded, rows).Failed?
    ensures modulesLoaded && rows.Some? && rows.value.order.Some? ==>
              AdminOrderDetails(modulesLoaded, rows) == Failed("'payment'")
  {
  }

  /**
   * The evidently intended endpoint: the order's payments row is looked up beside the details
   * (as oapp.py does) and an existing order is answered with its details.
   */
  function IntendedAdminOrderDetails(modulesLoaded: bool, rows: Option<Models.DetailRows>, payment: Option<PaymentRow>)
    : (r: DetailsResponse)
    ensures r.Found? <==> modulesLoaded && rows.Some? && rows.value.order.Some?
    ensures r.Found? ==> Some(r.details) == Models.GetOrderDetails(rows) && r.payment == payment
    ensures modulesLoaded && !r.Found? ==> r == Failed(OrderNotFound)
  {
    if !modulesLoaded then Failed(ModulesNotLoaded)
    else
      match Models.GetOrderDetails(rows)
      case None => Failed(OrderNotFound)
      case Some(d) => Found(d, payment)
  }
}
