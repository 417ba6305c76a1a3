/**
 * 9app.py: the earlier variant of the admin application.  Its login, logout and gate are the
 * code of the Auth module; what differs is the unguarded page count, the update-status route
 * without the module check, listing pages that echo the request, and badge classes with a
 * 'badge-' prefix looked up with an unguarded lower().
 */
module Nine {
  import opened Wrappers
  import opened Text
  import Auth
  import Models
  import Queries
  import App

  /** 9app.py lines 159 and 391: (total + 19) // 20 with no guard for an empty listing. */
  function TotalPages(total: int): (r: int)
    ensures total >= 0 ==> r >= 0
    ensures total == 0 ==> r == 0
    ensures total > 0 ==> (r - 1) * App.PerPage < total <= r * App.PerPage
  {
    (total + App.PerPage - 1) / App.PerPage
  }

  /** The two page counts agree except on an empty listing, where this one shows no pages. */
  lemma PageCountsAgreeExceptWhenEmpty(total: int)
    requires total >= 0
    ensures total > 0 ==> TotalPages(total) == App.TotalPages(total)
    ensures total == 0 ==> TotalPages(total) == 0 && App.TotalPages(total) == 1
  {
  }

  const Prefix := "badge-"

  /** 9app.py lines 617-625. */
  const StatusClasses: map<string, string> := map[
    "pending" := "badge-warning",
    "confirmed" := "badge-info",
    "processing" := "badge-primary",
    "shipped" := "badge-purple",
    "delivered" := "badge-success",
    "cancelled" := "badge-danger",
    "refunded" := "badge-secondary"
  ]

  /** 9app.py lines 630-636. */
  const PaymentClasses: map<string, string> := map[
    "pending" := "badge-warning",
    "completed" := "badge-success",
    "failed" := "badge-danger",
    "refunded" := "badge-secondary",
    "processing" := "badge-info"
  ]

  const DefaultClass := "badge-secondary"

  /**
   * 9app.py lines 615-626, get_status_badge: status.lower() is called without a guard, so None
   * raises AttributeError (None here); any string gets its class or badge-secondary.
   */
  function StatusBadge(status: Option<string>): (r: Option<string>)
    ensures r.None? <==> status.None?
    ensures r.Some? && Lower(status.value) in StatusClasses ==> r.value == StatusClasses[Lower(status.value)]
    ensures r.Some? && Lower(status.value) !in StatusClasses ==> r.value == DefaultClass
  {
    match status
    case None => None
    case Some(s) => Some(if Lower(s) in StatusClasses then StatusClasses[Lower(s)] else DefaultClass)
  }

  /** 9app.py lines 628-637, get_payment_badge, with the same unguarded lower(). */
  function PaymentBadge(status: Option<string>): (r: Option<string>)
    ensures r.None? <==> status.None?
    ensures r.Some? && Lower(status.value) in PaymentClasses ==> r.value == PaymentClasses[Lower(status.value)]
    ensures r.Some? && Lower(status.value) !in PaymentClasses ==> r.value == DefaultClass
  {
    match status
    case None => None
    case Some(s) => Some(if Lower(s) in PaymentClasses then PaymentClasses[Lower(s)] else DefaultClass)
  }

  /**
   * For every string status both badges are app.py's class with 'badge-' in front; the empty
   * status, which app.py guards, falls back to badge-secondary here too.
   */
  lemma BadgesArePrefixedAppBadges(status: string)
    ensures StatusBadge(Some(status)) == Some(Prefix + App.StatusBadge(Some(status)))
    ensures PaymentBadge(Some(status)) == Some(Prefix + App.PaymentBadge(Some(status)))
  {
    StatusBadgeIsPrefixed(status);
    PaymentBadgeIsPrefixed(status);
  }

  lemma StatusBadgeIsPrefixed(status: string)
    ensures StatusBadge(Some(status)) == Some(Prefix + App.StatusBadge(Some(status)))
  {
    var k := Lower(status);
    assert App.BadgeKey(Some(status)) == k;
    assert DefaultClass == Prefix + App.Secondary;
    assert StatusClasses.Keys == App.StatusClasses.Keys;
    if k in StatusClasses {
      assert StatusClasses[k] == Prefix + App.StatusClasses[k];
    }
  }

  lemma PaymentBadgeIsPrefixed(status: string)
    ensures PaymentBadge(Some(status)) == Some(Prefix + App.PaymentBadge(Some(status)))
  {
    var k := Lower(status);
    assert App.BadgeKey(Some(status)) == k;
    assert DefaultClass == Prefix + App.Secondary;
    assert PaymentClasses.Keys == App.PaymentClasses.Keys;
    if k in PaymentClasses {
      assert PaymentClasses[k] == Prefix + App.PaymentClasses[k];
    }
  }

  /**
   * 9app.py lines 348-373, admin_update_order_status: the same steps as app.py's route without
   * the module check, that is, app.py's route with the modules loaded.
   */
  method UpdateStatusRoute(table: Models.OrderTable, session: Auth.Session, orderId: int,
                           status: Option<string>, notes: Option<string>, fault: Option<string>)
    returns (success: bool, message: string)
    modifies table
    ensures (Models.Table(table.statuses, table.logs), Models.UpdateResult(success, message))
            == App.UpdateStatusDecision(Models.Table(old(table.statuses), old(table.logs)), true, orderId, status,
                                        old(session.AdminUsername()), notes, fault)
    ensures old(table.Valid()) ==> table.Valid()
  {
    success, message := App.UpdateStatusRoute(table, session, true, orderId, status, notes, fault);
  }

  /**
   * 9app.py lines 146-169, admin_orders: the template receives the requested page and filters
   * and the unguarded page count.
   */
  method AdminOrders<R>(page: int, status: string, search: string,
                        answer: Queries.PagedQuery -> Option<Queries.Page<R>>)
    returns (q: Queries.PagedQuery, rows: seq<R>, view: App.ListingView)
    ensures Queries.OrdersQuery(q, page, App.PerPage, Some(status), Some(search))
    ensures rows == Queries.OrEmpty(answer(q)).rows
    ensures view == App.ListingView(page, TotalPages(Queries.OrEmpty(answer(q)).total), Queries.OrEmpty(answer(q)).total, status, search)
  {
    var result;
    q, result := Models.GetAllOrders(page, App.PerPage, Some(status), Some(search), answer);
    rows := result.rows;
    view := App.ListingView(page, TotalPages(result.total), result.total, status, search);
  }

  /** 9app.py lines 381-410, admin_customers: the requested page and search are echoed. */
  method AdminCustomers<R>(page: int, search: string, answer: Queries.PagedQuery -> Option<Queries.Page<R>>)
    returns (q: Queries.PagedQuery, rows: seq<R>, view: App.ListingView)
    ensures Queries.CustomersQuery(q, page, App.PerPage, Some(search))
    ensures rows == Queries.OrEmpty(answer(q)).rows
    ensures view == App.ListingView(page, TotalPages(Queries.OrEmpty(answer(q)).total), Queries.OrEmpty(answer(q)).total, "", search)
  {
    var result;
    q, result := Models.GetCustomers(page, App.PerPage, Some(search), answer);
    rows := result.rows;
    view := App.ListingView(page, TotalPages(result.total), result.total, "", search);
  }
}
