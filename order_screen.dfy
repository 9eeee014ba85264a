/**
  The view state of the superadmin order screen and the handlers that change
  it: the expanded row, the page and its Previous/Next controls, the order
  whose status update is in flight, and the results of fetching a page.
  Each request is an event of its own: a handler starts it, and the
  completion (or failure) arrives later as a separate call.
 */
module OrderScreen {
  import opened Js
  import opened OrderStatus

  /** What one `fetchOrders` request delivers. */
  datatype FetchResult = Fetched(orders: seq<Order>, totalPages: int) | FetchFailed(message: string)

  /** `expandedOrder === orderId ? null : orderId` */
  function Toggled(expanded: Option<string>, id: string): (r: Option<string>)
    ensures expanded == Some(id) ==> r == None
    ensures expanded != Some(id) ==> r == Some(id)
  {
    if expanded == Some(id) then None else Some(id)
  }

  /**
    Toggling the same row twice leaves that row as it was and every other row
    collapsed; so it restores the previous state exactly when no other row was
    expanded before.
   */
  lemma ToggleTwice(expanded: Option<string>, id: string)
    ensures Toggled(Toggled(expanded, id), id) == (if expanded == Some(id) then Some(id) else None)
    ensures Toggled(Toggled(expanded, id), id) == expanded <==> expanded == None || expanded == Some(id)
  {
  }

  /** At most one row is expanded, and toggling one row collapses any other. */
  lemma ToggleCollapsesOthers(expanded: Option<string>, id: string, other: string)
    requires other != id
    ensures Toggled(expanded, id) != Some(other)
  {
  }

  /** `disabled={page === 1 || loading}` on Previous. */
  predicate PreviousDisabled(page: int, loading: bool) {
    page == 1 || loading
  }

  /** `disabled={page === totalPages || loading}` on Next, as the source writes it. */
  predicate NextDisabledAsWritten(page: int, totalPages: int, loading: bool) {
    page == totalPages || loading
  }

  /** Next disabled on the last page and on any page past it. */
  predicate NextDisabled(page: int, totalPages: int, loading: bool) {
    page >= totalPages || loading
  }

  /** Previous never leads before page 1. */
  lemma PreviousStaysOnFirstPage(page: int, loading: bool)
    requires page >= 1 && !PreviousDisabled(page, loading)
    ensures page - 1 >= 1
  {
  }

  /** Next never leads past the last page. */
  lemma NextStaysOnLastPage(page: int, totalPages: int, loading: bool)
    requires !NextDisabled(page, totalPages, loading)
    ensures page + 1 <= totalPages
  {
  }

  /** Within 1..totalPages the two Next rules agree. */
  lemma NextRulesAgreeInRange(page: int, totalPages: int, loading: bool)
    requires page <= totalPages
    ensures NextDisabled(page, totalPages, loading) <==> NextDisabledAsWritten(page, totalPages, loading)
  {
  }

  /**
    As written, Next stays enabled on every page past `totalPages` (while no
    fetch is running), where the corrected rule disables it.
    `PastTheLastPage` shows the class reaching such a state.
   */
  lemma NextEscapesAsWritten(page: int, totalPages: int)
    requires page > totalPages
    ensures !NextDisabledAsWritten(page, totalPages, false)
    ensures NextDisabled(page, totalPages, false)
  {
  }

  class OrderScreen {
    var orders: seq<Order>
    var loading: bool
    var page: int
    var totalPages: int
    var sortOrder: string
    var userId: string
    var updatingOrder: Option<string>   // `orderId` of the update in flight
    var expandedOrder: Option<string>   // `_id` of the expanded row

    /** The page lies among the pages the last fetch reported. */
    predicate InRange()
      reads this
    {
      1 <= page <= totalPages
    }

    /** The status-change control of the order with this `orderId` is disabled. */
    predicate ControlDisabled(orderId: string)
      reads this
    {
      updatingOrder == Some(orderId)
    }

    /** Initial state; the mount effect has started the first fetch. */
    constructor ()
      ensures orders == [] && loading
      ensures page == 1 && totalPages == 1 && InRange()
      ensures sortOrder == "desc" && userId == ""
      ensures updatingOrder == None && expandedOrder == None
    {
      orders := [];
      loading := true;
      page := 1;
      totalPages := 1;
      sortOrder := "desc";
      userId := "";
      updatingOrder := None;
      expandedOrder := None;
    }

    /** The `try`/`catch`/`finally` tail of `fetchOrders`. */
    method CompleteFetch(result: FetchResult)
      modifies this`orders, this`totalPages, this`loading
      ensures !loading
      ensures result.Fetched? ==> orders == result.orders && totalPages == result.totalPages
      ensures result.FetchFailed? ==> orders == old(orders) && totalPages == old(totalPages)
    {
      if result.Fetched? {
        orders := result.orders;
        totalPages := result.totalPages;
      }
      loading := false;
    }

    method ToggleExpand(id: string)
      modifies this`expandedOrder
      ensures expandedOrder == Toggled(old(expandedOrder), id)
    {
      expandedOrder := if expandedOrder == Some(id) then None else Some(id);
    }

    /** `handlePageChange`: the new page, whose fetch the effect starts. */
    method HandlePageChange(newPage: int)
      modifies this`loading, this`page
      ensures loading && page == newPage
    {
      loading := true;
      page := newPage;
    }

    /** A click on Previous; a disabled button ignores it. */
    method ClickPrevious()
      modifies this`loading, this`page
      ensures PreviousDisabled(old(page), old(loading)) ==> page == old(page) && loading == old(loading)
      ensures !PreviousDisabled(old(page), old(loading)) ==> page == old(page) - 1 && loading
      ensures old(page) >= 1 ==> page >= 1
      ensures old(InRange()) ==> InRange()
    {
      if !PreviousDisabled(page, loading) {
        HandlePageChange(page - 1);
      }
    }

    /** A click on Next, with the source's rule `page === totalPages || loading`; a disabled button ignores it. */
    method ClickNext()
      modifies this`loading, this`page
      ensures NextDisabledAsWritten(old(page), totalPages, old(loading)) ==> page == old(page) && loading == old(loading)
      ensures !NextDisabledAsWritten(old(page), totalPages, old(loading)) ==> page == old(page) + 1 && loading
      ensures old(InRange()) ==> InRange()
    {
      if !NextDisabledAsWritten(page, totalPages, loading) {
        HandlePageChange(page + 1);
      }
    }

    /** A click on Next with the corrected rule `page >= totalPages || loading`. */
    method ClickNextCorrected()
      modifies this`loading, this`page
      ensures NextDisabled(old(page), totalPages, old(loading)) ==> page == old(page) && loading == old(loading)
      ensures !NextDisabled(old(page), totalPages, old(loading)) ==> page == old(page) + 1 && loading
      ensures page == old(page) || page <= totalPages
      ensures old(InRange()) ==> InRange()
    {
      if !NextDisabled(page, totalPages, loading) {
        HandlePageChange(page + 1);
      }
    }

    /**
      Typing in the user filter. A changed value makes the effect refetch, with
      the page left as it is; setting the same value again changes nothing.
     */
    method ChangeUserId(value: string)
      modifies this`userId, this`loading
      ensures userId == value
      ensures loading == (old(loading) || value != old(userId))
    {
      if value != userId {
        userId := value;
        loading := true;
      }
    }

    /** Choosing a sort order; as for the user filter, only a change refetches. */
    method ChangeSortOrder(value: string)
      modifies this`sortOrder, this`loading
      ensures sortOrder == value
      ensures loading == (old(loading) || value != old(sortOrder))
    {
      if value != sortOrder {
        sortOrder := value;
        loading := true;
      }
    }

    /** The start of `handleStatusUpdate`: the order's control is disabled while the request runs. */
    method BeginStatusUpdate(orderId: string)
      modifies this`updatingOrder
      ensures ControlDisabled(orderId)
      ensures forall other :: other != orderId ==> !ControlDisabled(other)
    {
      updatingOrder := Some(orderId);
    }

    /**
      The end of `handleStatusUpdate`: after success a refetch starts (it is
      not awaited); on success and on failure the `finally` clears `updatingOrder`.
     */
    method FinishStatusUpdate(succeeded: bool)
      modifies this`updatingOrder, this`loading
      ensures updatingOrder == None
      ensures forall id :: !ControlDisabled(id)
      ensures loading == (old(loading) || succeeded)
    {
      if succeeded {
        loading := true;
      }
      updatingOrder := None;
    }

    /** `handleStatusUpdate(orderId, newStatus)` run to completion with the request's outcome. */
    method HandleStatusUpdate(orderId: string, succeeded: bool)
      modifies this`updatingOrder, this`loading
      ensures updatingOrder == None
      ensures loading == (old(loading) || succeeded)
    {
      BeginStatusUpdate(orderId);
      FinishStatusUpdate(succeeded);
    }
  }

  /**
    A run of the screen that leaves the last page behind: three pages, Next
    twice, a new user filter (the page stays 3) whose fetch reports one page.
    Next is still enabled there and moves to page 4 of 1; the same events
    with the corrected button leave the screen on page 3.
   */
  method PastTheLastPage() returns (asWritten: OrderScreen, corrected: OrderScreen)
    ensures asWritten.page == 4 && asWritten.totalPages == 1
    ensures corrected.page == 3 && corrected.totalPages == 1
  {
    asWritten := new OrderScreen();
    asWritten.CompleteFetch(Fetched([], 3));
    asWritten.ClickNext();
    asWritten.CompleteFetch(Fetched([], 3));
    asWritten.ClickNext();
    asWritten.CompleteFetch(Fetched([], 3));
    asWritten.ChangeUserId("u1");
    asWritten.CompleteFetch(Fetched([], 1));
    asWritten.ClickNext();

    corrected := new OrderScreen();
    corrected.CompleteFetch(Fetched([], 3));
    corrected.ClickNextCorrected();
    corrected.CompleteFetch(Fetched([], 3));
    corrected.ClickNextCorrected();
    corrected.CompleteFetch(Fetched([], 3));
    corrected.ChangeUserId("u1");
    corrected.CompleteFetch(Fetched([], 1));
    corrected.ClickNextCorrected();
  }
}
