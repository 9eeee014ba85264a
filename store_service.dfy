/**
  The store-scoped service layer: the product, report and order calls. Each
  call checks its arguments, builds one request, and turns the HTTP outcome
  into a resolved value or a rejection; a failed guard rejects (or returns)
  before any request is built. The outcome of the request is a parameter.
 */
module StoreService {
  import opened Js

  const NetworkErrorText := "Network Error"
  const CsvFailureMessage := "An Error occured try again later, or contact administrator"
  const ReportFailureMessage := "An error occurred. Please try again later or contact administrator"
  const UnauthorizedMessage := "Unauthorized: Please login again"

  /** The plain `return response.data` / `throw error` path: the client's error is rethrown unchanged. */
  function Settle(outcome: HttpOutcome): (s: Settled)
    ensures outcome.Ok? <==> s.Resolved?
    ensures outcome.Ok? ==> s.value == outcome.data
    ensures !outcome.Ok? ==> s.error == Rejection(outcome)
  {
    if outcome.Ok? then Resolved(outcome.data) else Rejected(Rejection(outcome))
  }

  // ---------------------------------------------------------------------
  // Products

  /** An integer argument with a destructuring default. */
  function IntOr(v: Option<int>, d: int): int {
    if v.Some? then v.value else d
  }

  datatype Window = Window(page: int, limit: int, skip: int)

  /**
    The pagination `getProducts` sends: `Math.max(1, page)`, `Math.max(1, limit)`
    with defaults 1 and 10, and the number of items on the earlier pages.
   */
  function ProductWindow(page: Option<int>, limit: Option<int>): (w: Window)
    ensures w.page >= 1 && w.limit >= 1 && w.skip >= 0
    ensures w.skip == (w.page - 1) * w.limit
    ensures w.page == (if IntOr(page, 1) >= 1 then IntOr(page, 1) else 1)
    ensures w.limit == (if IntOr(limit, 10) >= 1 then IntOr(limit, 10) else 1)
  {
    var p := if IntOr(page, 1) >= 1 then IntOr(page, 1) else 1;
    var l := if IntOr(limit, 10) >= 1 then IntOr(limit, 10) else 1;
    assert (p - 1) * l >= 0 by {
      assert p - 1 >= 0 && l >= 1;
    }
    Window(p, l, (p - 1) * l)
  }

  /** Consecutive pages are adjacent: page p+1 starts where page p ends. */
  lemma WindowsTile(p: int, limit: Option<int>)
    requires p >= 1
    ensures ProductWindow(Some(p + 1), limit).skip == ProductWindow(Some(p), limit).skip + ProductWindow(Some(p), limit).limit
  {
    var l := ProductWindow(Some(p), limit).limit;
    assert ProductWindow(Some(p + 1), limit).limit == l;
    assert p * l == (p - 1) * l + l;
  }

  /** Different pages of the same size ask for disjoint ranges of items. */
  lemma WindowsDisjoint(p: int, q: int, limit: Option<int>)
    requires 1 <= p < q
    ensures ProductWindow(Some(p), limit).skip + ProductWindow(Some(p), limit).limit <= ProductWindow(Some(q), limit).skip
  {
    var l := ProductWindow(Some(p), limit).limit;
    assert ProductWindow(Some(q), limit).limit == l;
    MulMonotone(p, q - 1, l);
  }

  lemma MulMonotone(a: int, b: int, c: int)
    requires a <= b && c >= 0
    ensures a * c <= b * c
  {
  }

  /** `productService.getProducts({page, limit})`, reading the store id the session holds. */
  function GetProducts(storeId: JsValue, page: Option<int>, limit: Option<int>, outcome: HttpOutcome): (c: Call)
    ensures !Truthy(storeId) ==> c == Call(None, Resolved(Undefined))
    ensures Truthy(storeId) ==> c.settled == Settle(outcome)
    ensures Truthy(storeId) ==> c.sent.Some? && c.sent.value.verb == Get && c.sent.value.path == "/inventory/"
    ensures Truthy(storeId) ==>
      var w := ProductWindow(page, limit);
      c.sent.value.params == map["page" := Num(w.page), "limit" := Num(w.limit), "skip" := Num(w.skip), "storeId" := storeId]
  {
    if !Truthy(storeId) then Call(None, Resolved(Undefined))
    else
      var w := ProductWindow(page, limit);
      Call(Some(Request(Get, "/inventory/",
                        map["page" := Num(w.page), "limit" := Num(w.limit), "skip" := Num(w.skip), "storeId" := storeId],
                        Undefined)),
           Settle(outcome))
  }

  /** `productService.getAllProducts({page, limit})`: the same guard, page and limit forwarded as given. */
  function GetAllProducts(storeId: JsValue, page: Option<int>, limit: Option<int>, outcome: HttpOutcome): (c: Call)
    ensures !Truthy(storeId) ==> c == Call(None, Resolved(Undefined))
    ensures Truthy(storeId) ==> c.settled == Settle(outcome)
    ensures Truthy(storeId) ==> c.sent == Some(Request(Get, "/inventory/product/",
      map["page" := Num(IntOr(page, 1)), "limit" := Num(IntOr(limit, 10)), "storeId" := storeId], Undefined))
  {
    if !Truthy(storeId) then Call(None, Resolved(Undefined))
    else
      Call(Some(Request(Get, "/inventory/product/",
                        map["page" := Num(IntOr(page, 1)), "limit" := Num(IntOr(limit, 10)), "storeId" := storeId],
                        Undefined)),
           Settle(outcome))
  }

  /** For a valid page and limit both product listings send the same page and limit. */
  lemma ListingsAgreeOnValidPages(storeId: JsValue, page: int, limit: int, o1: HttpOutcome, o2: HttpOutcome)
    requires Truthy(storeId) && page >= 1 && limit >= 1
    ensures GetProducts(storeId, Some(page), Some(limit), o1).sent.value.params["page"]
         == GetAllProducts(storeId, Some(page), Some(limit), o2).sent.value.params["page"]
    ensures GetProducts(storeId, Some(page), Some(limit), o1).sent.value.params["limit"]
         == GetAllProducts(storeId, Some(page), Some(limit), o2).sent.value.params["limit"]
  {
  }

  /** `productService.addProduct({storeId, products})`: no guard, the body forwarded. */
  function AddProduct(storeId: JsValue, products: JsValue, outcome: HttpOutcome): (c: Call)
    ensures c.sent == Some(Request(Post, "/inventory/add", map[], Obj(map["storeId" := storeId, "products" := products])))
    ensures c.settled == Settle(outcome)
  {
    Call(Some(Request(Post, "/inventory/add", map[], Obj(map["storeId" := storeId, "products" := products]))),
         Settle(outcome))
  }

  /** The keys of the update body: always the two ids, each optional field only when given. */
  function UpdateBodyKeys(quantity: JsValue, availability: JsValue, threshold: JsValue): (r: set<string>)
    ensures "storeId" in r && "productId" in r
    ensures "quantity" in r <==> quantity != Undefined
    ensures "availability" in r <==> availability != Undefined
    ensures "threshold" in r <==> threshold != Undefined
    ensures r <= {"storeId", "productId", "quantity", "availability", "threshold"}
  {
    {"storeId", "productId"}
    + (if quantity != Undefined then {"quantity"} else {})
    + (if availability != Undefined then {"availability"} else {})
    + (if threshold != Undefined then {"threshold"} else {})
  }

  /**
    `productService.updateProduct`: the body starts with the two ids and gains
    each optional field that is not `undefined` (so `null` and `0` are sent).
   */
  method UpdateProduct(storeId: JsValue, productId: JsValue, quantity: JsValue, availability: JsValue,
                       threshold: JsValue, outcome: HttpOutcome) returns (c: Call)
    ensures c.settled == Settle(outcome)
    ensures c.sent.Some? && c.sent.value.verb == Put && c.sent.value.path == "/inventory/update"
    ensures c.sent.value.params == map[] && c.sent.value.body.Obj?
    ensures c.sent.value.body.props.Keys == UpdateBodyKeys(quantity, availability, threshold)
    ensures Prop(c.sent.value.body, "storeId") == storeId && Prop(c.sent.value.body, "productId") == productId
    ensures Prop(c.sent.value.body, "quantity") == quantity
    ensures Prop(c.sent.value.body, "availability") == availability
    ensures Prop(c.sent.value.body, "threshold") == threshold
  {
    var body := map["storeId" := storeId, "productId" := productId];
    if quantity != Undefined {
      body := body["quantity" := quantity];
    }
    if availability != Undefined {
      body := body["availability" := availability];
    }
    if threshold != Undefined {
      body := body["threshold" := threshold];
    }
    c := Call(Some(Request(Put, "/inventory/update", map[], Obj(body))), Settle(outcome));
  }

  // ---------------------------------------------------------------------
  // Uploads and reports: `error.message.includes('Network Error')` rewrites the message

  /** The `catch` of the upload and report calls. */
  function MapNetworkError(e: JsError, replacement: string): (r: JsError)
    ensures Includes(e.message, NetworkErrorText) ==> r == NewError(replacement)
    ensures !Includes(e.message, NetworkErrorText) ==> r == e
  {
    if Includes(e.message, NetworkErrorText) then NewError(replacement) else e
  }

  /** A guard's message has no capital N, so the `catch` rethrows the guard's error untouched. */
  lemma GuardErrorPassesThrough(message: string, replacement: string)
    requires 'N' !in message
    ensures MapNetworkError(NewError(message), replacement) == NewError(message)
  {
    NotIncludedWithoutFirstChar(message, NetworkErrorText);
  }

  /** A failed guard of the upload and report calls. */
  datatype Guard = CsvStore | UploadStore | UploadDate | DailyStore | DailyDate

  /** The message each guard throws: the missing argument, then the call it belongs to. */
  function GuardMessage(g: Guard): string {
    var store, date := "Store ID is required for ", "Date is required for ";
    match g
    case CsvStore => store + "CSV upload"
    case UploadStore => store + "purchase report upload"
    case UploadDate => date + "purchase report upload"
    case DailyStore => store + "fetching daily report"
    case DailyDate => date + "fetching daily report"
  }

  /** No guard message contains a capital N. */
  lemma GuardMessageLacksN(g: Guard)
    ensures 'N' !in GuardMessage(g)
  {
  }

  /** The HTTP client's connection failure ("Network Error") becomes the administrator message. */
  lemma NetworkFailureIsReplaced(replacement: string)
    ensures MapNetworkError(Rejection(NetworkErr("Network Error")), replacement) == NewError(replacement)
  {
    assert OccursAt("Network Error", NetworkErrorText, 0);
    IncludesMeansOccurs("Network Error", NetworkErrorText);
  }

  /** `productService.uploadCSV(formData, storeId)` */
  function UploadCsv(formData: JsValue, storeId: JsValue, outcome: HttpOutcome): (c: Call)
    ensures !Truthy(storeId) ==> c == Call(None, Rejected(NewError(GuardMessage(CsvStore))))
    ensures Truthy(storeId) ==> c.sent == Some(Request(Post, "/inventory/upload", map["storeId" := storeId], formData))
    ensures Truthy(storeId) && outcome.Ok? ==> c.settled == Resolved(outcome.data)
    ensures Truthy(storeId) && !outcome.Ok? ==> c.settled == Rejected(MapNetworkError(Rejection(outcome), CsvFailureMessage))
  {
    if !Truthy(storeId) then
      GuardMessageLacksN(CsvStore);
      GuardErrorPassesThrough(GuardMessage(CsvStore), CsvFailureMessage);
      Call(None, Rejected(MapNetworkError(NewError(GuardMessage(CsvStore)), CsvFailureMessage)))
    else
      Call(Some(Request(Post, "/inventory/upload", map["storeId" := storeId], formData)),
           if outcome.Ok? then Resolved(outcome.data)
           else Rejected(MapNetworkError(Rejection(outcome), CsvFailureMessage)))
  }

  /** The report calls' guards: the store id first, then the date; `None` when both are given. */
  function ReportGuard(storeId: JsValue, date: JsValue, noStore: string, noDate: string): (r: Option<string>)
    ensures !Truthy(storeId) ==> r == Some(noStore)
    ensures Truthy(storeId) && !Truthy(date) ==> r == Some(noDate)
    ensures r.None? <==> Truthy(storeId) && Truthy(date)
  {
    if !Truthy(storeId) then Some(noStore)
    else if !Truthy(date) then Some(noDate)
    else None
  }

  /** Common shape of the two report calls once the guard and the request are known. */
  function ReportCall(guardFailure: Option<string>, request: Request, outcome: HttpOutcome): (c: Call)
    requires guardFailure.Some? ==> 'N' !in guardFailure.value
    ensures guardFailure.Some? ==> c == Call(None, Rejected(NewError(guardFailure.value)))
    ensures guardFailure.None? ==> c.sent == Some(request)
    ensures guardFailure.None? && outcome.Ok? ==> c.settled == Resolved(outcome.data)
    ensures guardFailure.None? && !outcome.Ok? ==>
      c.settled == Rejected(MapNetworkError(Rejection(outcome), ReportFailureMessage))
  {
    if guardFailure.Some? then
      GuardErrorPassesThrough(guardFailure.value, ReportFailureMessage);
      Call(None, Rejected(MapNetworkError(NewError(guardFailure.value), ReportFailureMessage)))
    else
      Call(Some(request),
           if outcome.Ok? then Resolved(outcome.data)
           else Rejected(MapNetworkError(Rejection(outcome), ReportFailureMessage)))
  }

  /** `reportService.uploadPurchaseReport(formData, storeId, date)` */
  function UploadPurchaseReport(formData: JsValue, storeId: JsValue, date: JsValue, outcome: HttpOutcome): (c: Call)
    ensures !Truthy(storeId) ==>
      c == Call(None, Rejected(NewError(GuardMessage(UploadStore))))
    ensures Truthy(storeId) && !Truthy(date) ==>
      c == Call(None, Rejected(NewError(GuardMessage(UploadDate))))
    ensures Truthy(storeId) && Truthy(date) ==>
      c.sent == Some(Request(Post, "/report/upload-purchase-report", map["storeId" := storeId, "date" := date], formData))
    ensures Truthy(storeId) && Truthy(date) && outcome.Ok? ==> c.settled == Resolved(outcome.data)
    ensures Truthy(storeId) && Truthy(date) && !outcome.Ok? ==>
      c.settled == Rejected(MapNetworkError(Rejection(outcome), ReportFailureMessage))
  {
    GuardMessageLacksN(UploadStore);
    GuardMessageLacksN(UploadDate);
    ReportCall(ReportGuard(storeId, date, GuardMessage(UploadStore),
                           GuardMessage(UploadDate)),
               Request(Post, "/report/upload-purchase-report", map["storeId" := storeId, "date" := date], formData),
               outcome)
  }

  /** `reportService.getDailyReport(storeId, date)` */
  function GetDailyReport(storeId: JsValue, date: JsValue, outcome: HttpOutcome): (c: Call)
    ensures !Truthy(storeId) ==>
      c == Call(None, Rejected(NewError(GuardMessage(DailyStore))))
    ensures Truthy(storeId) && !Truthy(date) ==>
      c == Call(None, Rejected(NewError(GuardMessage(DailyDate))))
    ensures Truthy(storeId) && Truthy(date) ==>
      c.sent == Some(Request(Get, "/report/store-report", map["storeId" := storeId, "date" := date], Undefined))
    ensures Truthy(storeId) && Truthy(date) && outcome.Ok? ==> c.settled == Resolved(outcome.data)
    ensures Truthy(storeId) && Truthy(date) && !outcome.Ok? ==>
      c.settled == Rejected(MapNetworkError(Rejection(outcome), ReportFailureMessage))
  {
    GuardMessageLacksN(DailyStore);
    GuardMessageLacksN(DailyDate);
    ReportCall(ReportGuard(storeId, date, GuardMessage(DailyStore),
                           GuardMessage(DailyDate)),
               Request(Get, "/report/store-report", map["storeId" := storeId, "date" := date], Undefined),
               outcome)
  }

  // ---------------------------------------------------------------------
  // Orders: 400 and 401 responses get their own messages

  /** The `catch` of the order calls. */
  function MapOrderError(e: JsError, fallback: string): (r: JsError)
    ensures HasStatus(e, 400) ==> r == NewError(ServerMessageOr(e.response.value, fallback))
    ensures HasStatus(e, 401) ==> r == NewError(UnauthorizedMessage)
    ensures !HasStatus(e, 400) && !HasStatus(e, 401) ==> r == e
  {
    if HasStatus(e, 400) then NewError(ServerMessageOr(e.response.value, fallback))
    else if HasStatus(e, 401) then NewError(UnauthorizedMessage)
    else e
  }

  /** Errors raised locally carry no response and pass the mapping unchanged; mapping twice is mapping once. */
  lemma OrderErrorMappingStable(e: JsError, fallback: string, fallback': string)
    ensures e.response.None? ==> MapOrderError(e, fallback) == e
    ensures MapOrderError(MapOrderError(e, fallback), fallback') == MapOrderError(e, fallback)
  {
  }

  /** A 400 shows the server's message when it sent a non-empty one, whatever the fallback. */
  lemma BadRequestPrefersServerMessage(message: string, status: string, fallback: string)
    requires message != ""
    ensures MapOrderError(Rejection(HttpErr(400, status, Obj(map["message" := Str(message)]))), fallback).message == message
    ensures MapOrderError(Rejection(HttpErr(400, status, Obj(map[]))), fallback).message == fallback
  {
  }

  /** The query parameters of `getOrders` after defaults; an empty user id is sent as undefined. */
  function OrderQuery(storeId: JsValue, page: JsValue, limit: JsValue, sortBy: JsValue,
                      sortOrder: JsValue, userId: JsValue): (q: map<string, JsValue>)
    ensures q.Keys == {"storeId", "page", "limit", "sortBy", "sortOrder", "userId"}
    ensures q["storeId"] == storeId
    ensures q["page"] == Default(page, Num(1)) && q["limit"] == Default(limit, Num(10))
    ensures q["sortBy"] == Default(sortBy, Str("date")) && q["sortOrder"] == Default(sortOrder, Str("desc"))
    ensures Truthy(userId) ==> q["userId"] == userId
    ensures !Truthy(userId) ==> q["userId"] == Undefined
  {
    map["storeId" := storeId,
        "page" := Default(page, Num(1)),
        "limit" := Default(limit, Num(10)),
        "sortBy" := Default(sortBy, Str("date")),
        "sortOrder" := Default(sortOrder, Str("desc")),
        "userId" := Or(Default(userId, Str("")), Undefined)]
  }

  /** `orderService.getOrders({...})`: resolves with the whole response, not just its data. */
  function GetOrders(storeId: JsValue, page: JsValue, limit: JsValue, sortBy: JsValue, sortOrder: JsValue,
                     userId: JsValue, outcome: HttpOutcome): (c: Call)
    ensures !Truthy(storeId) ==> c == Call(None, Rejected(NewError("Store ID is required")))
    ensures Truthy(storeId) ==>
      c.sent == Some(Request(Get, "/inventory/order/", OrderQuery(storeId, page, limit, sortBy, sortOrder, userId), Undefined))
    ensures Truthy(storeId) && outcome.Ok? && !Truthy(outcome.data) ==>
      c.settled == Rejected(NewError("Invalid response from server"))
    ensures Truthy(storeId) && outcome.Ok? && Truthy(outcome.data) ==>
      c.settled == Resolved(ResponseObject(outcome.data))
    ensures Truthy(storeId) && !outcome.Ok? ==>
      c.settled == Rejected(MapOrderError(Rejection(outcome), "Invalid request parameters"))
  {
    if !Truthy(storeId) then
      Call(None, Rejected(MapOrderError(NewError("Store ID is required"), "Invalid request parameters")))
    else
      Call(Some(Request(Get, "/inventory/order/", OrderQuery(storeId, page, limit, sortBy, sortOrder, userId), Undefined)),
           match outcome
           case Ok(data) =>
             if !Truthy(data) then Rejected(MapOrderError(NewError("Invalid response from server"), "Invalid request parameters"))
             else Resolved(ResponseObject(data))
           case _ => Rejected(MapOrderError(Rejection(outcome), "Invalid request parameters")))
  }

  /** `orderService.updateOrder({orderId, storeId, newStatus})` */
  function UpdateOrder(orderId: JsValue, storeId: JsValue, newStatus: JsValue, outcome: HttpOutcome): (c: Call)
    ensures !(Truthy(orderId) && Truthy(storeId) && Truthy(newStatus)) ==>
      c == Call(None, Rejected(NewError("Order ID, Store ID, and newStatus are required")))
    ensures Truthy(orderId) && Truthy(storeId) && Truthy(newStatus) ==>
      c.sent == Some(Request(Put, "/inventory/order/update", map[],
                             Obj(map["orderId" := orderId, "storeId" := storeId, "newStatus" := newStatus])))
    ensures Truthy(orderId) && Truthy(storeId) && Truthy(newStatus) && outcome.Ok? ==>
      c.settled == Resolved(outcome.data)
    ensures Truthy(orderId) && Truthy(storeId) && Truthy(newStatus) && !outcome.Ok? ==>
      c.settled == Rejected(MapOrderError(Rejection(outcome), "Invalid order data"))
  {
    if !Truthy(orderId) || !Truthy(storeId) || !Truthy(newStatus) then
      Call(None, Rejected(MapOrderError(NewError("Order ID, Store ID, and newStatus are required"), "Invalid order data")))
    else
      Call(Some(Request(Put, "/inventory/order/update", map[],
                        Obj(map["orderId" := orderId, "storeId" := storeId, "newStatus" := newStatus]))),
           if outcome.Ok? then Resolved(outcome.data)
           else Rejected(MapOrderError(Rejection(outcome), "Invalid order data")))
  }

  /**
    If the order screen's `orderService` were this layer's (as the store
    order screen imports it), its call `updateOrder({ orderId, status: newStatus })`
    would carry no `storeId` and no `newStatus` key, so the guard would reject
    every such call before a request is made.
   */
  lemma ScreenStatusUpdateIsRejected(orderId: JsValue, outcome: HttpOutcome)
    ensures UpdateOrder(orderId, Undefined, Undefined, outcome)
         == Call(None, Rejected(NewError("Order ID, Store ID, and newStatus are required")))
  {
  }
}
