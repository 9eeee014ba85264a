# Order screen and admin services of the grocery admin console

This Dafny project models the logic core of a grocery-delivery admin
console. The console is a Next.js application. The model covers three parts:

- **The superadmin order screen** (`components/OrderManagement.jsx`). This part covers:
  - the fixed order-status transition table (`placed → shipped → delivered`, with `cancelled` reachable from each of them and terminal) and its lookup;
  - the status-change control built from the table;
  - the amounts shown for an order;
  - the view state the handlers change: the expanded row, the page with its Previous/Next buttons, the order whose status update is in flight, and the result of a fetch.

  The view state is the class `OrderScreen.OrderScreen`.
- **The store service layer** (`services/storeservice.jsx`). This part covers:
  - the product calls: the page/limit clamp, `skip`, and the update body that carries only the fields given;
  - the CSV and report uploads, with their guards and the "Network Error" rewrite;
  - the order calls, with their guards and the 400/401 mapping.
- **The superadmin user service** (`services/superservice.jsx`). This part covers:
  - the checks `createUser` runs before it sends, in their fixed order;
  - the id guards of `updateUser` and `deleteUser`;
  - the 401/400 mapping every user call shares.

Every HTTP request is replaced by a parameter `outcome: HttpOutcome`:
success with a body, an HTTP error with a status and a body, or a network
failure. A service function is a function from its arguments and that outcome
to a `Call`. A `Call` records the request that was sent (if any) and whether
the promise resolved or rejected, with which value or `Error`.

The JavaScript semantics the code relies on live in module `Js` (`js.dfy`):
- truthiness of `!x`, `x || y`, destructuring defaults;
- `String(x)`, decimal rendering, `String.prototype.includes`;
- `Error` objects with an optional `response`.

Amounts and page numbers are integers.

Files:
- `js.dfy`: JavaScript values, truthiness, strings, errors, the HTTP boundary.
- `order_status.dfy`: the transition table, its lookup, the status control, the amounts.
- `order_screen.dfy`: the Previous/Next rules and the class holding the screen's state.
- `store_service.dfy`: `productService`, `reportService` and `orderService` of the store layer.
- `super_service.dfy`: `userService`.

Three places where the code does something a reader might not expect:
- The screen imports `orderService` from `services/superservice.jsx`, and that file exports only `userService`. How that is treated depends on the bundler: strict ES-module linking rejects the missing named export, and webpack binds it to `undefined` with a warning, so that each fetch and each status update fails with a `TypeError` before any service code runs. The screen model does not depend on which service answers: a fetch result and an update's success are parameters.
- Even wired to the store layer's `orderService` (as the store order screen, `app/(store)/components/StoreOrderManagement.jsx`, imports it), the screen's `handleStatusUpdate` sends `{ orderId, status: newStatus }`. The store layer's `updateOrder` requires `orderId`, `storeId` and `newStatus`, so every such update would be rejected before any request is made. `StoreService.ScreenStatusUpdateIsRejected` states this. The store layer's `getOrders` would reject the screen's fetches too, because the screen passes no `storeId` (components/OrderManagement.jsx:56-62 against services/storeservice.jsx:321). So, as the repository stands, no fetch of this screen succeeds.
- Toggling the same row twice restores the earlier state only when no *other* row was expanded before. When another row was expanded, the first toggle collapses it; the second toggle collapses the row just opened, so the other row stays collapsed. `OrderScreen.ToggleTwice` states the exact behaviour, including both directions of "restores".

The class keeps Next as the source writes it (`OrderScreen.OrderScreen.ClickNext`) and, beside it, the corrected button (`OrderScreen.OrderScreen.ClickNextCorrected`); see "## Findings".

## Model

| member | source | states |
|---|---|---|
| Js.Or | services/storeservice.jsx:334 | `a \|\| b` is `a` when `a` is truthy and `b` otherwise |
| Js.Default | services/storeservice.jsx:319 | a destructuring default applies exactly when the argument is `undefined` (so `null`, `0` and `''` are kept) |
| Js.NatToDecimal | services/superservice.jsx:80 | the rendering of `${index + 1}` is a non-empty string of digits without a leading zero |
| Js.IntToDecimal | services/superservice.jsx:73 | `String(n)` of an integer is non-empty and starts with `-` exactly when `n` is negative |
| Js.DecimalRoundTrip | services/superservice.jsx:80 | reading back the decimal rendering of a number gives the number |
| Js.DecimalInjective | services/superservice.jsx:80 | distinct numbers render as distinct digit strings |
| Js.DecimalLength | services/superservice.jsx:73 | a positive number has k decimal digits exactly when it lies in [10^(k-1), 10^k) |
| Js.DecimalLengthIs | services/superservice.jsx:73 | a number renders with exactly k digits iff it is a one-digit number (k = 1) or lies in [10^(k-1), 10^k) |
| Js.Truthy | services/storeservice.jsx:79 | a value is falsy (`!v` holds) exactly for `undefined`, `null`, `false`, `0` and `''`; arrays and objects are truthy |
| Js.ToStr | services/superservice.jsx:73 | `String(v)` for the modelled values, numbers written out as exact integers in plain digits |
| Js.Includes | services/storeservice.jsx:219 | `s.includes(sub)`: only a string at least as long as `sub` includes it, and every string includes `''` |
| Js.IncludesMeansOccurs | services/storeservice.jsx:219 | `s.includes(sub)` holds exactly when `sub` occurs in `s` at some offset |
| Js.NotIncludedWithoutFirstChar | services/storeservice.jsx:219 | a string lacking the first character of `sub` does not include `sub` |
| Js.ServerMessageOr | services/storeservice.jsx:346 | `error.response.data.message \|\| fallback` is the server's message when it is truthy and the fallback otherwise |
| Js.Rejection | services/storeservice.jsx:61-69 | the error of a failed request carries the response (status and body) for an HTTP error, none for a network failure, and the client's message |
| Js.ResponseObject | services/storeservice.jsx:342 | the resolved response object holds the body under `data` |
| OrderStatus.StatusFlow | components/OrderManagement.jsx:36-41 | the transition table; every successor a status lists lies further along the lifecycle |
| OrderStatus.ParseStatus | components/OrderManagement.jsx:36-41 | a string names a status exactly when it is one of the table's four keys, and then that status is spelled as the string |
| OrderStatus.ParseName | components/OrderManagement.jsx:36-41 | each status's spelling parses back to that status |
| OrderStatus.Names | components/OrderManagement.jsx:37-40 | the spelled list has the same length and entries, position by position |
| OrderStatus.GetAvailableStatuses | components/OrderManagement.jsx:89-91 | an unknown status gets the empty list; a known status gets its table entry; no listed status is the current one, and every listed status is a table key |
| OrderStatus.AvailableStatusesEntries | components/OrderManagement.jsx:36-41 | the lookup returns exactly `[shipped, cancelled]`, `[delivered, cancelled]`, `[cancelled]` and `[]` for the four statuses |
| OrderStatus.NoSelfTransition | components/OrderManagement.jsx:36-41 | no status lists itself as a successor |
| OrderStatus.CancelledIsTheTerminal | components/OrderManagement.jsx:36-41 | a status has no successors iff it is `cancelled`, and each other status can move to `cancelled` directly |
| OrderStatus.PathRankIncreases | components/OrderManagement.jsx:36-41 | along any walk through the table the lifecycle position rises by at least one per step |
| OrderStatus.NoCycle | components/OrderManagement.jsx:36-41 | a walk of two or more statuses never ends where it started |
| OrderStatus.PathsAreShort | components/OrderManagement.jsx:36-41 | no walk through the table has more than four statuses, and a walk of four ends in a status without successors |
| OrderStatus.ReachableFromPlaced | components/OrderManagement.jsx:36-41 | every status is reachable from `placed` by a walk through the table |
| OrderStatus.StatusControl | components/OrderManagement.jsx:224-239 | the control is rendered iff the available list is non-empty, and then offers exactly that list |
| OrderStatus.OfferedChoicesAreTransitions | components/OrderManagement.jsx:224-239 | every choice the control offers is a table key and a successor of the order's current status |
| OrderStatus.NoControlWhenTerminal | components/OrderManagement.jsx:224 | a `cancelled` order, or one with a status the table does not know, gets no control |
| OrderStatus.Discount | components/OrderManagement.jsx:308 | `order.appliedCoupon?.discountAmount \|\| 0`: the coupon's discount, 0 without a coupon or without an amount |
| OrderStatus.RowAmount | components/OrderManagement.jsx:213 | the row's Total column, subtotal plus shipping |
| OrderStatus.GrandTotal | components/OrderManagement.jsx:308 | the Total line of the price breakdown |
| OrderStatus.GrandTotalIsRowAmountLessDiscount | components/OrderManagement.jsx:308 | the breakdown's total is the row amount (subtotal plus shipping) less the coupon discount; it equals the row amount without a coupon and never exceeds it for a non-negative discount |
| OrderStatus.AvailableStatusesAsWritten | components/OrderManagement.jsx:90 | on the table's keys, `statusFlow[s] \|\| []` yields the table entry |
| OrderStatus.ControlShownAsWritten | components/OrderManagement.jsx:224 | the source's render condition `getAvailableStatuses(order.status).length > 0` on the value the written lookup yields |
| OrderStatus.InheritedNameEscapesTable | components/OrderManagement.jsx:89-91 | as written, the status string `constructor` yields the inherited `Object` function, which passes the length test, so the control is rendered; the own-key lookup yields `[]` and no control |
| OrderStatus.LookupsAgreeOffPrototype | components/OrderManagement.jsx:89-91 | for any status string that is not an inherited member name, the written lookup and the own-key lookup agree, and so do the two rendering conditions |
| OrderScreen.Toggled | components/OrderManagement.jsx:125-127 | toggling the expanded row collapses it; toggling any other row expands that row |
| OrderScreen.ToggleTwice | components/OrderManagement.jsx:125-127 | toggling one row twice leaves that row as it was and every other row collapsed; it restores the earlier state iff no other row was expanded |
| OrderScreen.ToggleCollapsesOthers | components/OrderManagement.jsx:125-127 | after a toggle, no row except the toggled one is expanded |
| OrderScreen.PreviousDisabled | components/OrderManagement.jsx:327 | Previous is disabled on page 1 and while loading |
| OrderScreen.NextDisabledAsWritten | components/OrderManagement.jsx:340 | Next as written: disabled on page `totalPages` and while loading |
| OrderScreen.NextDisabled | components/OrderManagement.jsx:340 | Next corrected: disabled on the last page, on any page past it, and while loading |
| OrderScreen.PreviousStaysOnFirstPage | components/OrderManagement.jsx:326-327 | an enabled Previous never leads below page 1 |
| OrderScreen.NextStaysOnLastPage | components/OrderManagement.jsx:339-340 | with the corrected rule, an enabled Next never leads past the last page |
| OrderScreen.NextRulesAgreeInRange | components/OrderManagement.jsx:340 | while the page is at most the number of pages, the written and the corrected Next rules agree |
| OrderScreen.NextEscapesAsWritten | components/OrderManagement.jsx:340 | on any page past the last one, Next as written is enabled (outside loading) and the corrected rule disables it |
| OrderScreen.OrderScreen.ControlDisabled | components/OrderManagement.jsx:227 | an order's status control is disabled exactly while its update is the one in flight |
| OrderScreen.OrderScreen.constructor | components/OrderManagement.jsx:44-51 | the initial state: no orders, loading, page 1 of 1, newest first, no filter, no update in flight, no row expanded |
| OrderScreen.OrderScreen.CompleteFetch | components/OrderManagement.jsx:63-69 | a fetch stores the orders and the page count it delivers; a failed fetch keeps both; either way loading ends |
| OrderScreen.OrderScreen.ToggleExpand | components/OrderManagement.jsx:125-127 | the expanded row becomes the toggle of the previous one |
| OrderScreen.OrderScreen.HandlePageChange | components/OrderManagement.jsx:129-132 | the page becomes the new page and loading starts |
| OrderScreen.OrderScreen.ClickPrevious | components/OrderManagement.jsx:326-327 | a disabled Previous changes nothing; an enabled one moves one page back and starts loading; the page stays at least 1 and stays within range |
| OrderScreen.OrderScreen.ClickNext | components/OrderManagement.jsx:339-340 | with the source's rule: a disabled Next changes nothing; an enabled one moves one page on and starts loading; a page within range stays within range |
| OrderScreen.OrderScreen.ClickNextCorrected | components/OrderManagement.jsx:339-340 | with the corrected rule: as `ClickNext`, and in addition the page never moves past the last page from any state |
| OrderScreen.PastTheLastPage | components/OrderManagement.jsx:72-74 | a reachable run (three pages, Next twice, a new user filter whose fetch reports one page) after which the source's Next moves to page 4 of 1 while the corrected Next stays on page 3 |
| OrderScreen.OrderScreen.ChangeUserId | components/OrderManagement.jsx:139-144 | the filter takes the typed value, and a refetch starts exactly when the value changed |
| OrderScreen.OrderScreen.ChangeSortOrder | components/OrderManagement.jsx:145 | the sort order takes the chosen value, and a refetch starts exactly when it changed |
| OrderScreen.OrderScreen.BeginStatusUpdate | components/OrderManagement.jsx:78 | while an update runs, that order's control is disabled and every other order's control is enabled |
| OrderScreen.OrderScreen.FinishStatusUpdate | components/OrderManagement.jsx:81-85 | after success or failure no order is marked updating; a refetch starts only after success |
| OrderScreen.OrderScreen.HandleStatusUpdate | components/OrderManagement.jsx:76-87 | the whole handler ends with no order marked updating, and starts a refetch exactly when the update succeeded |
| StoreService.Settle | services/storeservice.jsx:112-119 | a call resolves with the response body on success and rethrows the client's error unchanged on failure |
| StoreService.ProductWindow | services/storeservice.jsx:86-100 | page and limit default to 1 and 10 and are clamped to at least 1; `skip` is `(page-1)*limit`, never negative |
| StoreService.WindowsTile | services/storeservice.jsx:100 | page p+1 starts at the item where page p ends |
| StoreService.WindowsDisjoint | services/storeservice.jsx:100 | different pages of one size ask for disjoint ranges of items |
| StoreService.GetProducts | services/storeservice.jsx:75-121 | a missing store id resolves with `undefined` and sends nothing; otherwise one GET with the clamped page, limit, skip and the store id, settled as the client answers |
| StoreService.GetAllProducts | services/storeservice.jsx:123-152 | a missing store id resolves with `undefined` and sends nothing; otherwise one GET with page and limit as given (after defaults) and the store id |
| StoreService.ListingsAgreeOnValidPages | services/storeservice.jsx:86-137 | for a page and limit of at least 1, both listings send the same page and limit |
| StoreService.AddProduct | services/storeservice.jsx:154-171 | one POST whose body is exactly the store id and the products |
| StoreService.UpdateBodyKeys | services/storeservice.jsx:178-181 | the update body's keys: always the two ids, each optional field exactly when it is not `undefined`, and nothing else |
| StoreService.UpdateProduct | services/storeservice.jsx:173-194 | one PUT whose body always holds the two ids and holds each optional field exactly when it is not `undefined`, with the value given |
| StoreService.MapNetworkError | services/storeservice.jsx:219-222 | an error whose message includes "Network Error" is replaced by the given message; any other is rethrown unchanged |
| StoreService.GuardErrorPassesThrough | services/storeservice.jsx:196-224 | a guard error, whose message has no capital N, passes the catch unchanged |
| StoreService.GuardMessage | services/storeservice.jsx:200-294 | the message each upload and report guard throws: "Store ID is required for …" or "Date is required for …", naming the call |
| StoreService.GuardMessageLacksN | services/storeservice.jsx:200-294 | none of the five guard messages of the upload and report calls contains a capital N |
| StoreService.NetworkFailureIsReplaced | services/storeservice.jsx:219-220 | the client's connection failure is reported as the administrator message |
| StoreService.UploadCsv | services/storeservice.jsx:196-224 | a missing store id rejects with "Store ID is required for CSV upload" and sends nothing; otherwise one POST with the form data and the store id, whose network failures become the administrator message |
| StoreService.ReportGuard | services/storeservice.jsx:234-242 | the store id is checked before the date; each missing argument yields its own message; no message iff both are given |
| StoreService.ReportCall | services/storeservice.jsx:230-263 | a guard failure rejects with the guard's own message and sends nothing; otherwise the request is sent and a failure passes the network rewrite |
| StoreService.UploadPurchaseReport | services/storeservice.jsx:230-263 | a missing store id, then a missing date, each reject with their own message before any request; otherwise one POST with the form data, store id and date, resolving with the response body or passing a failure through the network rewrite |
| StoreService.GetDailyReport | services/storeservice.jsx:283-314 | a missing store id, then a missing date, each reject with their own message before any request; otherwise one GET with store id and date, resolving with the response body or passing a failure through the network rewrite |
| StoreService.MapOrderError | services/storeservice.jsx:343-351 | 400 becomes the server's message or the default, 401 becomes "Unauthorized: Please login again", anything else is rethrown unchanged |
| StoreService.OrderErrorMappingStable | services/storeservice.jsx:343-351 | locally raised errors pass the mapping unchanged, and mapping an already mapped error changes nothing |
| StoreService.BadRequestPrefersServerMessage | services/storeservice.jsx:345-346 | a 400 shows the server's non-empty message whatever the default, and the default when the body has no message |
| StoreService.OrderQuery | services/storeservice.jsx:319-336 | the query holds exactly the six keys with their defaults; an empty or missing user id is sent as `undefined` |
| StoreService.GetOrders | services/storeservice.jsx:319-352 | a missing store id rejects before any request; otherwise one GET with the query; a response without data rejects with "Invalid response from server"; success resolves with the whole response; failures pass the order mapping |
| StoreService.UpdateOrder | services/storeservice.jsx:354-376 | unless order id, store id and new status are all given it rejects before any request; otherwise one PUT with exactly those three fields |
| StoreService.ScreenStatusUpdateIsRejected | components/OrderManagement.jsx:79 | were the screen wired to this layer's `orderService`, its call `updateOrder({ orderId, status })` would always be rejected by the guard and never send a request |
| SuperService.MapUserError | services/superservice.jsx:103-109 | 401 becomes "Unauthorized: Invalid or expired token" (checked first), 400 the server's message or the default, anything else is rethrown unchanged |
| SuperService.UserErrorMappingStable | services/superservice.jsx:103-109 | validation errors, which carry no response, pass the mapping unchanged; mapping twice is mapping once |
| SuperService.SettleUser | services/superservice.jsx:94-109 | a sent call resolves with the response body, or rejects with the mapped error |
| SuperService.AddressComplete | services/superservice.jsx:79 | an address is complete when `flatno`, `street`, `city`, `state` and `pincode` are all truthy |
| SuperService.PhoneAccepted | services/superservice.jsx:73 | `/^\d{10}$/.test(phone)`: `String(phone)` is exactly ten ASCII digits |
| SuperService.FirstIncompleteAddress | services/superservice.jsx:78-82 | the 1-based number of the first address missing a field, with every earlier address complete; none iff every address is complete |
| SuperService.NumericPhoneAccepted | services/superservice.jsx:73 | a numeric phone passes the ten-digit test iff it lies between 1000000000 and 9999999999 |
| SuperService.InvalidMessage | services/superservice.jsx:69-80 | the message thrown for each validation failure, the address one naming its 1-based number |
| SuperService.AddressMessageNamesPosition | services/superservice.jsx:80 | two address messages are equal only for the same address number |
| SuperService.ValidateNewUser | services/superservice.jsx:68-82 | the required fields are checked first, then the phone, then the addresses in order; only the first failure is reported |
| SuperService.AcceptedUserIsValid | services/superservice.jsx:68-82 | accepted input has truthy name, email and phone, at least one address, a ten-digit phone and only complete addresses |
| SuperService.AddressErrorNamesFirstIncomplete | services/superservice.jsx:78-82 | an address error names an address that exists and is incomplete, and every address before it is complete |
| SuperService.AddressErrorMessageDetermines | services/superservice.jsx:80 | an address error's message alone determines which address it names |
| SuperService.CreateUser | services/superservice.jsx:65-111 | invalid input rejects with its validation message before any request; valid input sends one POST of the four fields, settled through the user mapping |
| SuperService.CreateBody | services/superservice.jsx:86-91 | the create request's body of the four given fields |
| SuperService.CreateBodyExact | services/superservice.jsx:86-91 | the create body holds exactly `name`, `email`, `phone` and `addresses`, each as given |
| SuperService.GetUsers | services/superservice.jsx:113-138 | one GET with role, page and limit after their defaults, settled through the user mapping |
| SuperService.UpdateUser | services/superservice.jsx:140-171 | a missing id rejects with "User ID is required" before any request; otherwise one PUT of id and data |
| SuperService.DeleteUser | services/superservice.jsx:173-203 | a missing id rejects with "User ID is required" before any request; otherwise one DELETE whose body is the id |

## Left out

- The axios instances and interceptors. This covers cookie reads, the bearer-token and store-id headers, the timeout and logging (services/storeservice.jsx:7-71, services/superservice.jsx:6-62). The model treats the client as a source of outcomes.
- `authService.getStoreId()` reads a cookie. Its value is a parameter of `StoreService.GetProducts` and `StoreService.GetAllProducts`.
- Concurrency and `async` ordering are not modelled. Each request is an atomic outcome. For the screen, a request's start and its completion are separate method calls.
  - The model does not capture stale responses that arrive out of order.
  - It does not capture the case of two status updates in flight at once: the first `finally` clears `updatingOrder` while the second update is still running.
- `reportService.downloadTemplate` manipulates the DOM and has no logic to model.
- JSX rendering is left out, except for the conditions that decide what is rendered. Date formatting, toasts, badges and the loading spinners are left out too.
- Currency amounts are integers (the smallest unit). The floating-point sums and `price * quantity` are not modelled.
- `parseInt` and `NaN`: page and limit are integers or absent, so `Math.max(1, parseInt(x))` is a clamp of an integer.
- JavaScript numbers are integers only; fractions, `NaN` and infinities are left out.
- Js.ToStr: numbers are treated as exact integers with no bound and written in plain digits; the loss of precision past 2^53 and the exponent form `String` uses from 10^21 (`"1e+21"`) are not modelled.
- Calls without an argument object: `addProduct`, `updateProduct` and `updateOrder` (services/storeservice.jsx:154, 173, 354) and `createUser`, `updateUser` and `deleteUser` (services/superservice.jsx:65, 140, 173) destructure their argument with no `= {}` default, so a call with no argument rejects with a `TypeError` before any guard runs. The model takes the fields directly and does not capture this path. `String` of an array element that is itself an object with a custom `toString` is left out too.
- A `TypeError` in the source is not modelled as a crash in these places:
  - `error.response.data.message` on a 400 response whose body is `null` or `undefined` is treated as a body without a message;
  - `address.flatno` on a `null` address, and `addresses.forEach` on a non-array `addresses` (each address is a map of its own properties).
- `SuperService.ValidateNewUser`: `addresses.length` is modelled only for arrays and for an absent value, and a string or other object with a `length` property is not considered.
- `OrderScreen.OrderScreen.HandleStatusUpdate`: the request's arguments and the service that answers it are not modelled; its success is a parameter. So the model does not capture the `TypeError` the undefined `orderService` raises as written.
- `OrderScreen.OrderScreen.CompleteFetch`: the screen reads `response.orders` and `response.totalPages` from the service's result. The model takes the delivered orders and page count directly and does not model which layer unwraps the response.
- The store layer's client-side product filter and sort, and the other screens of the application, are not part of this model.

## Findings

| source | as written | input that shows it | evidently intended | confidence | as-written member | corrected member |
|---|---|---|---|---|---|---|
| components/OrderManagement.jsx:340 | Next is disabled only when `page === totalPages` | with an order service that answers the screen's fetches: page 3 with a fetch that reports 1 page (a changed user filter keeps the page), or page 1 with a fetch that reports 0 pages: Next stays enabled and each click moves further past the last page | Next disabled on the last page and on any page past it (`page >= totalPages`) | high; derived from the code, not executed | OrderScreen.PastTheLastPage | OrderScreen.OrderScreen.ClickNextCorrected |
| components/OrderManagement.jsx:90 | `statusFlow[currentStatus] \|\| []` also finds members inherited from `Object.prototype` | an order whose status is `constructor`: the lookup yields the `Object` function, whose `length` is 1, so the control is rendered and `.map` is then called on a function | only the table's own keys are looked up, and any other status gets `[]` | medium; derived from the code, not executed | OrderStatus.InheritedNameEscapesTable | OrderStatus.GetAvailableStatuses |
