/**
  The order-status state machine of the superadmin order screen: the fixed
  transition table, its lookup by the status string an order carries, the
  status-change control built from it, and the amounts shown for an order.
 */
module OrderStatus {
  import opened Js

  datatype Status = Placed | Shipped | Delivered | Cancelled

  /** The status as the backend and the table spell it. */
  function Name(s: Status): string {
    match s
    case Placed => "placed"
    case Shipped => "shipped"
    case Delivered => "delivered"
    case Cancelled => "cancelled"
  }

  /** The keys of the transition table. */
  const StatusNames: set<string> := {"placed", "shipped", "delivered", "cancelled"}

  /** The status a string names, if it is one of the table's keys. */
  function ParseStatus(name: string): (r: Option<Status>)
    ensures r.Some? <==> name in StatusNames
    ensures r.Some? ==> Name(r.value) == name
  {
    if name == "placed" then Some(Placed)
    else if name == "shipped" then Some(Shipped)
    else if name == "delivered" then Some(Delivered)
    else if name == "cancelled" then Some(Cancelled)
    else None
  }

  lemma ParseName(s: Status)
    ensures ParseStatus(Name(s)) == Some(s)
  {
  }

  /** The transition table: the statuses an order may move to next, each further along the lifecycle. */
  function StatusFlow(s: Status): (r: seq<Status>)
    ensures forall t :: t in r ==> Rank(s) < Rank(t)
  {
    match s
    case Placed => [Shipped, Cancelled]
    case Shipped => [Delivered, Cancelled]
    case Delivered => [Cancelled]
    case Cancelled => []
  }

  function Names(ss: seq<Status>): (r: seq<string>)
    ensures |r| == |ss|
    ensures forall i :: 0 <= i < |ss| ==> r[i] == Name(ss[i])
  {
    if ss == [] then [] else [Name(ss[0])] + Names(ss[1..])
  }

  /**
    `getAvailableStatuses(currentStatus)`: the table entry for a status the
    table knows and the empty list for any other string. The lookup consults
    only the table's own keys (see `AvailableStatusesAsWritten` for the
    source's `statusFlow[currentStatus] || []`).
   */
  function GetAvailableStatuses(current: string): (r: seq<string>)
    ensures current !in StatusNames ==> r == []
    ensures current in StatusNames ==> r == Names(StatusFlow(ParseStatus(current).value))
    ensures forall x :: x in r ==> x in StatusNames && x != current
  {
    match ParseStatus(current)
    case None => []
    case Some(s) => Names(StatusFlow(s))
  }

  /** The table exactly, entry by entry. */
  lemma AvailableStatusesEntries()
    ensures GetAvailableStatuses("placed") == ["shipped", "cancelled"]
    ensures GetAvailableStatuses("shipped") == ["delivered", "cancelled"]
    ensures GetAvailableStatuses("delivered") == ["cancelled"]
    ensures GetAvailableStatuses("cancelled") == []
  {
    assert Names(StatusFlow(Placed)) == ["shipped", "cancelled"];
    assert Names(StatusFlow(Shipped)) == ["delivered", "cancelled"];
    assert Names(StatusFlow(Delivered)) == ["cancelled"];
  }

  /** No status lists itself as a successor. */
  lemma NoSelfTransition(s: Status)
    ensures s !in StatusFlow(s)
  {
  }

  /** `cancelled` is the only status without successors, and every other status can move to it directly. */
  lemma CancelledIsTheTerminal(s: Status)
    ensures StatusFlow(s) == [] <==> s == Cancelled
    ensures s != Cancelled ==> Cancelled in StatusFlow(s)
  {
  }

  /** A walk through the table: each status is a successor of the one before it. */
  ghost predicate IsPath(p: seq<Status>) {
    forall i :: 0 <= i < |p| - 1 ==> p[i + 1] in StatusFlow(p[i])
  }

  /** Position along the lifecycle; every transition goes strictly forward. */
  function Rank(s: Status): nat {
    match s
    case Placed => 0
    case Shipped => 1
    case Delivered => 2
    case Cancelled => 3
  }

  lemma {:induction false} PathRankIncreases(p: seq<Status>)
    requires IsPath(p) && |p| >= 2
    ensures Rank(p[0]) + |p| - 1 <= Rank(p[|p| - 1])
  {
    assert p[1] in StatusFlow(p[0]);
    if |p| > 2 {
      assert IsPath(p[1..]);
      PathRankIncreases(p[1..]);
    }
  }

  /** The table has no cycle: a non-trivial walk never returns to where it started. */
  lemma NoCycle(p: seq<Status>)
    requires IsPath(p) && |p| >= 2
    ensures p[0] != p[|p| - 1]
  {
    PathRankIncreases(p);
  }

  /** Every walk has at most four statuses, and one of four ends in a status with no way forward. */
  lemma PathsAreShort(p: seq<Status>)
    requires IsPath(p) && |p| >= 2
    ensures |p| <= 4
    ensures |p| == 4 ==> StatusFlow(p[3]) == []
  {
    PathRankIncreases(p);
  }

  /** Every status is reachable from `placed`, the status a new order starts in. */
  lemma ReachableFromPlaced(s: Status)
    ensures exists p :: IsPath(p) && |p| >= 1 && p[0] == Placed && p[|p| - 1] == s
  {
    var p := match s
      case Placed => [Placed]
      case Shipped => [Placed, Shipped]
      case Delivered => [Placed, Shipped, Delivered]
      case Cancelled => [Placed, Cancelled];
    assert IsPath(p);
  }

  /**
    The status-change control of one order row: present only when the order
    has somewhere to go, and then offering exactly the available statuses.
   */
  function StatusControl(current: string): (r: Option<seq<string>>)
    ensures r.Some? <==> |GetAvailableStatuses(current)| > 0
    ensures r.Some? ==> r.value == GetAvailableStatuses(current)
  {
    var choices := GetAvailableStatuses(current);
    if |choices| > 0 then Some(choices) else None
  }

  /** Whatever the control offers is a transition of the table. */
  lemma OfferedChoicesAreTransitions(current: string, choice: string)
    requires StatusControl(current).Some? && choice in StatusControl(current).value
    ensures current in StatusNames && choice in StatusNames
    ensures ParseStatus(choice).value in StatusFlow(ParseStatus(current).value)
  {
    var ss := StatusFlow(ParseStatus(current).value);
    var i :| 0 <= i < |ss| && Names(ss)[i] == choice;
    ParseName(ss[i]);
  }

  /** Terminal orders (`cancelled`) and unknown statuses get no control. */
  lemma NoControlWhenTerminal(current: string)
    requires current == "cancelled" || current !in StatusNames
    ensures StatusControl(current).None?
  {
  }

  // ---------------------------------------------------------------------
  // Amounts (integers in the smallest currency unit)

  /** An applied coupon; `None` stands for a missing `discountAmount`. */
  datatype Coupon = Coupon(discountAmount: Option<int>)

  /** An order as the screen receives it; only the fields the screen computes with. */
  datatype Order = Order(
    id: string,           // `_id`, the key of the expanded row
    orderId: string,      // the key of the update request
    status: string,
    totalAmount: int,
    shippingAmount: int,
    appliedCoupon: Option<Coupon>)

  /** `order.appliedCoupon?.discountAmount || 0` */
  function Discount(o: Order): int {
    match o.appliedCoupon
    case None => 0
    case Some(c) => match c.discountAmount case None => 0 case Some(d) => d
  }

  /** The amount in the row's Total column: subtotal plus shipping. */
  function RowAmount(o: Order): int {
    o.totalAmount + o.shippingAmount
  }

  /** The Total line of the price breakdown. */
  function GrandTotal(o: Order): int {
    o.totalAmount + o.shippingAmount - Discount(o)
  }

  /**
    The breakdown is consistent: the total is the row amount less the coupon
    discount, equals the row amount when no coupon applies, and never exceeds
    it for a non-negative discount.
   */
  lemma GrandTotalIsRowAmountLessDiscount(o: Order)
    ensures GrandTotal(o) == RowAmount(o) - Discount(o)
    ensures o.appliedCoupon.None? ==> GrandTotal(o) == RowAmount(o)
    ensures Discount(o) >= 0 ==> GrandTotal(o) <= RowAmount(o)
  {
  }

  // ---------------------------------------------------------------------
  // The lookup as the source writes it

  /**
    What `statusFlow[key] || []` yields: a list (the table entry, or [] when
    nothing is found), or a member that every JavaScript object inherits from
    `Object.prototype`.
   */
  datatype FlowValue = Entry(statuses: seq<string>) | Inherited(name: string)

  /** Names every plain object inherits from `Object.prototype`. */
  const InheritedNames: set<string> := {
    "constructor", "hasOwnProperty", "isPrototypeOf", "propertyIsEnumerable",
    "toLocaleString", "toString", "valueOf", "__proto__",
    "__defineGetter__", "__defineSetter__", "__lookupGetter__", "__lookupSetter__"}

  /** `.length` of an inherited member: the functions' arity; `__proto__` (an object) has none. */
  function InheritedLength(name: string): Option<int>
    requires name in InheritedNames
  {
    if name == "__proto__" then None
    else if name in {"toLocaleString", "toString", "valueOf"} then Some(0)
    else if name in {"__defineGetter__", "__defineSetter__"} then Some(2)
    else Some(1)
  }

  /** `statusFlow[currentStatus] || []`, with the prototype lookup of a plain object. */
  function AvailableStatusesAsWritten(current: string): (r: FlowValue)
    ensures current in StatusNames ==> r == Entry(GetAvailableStatuses(current))
  {
    if current in StatusNames then Entry(GetAvailableStatuses(current))
    else if current in InheritedNames then Inherited(current)
    else Entry([])
  }

  /** `getAvailableStatuses(order.status).length > 0`, the source's condition for rendering the control. */
  predicate ControlShownAsWritten(current: string) {
    match AvailableStatusesAsWritten(current)
    case Entry(ss) => |ss| > 0
    case Inherited(name) => InheritedLength(name).Some? && InheritedLength(name).value > 0
  }

  /**
    As written, a status string equal to an inherited member name is not
    answered with the empty list: for "constructor" the lookup yields the
    `Object` function, whose length is 1, so the row renders a control and then
    calls `.map` on a function. The own-key lookup answers [] and shows none.
   */
  lemma InheritedNameEscapesTable()
    ensures AvailableStatusesAsWritten("constructor") == Inherited("constructor")
    ensures ControlShownAsWritten("constructor")
    ensures GetAvailableStatuses("constructor") == [] && StatusControl("constructor").None?
  {
  }

  /** On the table's own keys and on names no object inherits, the two lookups agree. */
  lemma LookupsAgreeOffPrototype(current: string)
    requires current !in InheritedNames
    ensures AvailableStatusesAsWritten(current) == Entry(GetAvailableStatuses(current))
    ensures ControlShownAsWritten(current) <==> StatusControl(current).Some?
  {
  }
}
