/**
  The superadmin user service: the validation `createUser` runs before it
  sends anything, the id guards of `updateUser` and `deleteUser`, and the
  mapping of 401 and 400 responses to messages that every call shares.
 */
module SuperService {
  import opened Js

  const UnauthorizedMessage := "Unauthorized: Invalid or expired token"
  const RequiredFieldsMessage := "Name, email, phone, and at least one address are required"
  const PhoneMessage := "Phone number must be 10 digits"

  /** The `catch` of every user call: 401 first, then 400, anything else rethrown. */
  function MapUserError(e: JsError, fallback: string): (r: JsError)
    ensures HasStatus(e, 401) ==> r == NewError(UnauthorizedMessage)
    ensures HasStatus(e, 400) ==> r == NewError(ServerMessageOr(e.response.value, fallback))
    ensures !HasStatus(e, 400) && !HasStatus(e, 401) ==> r == e
  {
    if HasStatus(e, 401) then NewError(UnauthorizedMessage)
    else if HasStatus(e, 400) then NewError(ServerMessageOr(e.response.value, fallback))
    else e
  }

  /** Validation errors carry no response, so the mapping hands them on verbatim; mapping twice is mapping once. */
  lemma UserErrorMappingStable(e: JsError, fallback: string, fallback': string)
    ensures e.response.None? ==> MapUserError(e, fallback) == e
    ensures MapUserError(MapUserError(e, fallback), fallback') == MapUserError(e, fallback)
  {
  }

  /** How a call settles once its request was sent. */
  function SettleUser(outcome: HttpOutcome, fallback: string): (s: Settled)
    ensures outcome.Ok? ==> s == Resolved(outcome.data)
    ensures !outcome.Ok? ==> s == Rejected(MapUserError(Rejection(outcome), fallback))
  {
    if outcome.Ok? then Resolved(outcome.data) else Rejected(MapUserError(Rejection(outcome), fallback))
  }

  // ---------------------------------------------------------------------
  // createUser

  /** One entry of `addresses`: its own properties. */
  type Address = map<string, JsValue>

  /** Every address field is present and truthy. */
  predicate AddressComplete(a: Address) {
    Truthy(Prop(Obj(a), "flatno")) && Truthy(Prop(Obj(a), "street")) && Truthy(Prop(Obj(a), "city"))
    && Truthy(Prop(Obj(a), "state")) && Truthy(Prop(Obj(a), "pincode"))
  }

  /**
    The `forEach` over `addresses` from position `from` on: the 1-based number
    of the first incomplete address, or `None` when all are complete.
   */
  function FirstIncompleteAddress(addresses: seq<Address>, from: nat): (r: Option<nat>)
    requires from <= |addresses|
    ensures r.Some? ==> from < r.value <= |addresses| && !AddressComplete(addresses[r.value - 1])
    ensures r.Some? ==> forall i :: from <= i < r.value - 1 ==> AddressComplete(addresses[i])
    ensures r.None? <==> forall i :: from <= i < |addresses| ==> AddressComplete(addresses[i])
    decreases |addresses| - from
  {
    if from == |addresses| then None
    else if !AddressComplete(addresses[from]) then Some(from + 1)
    else FirstIncompleteAddress(addresses, from + 1)
  }

  /** `/^\d{10}$/.test(phone)`: exactly ten ASCII digits, nothing else. */
  predicate TenDigits(s: string) {
    |s| == 10 && AllDigits(s)
  }

  /** `/^\d{10}$/.test(phone)` on the phone value, which the regular expression reads as `String(phone)`. */
  predicate PhoneAccepted(phone: JsValue) {
    TenDigits(ToStr(phone))
  }

  /** A numeric phone passes exactly when it has ten digits: between 10^9 and 10^10 - 1. */
  lemma NumericPhoneAccepted(n: int)
    ensures PhoneAccepted(Num(n)) <==> 1000000000 <= n <= 9999999999
  {
    if n >= 0 {
      DecimalLengthIs(n, 10);
      assert Pow10(10) == 10000000000 && Pow10(9) == 1000000000 by {
        Pow10Value();
      }
    } else {
      assert !IsDigit(ToStr(Num(n))[0]);
    }
  }

  lemma Pow10Value()
    ensures Pow10(9) == 1000000000 && Pow10(10) == 10000000000
  {
    assert Pow10(3) == 1000;
    assert Pow10(6) == 1000 * Pow10(3);
  }

  /** Why `createUser` refuses its input before sending anything. */
  datatype UserInvalid = MissingFields | BadPhone | IncompleteAddress(position: nat)

  /** The message of the thrown error; the address case is `All address fields are required for address ${index + 1}`. */
  function InvalidMessage(why: UserInvalid): string {
    match why
    case MissingFields => RequiredFieldsMessage
    case BadPhone => PhoneMessage
    case IncompleteAddress(position) => "All address fields are required for address " + NatToDecimal(position)
  }

  /** Different addresses are reported with different messages. */
  lemma AddressMessageNamesPosition(i: nat, j: nat)
    requires InvalidMessage(IncompleteAddress(i)) == InvalidMessage(IncompleteAddress(j))
    ensures i == j
  {
    var prefix := "All address fields are required for address ";
    assert NatToDecimal(i) == InvalidMessage(IncompleteAddress(i))[|prefix|..];
    assert NatToDecimal(j) == InvalidMessage(IncompleteAddress(j))[|prefix|..];
    DecimalInjective(i, j);
  }

  /** The body of the create request: exactly the four given fields. */
  function CreateBody(name: JsValue, email: JsValue, phone: JsValue, addresses: seq<Address>): JsValue {
    Obj(map["name" := name, "email" := email, "phone" := phone,
            "addresses" := Arr(seq(|addresses|, i requires 0 <= i < |addresses| => Obj(addresses[i])))])
  }

  /**
    The checks `createUser` makes before sending, in order: the required
    fields, then the phone, then each address; the first failure wins.
    `addresses` is `None` when the argument is undefined or null.
   */
  function ValidateNewUser(name: JsValue, email: JsValue, phone: JsValue, addresses: Option<seq<Address>>): (r: Option<UserInvalid>)
    ensures !(Truthy(name) && Truthy(email) && Truthy(phone) && addresses.Some? && |addresses.value| >= 1)
            ==> r == Some(MissingFields)
    ensures Truthy(name) && Truthy(email) && Truthy(phone) && addresses.Some? && |addresses.value| >= 1 ==>
      (!PhoneAccepted(phone) ==> r == Some(BadPhone))
      && (PhoneAccepted(phone) ==>
            match FirstIncompleteAddress(addresses.value, 0)
            case Some(k) => r == Some(IncompleteAddress(k))
            case None => r == None)
  {
    if !Truthy(name) || !Truthy(email) || !Truthy(phone) || addresses.None? || |addresses.value| < 1 then
      Some(MissingFields)
    else if !PhoneAccepted(phone) then Some(BadPhone)
    else match FirstIncompleteAddress(addresses.value, 0)
      case Some(k) => Some(IncompleteAddress(k))
      case None => None
  }

  /** Only input that passes every check is accepted, and then every address is complete. */
  lemma AcceptedUserIsValid(name: JsValue, email: JsValue, phone: JsValue, addresses: Option<seq<Address>>)
    requires ValidateNewUser(name, email, phone, addresses).None?
    ensures Truthy(name) && Truthy(email) && Truthy(phone)
    ensures addresses.Some? && |addresses.value| >= 1
    ensures TenDigits(ToStr(phone))
    ensures forall i :: 0 <= i < |addresses.value| ==> AddressComplete(addresses.value[i])
  {
  }

  /** The address error names the first incomplete address, counting from 1. */
  lemma AddressErrorNamesFirstIncomplete(name: JsValue, email: JsValue, phone: JsValue,
                                         addresses: seq<Address>, k: nat)
    requires ValidateNewUser(name, email, phone, Some(addresses)) == Some(IncompleteAddress(k))
    ensures 1 <= k <= |addresses|
    ensures !AddressComplete(addresses[k - 1])
    ensures forall i :: 0 <= i < k - 1 ==> AddressComplete(addresses[i])
  {
  }

  /** The reported message identifies the address: equal messages mean the same position. */
  lemma AddressErrorMessageDetermines(name: JsValue, email: JsValue, phone: JsValue,
                                      addresses: seq<Address>, k: nat)
    requires ValidateNewUser(name, email, phone, Some(addresses)).Some?
    requires InvalidMessage(ValidateNewUser(name, email, phone, Some(addresses)).value) == InvalidMessage(IncompleteAddress(k))
    requires ValidateNewUser(name, email, phone, Some(addresses)).value.IncompleteAddress?
    ensures ValidateNewUser(name, email, phone, Some(addresses)) == Some(IncompleteAddress(k))
  {
    AddressMessageNamesPosition(ValidateNewUser(name, email, phone, Some(addresses)).value.position, k);
  }

  /** `userService.createUser({name, email, phone, addresses})` */
  function CreateUser(name: JsValue, email: JsValue, phone: JsValue, addresses: Option<seq<Address>>,
                      outcome: HttpOutcome): (c: Call)
    ensures ValidateNewUser(name, email, phone, addresses).Some? ==>
      c == Call(None, Rejected(NewError(InvalidMessage(ValidateNewUser(name, email, phone, addresses).value))))
    ensures ValidateNewUser(name, email, phone, addresses).None? ==>
      c.sent == Some(Request(Post, "/admin/user/create", map[], CreateBody(name, email, phone, addresses.value)))
      && c.settled == SettleUser(outcome, "Invalid user data provided")
  {
    match ValidateNewUser(name, email, phone, addresses)
    case Some(why) =>
      Call(None, Rejected(MapUserError(NewError(InvalidMessage(why)), "Invalid user data provided")))
    case None =>
      Call(Some(Request(Post, "/admin/user/create", map[], CreateBody(name, email, phone, addresses.value))),
           SettleUser(outcome, "Invalid user data provided"))
  }

  /** The create body holds the four fields and nothing else, each as given. */
  lemma CreateBodyExact(name: JsValue, email: JsValue, phone: JsValue, addresses: seq<Address>)
    ensures CreateBody(name, email, phone, addresses).props.Keys == {"name", "email", "phone", "addresses"}
    ensures Prop(CreateBody(name, email, phone, addresses), "name") == name
    ensures Prop(CreateBody(name, email, phone, addresses), "email") == email
    ensures Prop(CreateBody(name, email, phone, addresses), "phone") == phone
    ensures var sent := Prop(CreateBody(name, email, phone, addresses), "addresses");
            sent.Arr? && |sent.elems| == |addresses|
            && forall i :: 0 <= i < |addresses| ==> sent.elems[i] == Obj(addresses[i])
  {
  }

  // ---------------------------------------------------------------------
  // The other user calls

  /** `userService.getUsers({role, page, limit})`: no guard. */
  function GetUsers(role: JsValue, page: JsValue, limit: JsValue, outcome: HttpOutcome): (c: Call)
    ensures c.sent == Some(Request(Get, "/admin/users",
      map["role" := Default(role, Str("")), "page" := Default(page, Num(1)), "limit" := Default(limit, Num(10))], Undefined))
    ensures c.settled == SettleUser(outcome, "Invalid request parameters")
  {
    Call(Some(Request(Get, "/admin/users",
                      map["role" := Default(role, Str("")), "page" := Default(page, Num(1)), "limit" := Default(limit, Num(10))],
                      Undefined)),
         SettleUser(outcome, "Invalid request parameters"))
  }

  /** `userService.updateUser({id, data})` */
  function UpdateUser(id: JsValue, data: JsValue, outcome: HttpOutcome): (c: Call)
    ensures !Truthy(id) ==> c == Call(None, Rejected(NewError("User ID is required")))
    ensures Truthy(id) ==> c.sent == Some(Request(Put, "/admin/user/update", map[], Obj(map["id" := id, "data" := data])))
    ensures Truthy(id) ==> c.settled == SettleUser(outcome, "Invalid update data provided")
  {
    if !Truthy(id) then Call(None, Rejected(MapUserError(NewError("User ID is required"), "Invalid update data provided")))
    else Call(Some(Request(Put, "/admin/user/update", map[], Obj(map["id" := id, "data" := data]))),
              SettleUser(outcome, "Invalid update data provided"))
  }

  /** `userService.deleteUser({id})`: the id travels in the request body. */
  function DeleteUser(id: JsValue, outcome: HttpOutcome): (c: Call)
    ensures !Truthy(id) ==> c == Call(None, Rejected(NewError("User ID is required")))
    ensures Truthy(id) ==> c.sent == Some(Request(Delete, "/admin/user/delete", map[], Obj(map["id" := id])))
    ensures Truthy(id) ==> c.settled == SettleUser(outcome, "Invalid user ID provided")
  {
    if !Truthy(id) then Call(None, Rejected(MapUserError(NewError("User ID is required"), "Invalid user ID provided")))
    else Call(Some(Request(Delete, "/admin/user/delete", map[], Obj(map["id" := id]))),
              SettleUser(outcome, "Invalid user ID provided"))
  }
}
