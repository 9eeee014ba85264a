/**
  The slice of JavaScript semantics the admin console's services rely on:
  values and their truthiness (the `!x` guards and `x || y` defaults),
  `String(x)` for the values that end up in error messages, `String.prototype.includes`,
  `Error` objects with an optional HTTP response, and the outcome of one HTTP
  request, which the model takes as a parameter instead of performing I/O.
 */
module Js {

  datatype Option<T> = None | Some(value: T)

  /** A JavaScript value. Numbers are integers (no NaN, no fractions). */
  datatype JsValue =
    | Undefined
    | Null
    | Bool(b: bool)
    | Num(n: int)
    | Str(s: string)
    | Arr(elems: seq<JsValue>)
    | Obj(props: map<string, JsValue>)

  /** JavaScript truthiness: `!v` is `!Truthy(v)`. */
  predicate Truthy(v: JsValue) {
    match v
    case Undefined => false
    case Null => false
    case Bool(b) => b
    case Num(n) => n != 0
    case Str(s) => s != ""
    case Arr(_) => true
    case Obj(_) => true
  }

  /** `a || b` */
  function Or(a: JsValue, b: JsValue): (r: JsValue)
    ensures Truthy(a) ==> r == a
    ensures !Truthy(a) ==> r == b
  {
    if Truthy(a) then a else b
  }

  /** A destructuring default `{ x = d }`: applies only when the argument is undefined. */
  function Default(v: JsValue, d: JsValue): (r: JsValue)
    ensures v != Undefined ==> r == v
    ensures v == Undefined ==> r == d
  {
    if v.Undefined? then d else v
  }

  /** Property read `v.key` on an object; any other value has none of the modelled properties. */
  function Prop(v: JsValue, key: string): JsValue {
    match v
    case Obj(m) => if key in m then m[key] else Undefined
    case _ => Undefined
  }

  // ---------------------------------------------------------------------
  // Decimal rendering, as `String(n)` and template literals do for integers.

  function DigitChar(d: nat): char
    requires d < 10
  {
    "0123456789"[d]
  }

  predicate IsDigit(c: char) {
    '0' <= c <= '9'
  }

  predicate AllDigits(s: string) {
    forall i :: 0 <= i < |s| ==> IsDigit(s[i])
  }

  /** The decimal digits of `n`, most significant first, with no leading zero. */
  function NatToDecimal(n: nat): (s: string)
    ensures |s| >= 1 && AllDigits(s)
    ensures s[0] == '0' ==> n == 0
    decreases n
  {
    if n < 10 then [DigitChar(n)] else NatToDecimal(n / 10) + [DigitChar(n % 10)]
  }

  function IntToDecimal(n: int): (s: string)
    ensures |s| >= 1 && (n < 0 <==> s[0] == '-')
  {
    if n < 0 then "-" + NatToDecimal(-n) else NatToDecimal(n)
  }

  /** Reading a string of decimal digits back as a number. */
  function ParseDecimal(s: string): nat
    requires AllDigits(s)
  {
    if s == [] then 0 else 10 * ParseDecimal(s[..|s| - 1]) + (s[|s| - 1] as int - '0' as int)
  }

  lemma {:induction false} DecimalRoundTrip(n: nat)
    ensures ParseDecimal(NatToDecimal(n)) == n
    decreases n
  {
    var s := NatToDecimal(n);
    if n < 10 {
      assert s[..|s| - 1] == [];
    } else {
      DecimalRoundTrip(n / 10);
      assert s[..|s| - 1] == NatToDecimal(n / 10);
    }
  }

  /** Distinct numbers render as distinct strings. */
  lemma DecimalInjective(m: nat, n: nat)
    requires NatToDecimal(m) == NatToDecimal(n)
    ensures m == n
  {
    DecimalRoundTrip(m);
    DecimalRoundTrip(n);
  }

  function Pow10(k: nat): (r: nat)
    ensures r >= 1
  {
    if k == 0 then 1 else 10 * Pow10(k - 1)
  }

  /** A positive number has exactly `k` decimal digits when it lies in [10^(k-1), 10^k). */
  lemma {:induction false} DecimalLength(n: nat)
    requires n >= 1
    ensures Pow10(|NatToDecimal(n)| - 1) <= n < Pow10(|NatToDecimal(n)|)
    decreases n
  {
    if n >= 10 {
      DecimalLength(n / 10);
      var k := |NatToDecimal(n / 10)|;
      assert |NatToDecimal(n)| == k + 1;
      assert Pow10(k) == 10 * Pow10(k - 1);
      assert Pow10(k + 1) == 10 * Pow10(k);
    }
  }

  lemma DecimalLengthIs(n: nat, k: nat)
    requires k >= 1
    ensures |NatToDecimal(n)| == k <==> (k == 1 && n < 10) || (Pow10(k - 1) <= n < Pow10(k))
  {
    if n == 0 {
      assert NatToDecimal(0) == "0";
      if k >= 2 { Pow10Monotone(1, k - 1); }
    } else {
      DecimalLength(n);
      var l := |NatToDecimal(n)|;
      if l < k { Pow10Monotone(l, k - 1); }
      if k < l { Pow10Monotone(k, l - 1); }
      if k == 1 && n < 10 { assert l == 1; }
    }
  }

  lemma {:induction false} Pow10Monotone(i: nat, j: nat)
    requires i <= j
    ensures Pow10(i) <= Pow10(j)
    decreases j - i
  {
    if i < j { Pow10Monotone(i, j - 1); }
  }

  // ---------------------------------------------------------------------
  // String(v)

  /** `String(v)`, as `new Error(v)` stores it in `message`. */
  function ToStr(v: JsValue): string {
    match v
    case Undefined => "undefined"
    case Null => "null"
    case Bool(b) => if b then "true" else "false"
    case Num(n) => IntToDecimal(n)
    case Str(s) => s
    case Arr(xs) => JoinElems(xs)
    case Obj(_) => "[object Object]"
  }

  /** `Array.prototype.join(",")`: undefined and null elements render as empty. */
  function JoinElems(xs: seq<JsValue>): string {
    if |xs| == 0 then ""
    else
      (if xs[0].Undefined? || xs[0].Null? then "" else ToStr(xs[0]))
      + (if |xs| == 1 then "" else "," + JoinElems(xs[1..]))
  }

  // ---------------------------------------------------------------------
  // String.prototype.includes

  /** `s.includes(sub)` */
  function Includes(s: string, sub: string): (r: bool)
    ensures r ==> |sub| <= |s|
    ensures sub == [] ==> r
    decreases |s|
  {
    if |sub| <= |s| && s[..|sub|] == sub then true
    else if |s| == 0 then false
    else Includes(s[1..], sub)
  }

  /** `sub` sits in `s` at offset `i`. */
  predicate OccursAt(s: string, sub: string, i: int) {
    0 <= i <= |s| - |sub| && s[i..i + |sub|] == sub
  }

  /** `Includes` holds exactly when `sub` occurs at some offset of `s`. */
  lemma {:induction false} IncludesMeansOccurs(s: string, sub: string)
    ensures Includes(s, sub) <==> exists i :: OccursAt(s, sub, i)
    decreases |s|
  {
    if |sub| <= |s| && s[..|sub|] == sub {
      assert OccursAt(s, sub, 0);
    } else if |s| == 0 {
    } else {
      IncludesMeansOccurs(s[1..], sub);
      if i :| OccursAt(s, sub, i) {
        assert i != 0;
        assert s[1..][i - 1..i - 1 + |sub|] == sub;
        assert OccursAt(s[1..], sub, i - 1);
      }
      if j :| OccursAt(s[1..], sub, j) {
        assert s[j + 1..j + 1 + |sub|] == sub;
        assert OccursAt(s, sub, j + 1);
      }
    }
  }

  /** A string that lacks the first character of `sub` cannot include `sub`. */
  lemma {:induction false} NotIncludedWithoutFirstChar(s: string, sub: string)
    requires |sub| > 0 && sub[0] !in s
    ensures !Includes(s, sub)
    decreases |s|
  {
    if |sub| <= |s| {
      assert s[0] in s;
      assert s[..|sub|][0] == s[0];
    }
    if |s| > 0 {
      assert forall c :: c in s[1..] ==> c in s;
      NotIncludedWithoutFirstChar(s[1..], sub);
    }
  }

  // ---------------------------------------------------------------------
  // Errors and the HTTP boundary

  /** `error.response` of a failed request: its status and parsed body. */
  datatype ErrorResponse = ErrorResponse(status: int, data: JsValue)

  /** A thrown `Error`; `response` is present only on errors raised by the HTTP client. */
  datatype JsError = JsError(message: string, response: Option<ErrorResponse>)

  /** `new Error(message)` */
  function NewError(message: string): JsError {
    JsError(message, None)
  }

  /** `error.response?.status === code` */
  predicate HasStatus(e: JsError, code: int) {
    e.response.Some? && e.response.value.status == code
  }

  /**
    `error.response.data.message || fallback`, as the message of a new `Error`.
    A body without a message (or without a truthy one) yields `fallback`.
   */
  function ServerMessageOr(resp: ErrorResponse, fallback: string): (m: string)
    ensures Truthy(Prop(resp.data, "message")) ==> m == ToStr(Prop(resp.data, "message"))
    ensures !Truthy(Prop(resp.data, "message")) ==> m == fallback
  {
    ToStr(Or(Prop(resp.data, "message"), Str(fallback)))
  }

  /** What the HTTP client delivers for one request. */
  datatype HttpOutcome =
    | Ok(data: JsValue)
    | HttpErr(status: int, message: string, data: JsValue)
    | NetworkErr(message: string)

  /** The error the HTTP client rejects with when the request fails. */
  function Rejection(o: HttpOutcome): (e: JsError)
    requires !o.Ok?
    ensures o.HttpErr? ==> e.response == Some(ErrorResponse(o.status, o.data))
    ensures o.NetworkErr? ==> e.response.None?
    ensures e.message == o.message
  {
    match o
    case HttpErr(status, message, data) => JsError(message, Some(ErrorResponse(status, data)))
    case NetworkErr(message) => JsError(message, None)
  }

  /** The resolved value of a successful request (`response`); only `data` is modelled. */
  function ResponseObject(data: JsValue): (r: JsValue)
    ensures Prop(r, "data") == data
  {
    Obj(map["data" := data])
  }

  datatype Verb = Get | Post | Put | Delete

  /** One request handed to the HTTP client: verb, path, query parameters and body. */
  datatype Request = Request(verb: Verb, path: string, params: map<string, JsValue>, body: JsValue)

  /** How an `async` service function settles. */
  datatype Settled = Resolved(value: JsValue) | Rejected(error: JsError)

  /** One call of a service function: the request it sent, if any, and how it settled. */
  datatype Call = Call(sent: Option<Request>, settled: Settled)
}
