/** Vocabulary shared by the storefront's components: optional values, the outcome of
    one backend call, the requests the components send, notifications, and the modular
    index arithmetic of the two carousels. */
module Common {

  datatype Option<T> = None | Some(value: T)
  {
    function GetOr(default: T): T
    {
      match this
      case Some(v) => v
      case None => default
    }
  }

  /** What one `fetch` call delivered, treated as one atomic step: a response with a
      2xx status, a response with any other status, or a rejected promise (network
      failure or an unreadable body). Both kinds of response carry the parsed body,
      because several handlers read `response.json()` without looking at
      `response.ok`. */
  datatype Outcome<T> = Ok(body: T) | HttpError(code: int, body: T) | Thrown

  /** The requests the components send to the backend that change data there. */
  datatype Request =
    | CartAdd(productId: string, quantity: int)
    | CartRemove(productId: string)
    | CreateOrder(street: string, city: string, state: string, postalCode: string, country: string, paymentMethod: string)
    | WishlistAdd(productId: string)
    | WishlistRemove(productId: string)

  /** A transient notification shown to the user. */
  datatype Toast = Success(text: string) | Error(text: string) | Info(text: string)

  /** The decimal digits JavaScript prints for an integer in a template string. */
  function DecimalText(i: int): (r: string)
    ensures |r| > 0
    ensures i >= 0 ==> forall k :: 0 <= k < |r| ==> '0' <= r[k] <= '9'
    ensures i < 0 <==> r[0] == '-'
    decreases if i < 0 then 1 - i else i
  {
    if i < 0 then "-" + DecimalText(-i)
    else if i < 10 then [Digit(i)]
    else DecimalText(i / 10) + [Digit(i % 10)]
  }

  function Digit(d: int): char
    requires 0 <= d < 10
  {
    ('0' as int + d) as char
  }

  /** The number a string of decimal digits reads as, most significant first. */
  function DecimalValue(s: string): int
  {
    if s == [] then 0 else DecimalValue(s[..|s| - 1]) * 10 + (s[|s| - 1] as int - '0' as int)
  }

  /** The digits printed for a non-negative integer read back as that integer, and a
      negative one is printed as "-" followed by the digits of its magnitude. */
  lemma {:induction false} DecimalTextRoundTrip(i: int)
    ensures i >= 0 ==> DecimalValue(DecimalText(i)) == i
    ensures i < 0 ==> DecimalText(i) == "-" + DecimalText(-i) && DecimalValue(DecimalText(-i)) == -i
    decreases if i < 0 then 1 - i else i
  {
    if i < 0 {
      DecimalTextRoundTrip(-i);
    } else if i < 10 {
      assert DecimalText(i)[..0] == [];
    } else {
      DecimalTextRoundTrip(i / 10);
      var t := DecimalText(i);
      assert t[..|t| - 1] == DecimalText(i / 10);
    }
  }

  /** The amount a price slot of the order pages shows: their `formatPrice` prints 0
      for a missing amount. */
  function Shown(value: Option<int>): (r: int)
    ensures value.None? ==> r == 0
    ensures value.Some? ==> r == value.value
  {
    value.GetOr(0)
  }

  /** Position of the first rejected call in a run of calls, if any. */
  function FirstThrow<T>(outcomes: seq<Outcome<T>>): (r: Option<nat>)
    ensures r.None? <==> forall j :: 0 <= j < |outcomes| ==> !outcomes[j].Thrown?
    ensures r.Some? ==> r.value < |outcomes| && outcomes[r.value].Thrown?
    ensures r.Some? ==> forall j :: 0 <= j < r.value ==> !outcomes[j].Thrown?
  {
    if outcomes == [] then None
    else if outcomes[0].Thrown? then Some(0)
    else match FirstThrow(outcomes[1..])
      case None => None
      case Some(k) => Some(k + 1)
  }

  /** Symmetric difference with one element: the set operation behind every heart button. */
  function Toggle(s: set<string>, x: string): (r: set<string>)
    ensures x in r <==> x !in s
    ensures forall y :: y != x ==> (y in r <==> y in s)
  {
    if x in s then s - {x} else s + {x}
  }

  lemma ToggleTwice(s: set<string>, x: string)
    ensures Toggle(Toggle(s, x), x) == s
  {
  }

  /** JavaScript's `s.slice(-n)`: the last n characters, or all of s when it is shorter. */
  function LastChars(s: string, n: nat): (r: string)
    ensures |r| == if |s| < n then |s| else n
    ensures s == s[..|s| - |r|] + r
  {
    if |s| <= n then s else s[|s| - n..]
  }

  /** JavaScript's `%` on integers: the remainder of the division truncated toward zero,
      so it takes the sign of the dividend (Dafny's `%` never goes negative). */
  function JsRem(a: int, n: int): (r: int)
    requires n > 0
    ensures a >= 0 ==> r == a % n
    ensures -n < r < n
    ensures a >= 0 ==> r >= 0
    ensures a <= 0 ==> r <= 0
  {
    if a >= 0 then a % n else -((-a) % n)
  }

  /** `(prev + 1) % length` of the carousels. */
  function NextIndex(i: int, n: int): (r: int)
    requires n > 0
    ensures 0 <= i < n ==> 0 <= r < n
    ensures 0 <= i < n - 1 ==> r == i + 1
    ensures i == n - 1 ==> r == 0
  {
    JsRem(i + 1, n)
  }

  /** `(prev - 1 + length) % length` of the carousels. */
  function PrevIndex(i: int, n: int): (r: int)
    requires n > 0
    ensures 0 <= i < n ==> 0 <= r < n
    ensures 0 < i < n ==> r == i - 1
    ensures i == 0 ==> r == n - 1
  {
    JsRem(i - 1 + n, n)
  }

  /** Going forward and then back (or back and then forward) returns to the same slide. */
  lemma PrevUndoesNext(i: int, n: int)
    requires 0 <= i < n
    ensures PrevIndex(NextIndex(i, n), n) == i
    ensures NextIndex(PrevIndex(i, n), n) == i
  {
  }
}
