/** Values shared by the three components: optional values, parsed JSON
    payloads, the settled outcome of a send, and decimal text for the
    numbers that the handshake writes into strings. */
module Values {

  datatype Option<T> = None | Some(value: T) {
    /** The value, or `default` where JavaScript would take the default of a parameter. */
    function GetOr(default: T): T {
      if Some? then value else default
    }
  }

  /** A parsed JSON value. Numbers are reals: the model does no floating point. */
  datatype Json =
    | Null
    | Bool(b: bool)
    | Number(n: real)
    | String(s: string)
    | Array(items: seq<Json>)
    | Object(fields: map<string, Json>)

  /** A JSON object. A key that is absent stands for a field that is `undefined`. */
  type Obj = map<string, Json>

  /** JavaScript truthiness of a JSON value (NaN is not representable). */
  predicate Truthy(j: Json) {
    match j
    case Null => false
    case Bool(b) => b
    case Number(n) => n != 0.0
    case String(s) => s != ""
    case Array(_) => true
    case Object(_) => true
  }

  /** `o.k`: the field, or None where JavaScript reads `undefined`. */
  function Field(o: Obj, k: string): (r: Option<Json>)
    ensures r.Some? <==> k in o
    ensures r.Some? ==> r.value == o[k]
  {
    if k in o then Some(o[k]) else None
  }

  /** `o.k = v`, where assigning `undefined` leaves no key behind. */
  function Put(o: Obj, k: string, v: Option<Json>): (r: Obj)
    ensures Field(r, k) == v
    ensures forall k' :: k' != k ==> Field(r, k') == Field(o, k')
  {
    if v.Some? then o[k := v.value] else o - {k}
  }

  /** The fields that `{...j}` copies: those of an object, none for the other values. */
  function Spread(j: Option<Json>): (r: Obj)
    ensures j.Some? && j.value.Object? ==> r == j.value.fields
    ensures !(j.Some? && j.value.Object?) ==> r == map[]
  {
    match j
    case Some(Object(fields)) => fields
    case _ => map[]
  }

  /** How a promise returned by a send settles: resolved with a boolean, or rejected. */
  datatype Settled = Resolved(value: bool) | Rejected

  /** The decimal digit for `d`. */
  function Digit(d: nat): char
    requires d < 10
  {
    "0123456789"[d]
  }

  predicate IsDigit(c: char) {
    '0' <= c <= '9'
  }

  /** `String(n)` for a natural number: its decimal representation. */
  function NatToString(n: nat): (s: string)
    ensures s != []
    ensures forall i :: 0 <= i < |s| ==> IsDigit(s[i])
    ensures |s| > 1 ==> s[0] != '0'
  {
    if n < 10 then [Digit(n)] else NatToString(n / 10) + [Digit(n % 10)]
  }

  /** The number a string of decimal digits denotes. */
  function DigitsValue(s: string): nat
    requires forall i :: 0 <= i < |s| ==> IsDigit(s[i])
  {
    if s == [] then 0
    else
      assert IsDigit(s[|s| - 1]);
      10 * DigitsValue(s[..|s| - 1]) + (s[|s| - 1] as int - '0' as int)
  }

  /** `s` is decimal text for `n`. */
  predicate Denotes(s: string, n: nat) {
    (forall i :: 0 <= i < |s| ==> IsDigit(s[i])) && DigitsValue(s) == n
  }

  /** Reading back the decimal text gives the number: distinct ports and shard counts give distinct text. */
  lemma {:induction false} NatToStringRoundTrip(n: nat)
    ensures DigitsValue(NatToString(n)) == n
  {
    if n >= 10 {
      var s := NatToString(n);
      assert s[..|s| - 1] == NatToString(n / 10);
      NatToStringRoundTrip(n / 10);
    }
  }
}
