/**
 * The REST server's two handlers. `POST /api/subtract` takes the parsed JSON
 * request body, destructures `num1` and `num2` from it, and answers with
 * exactly one of: 400 "must be numbers" (a field absent or not of type
 * number), 400 "cannot be NaN", 200 with the difference, or - when the
 * destructuring itself throws - 500 "Internal server error".
 * `GET /api/health` always answers `status: 'ok'`.
 * The clock is a parameter (`now`, the ISO-8601 text of `new Date()`).
 */
module SubtractApi {
  import opened Wrappers

  /** A JavaScript number, abstractly: a finite value (as a real, with no
      rounding), NaN, or one of the two infinities. */
  datatype Number = Finite(value: real) | NaN | PosInfinity | NegInfinity

  /** A parsed JSON value. */
  datatype Json =
    | Null
    | Bool(b: bool)
    | Num(n: Number)
    | Str(s: string)
    | Arr(items: seq<Json>)
    | Obj(fields: map<string, Json>)

  /** `typeof` of a property value; `None` is `undefined`. */
  function TypeOf(v: Option<Json>): (t: string)
    ensures t == "number" <==> v.Some? && v.value.Num?
  {
    match v
    case None => "undefined"
    case Some(Null) => "object"
    case Some(Bool(_)) => "boolean"
    case Some(Num(_)) => "number"
    case Some(Str(_)) => "string"
    case Some(Arr(_)) => "object"
    case Some(Obj(_)) => "object"
  }

  /** Reading property `key` of a non-null value: an object's own field, and
      `undefined` for everything else (arrays, strings, numbers and booleans
      have no property named "num1" or "num2"). */
  function Property(v: Json, key: string): (r: Option<Json>)
    ensures r.Some? <==> v.Obj? && key in v.fields
    ensures r.Some? ==> r.value == v.fields[key]
  {
    if v.Obj? && key in v.fields then Some(v.fields[key]) else None
  }

  /** Strict equality `===` on numbers: NaN equals nothing, itself
      included. */
  predicate StrictEquals(a: Number, b: Number) {
    match (a, b)
    case (Finite(x), Finite(y)) => x == y
    case (PosInfinity, PosInfinity) => true
    case (NegInfinity, NegInfinity) => true
    case _ => false
  }

  /** The global `isNaN` on a value of type number (no coercion happens):
      true exactly for the one number that is not `===` to itself. */
  function IsNaN(n: Number): (b: bool)
    ensures b <==> !StrictEquals(n, n)
  {
    n == NaN
  }

  function Negate(n: Number): Number {
    match n
    case Finite(x) => Finite(-x)
    case NaN => NaN
    case PosInfinity => NegInfinity
    case NegInfinity => PosInfinity
  }

  /** `num1 - num2` with the IEEE 754 special values; finite operands give
      their exact difference (rounding is not modelled). */
  function Subtract(a: Number, b: Number): (r: Number)
    ensures r == NaN <==> a == NaN || b == NaN || (a == b && !a.Finite?)
    ensures a.Finite? && b.Finite? ==> r == Finite(a.value - b.value)
  {
    match (a, b)
    case (NaN, _) => NaN
    case (_, NaN) => NaN
    case (PosInfinity, PosInfinity) => NaN
    case (NegInfinity, NegInfinity) => NaN
    case (PosInfinity, _) => PosInfinity
    case (NegInfinity, _) => NegInfinity
    case (Finite(_), PosInfinity) => NegInfinity
    case (Finite(_), NegInfinity) => PosInfinity
    case (Finite(x), Finite(y)) => Finite(x - y)
  }

  /** Subtraction is anti-commutative on every pair of numbers, special
      values included: a - b is -(b - a). */
  lemma SubtractAntiCommutes(a: Number, b: Number)
    ensures Subtract(a, b) == Negate(Subtract(b, a))
  {
  }

  datatype ResponseBody =
    | ErrorBody(error: string)
    | SubtractionBody(result: Number, operation: string, timestamp: string)
    | HealthBody(status: string, message: string, timestamp: string)

  datatype Response = Response(status: nat, body: ResponseBody)

  const TypeError := "Invalid input: both num1 and num2 must be numbers"
  const NaNError := "Invalid input: numbers cannot be NaN"
  const InternalError := "Internal server error"

  /** `const { num1, num2 } = req.body` throws a TypeError when the body is
      `undefined` or `null`; the catch block turns that into a 500. */
  predicate DestructuringThrows(body: Option<Json>) {
    body == None || body == Some(Null)
  }

  predicate BothNumbers(body: Option<Json>)
    requires !DestructuringThrows(body)
  {
    TypeOf(Property(body.value, "num1")) == "number" && TypeOf(Property(body.value, "num2")) == "number"
  }

  /** The number held in field `key` of a body that has passed the type
      check. */
  function Operand(body: Option<Json>, key: string): Number
    requires !DestructuringThrows(body) && TypeOf(Property(body.value, key)) == "number"
  {
    Property(body.value, key).value.n
  }

  /** The `/api/subtract` handler. The outcome is decided in the source's
      order: a throwing destructuring, then the type check, then the NaN
      check; only when all pass is anything computed. */
  function HandleSubtract(body: Option<Json>, now: string): (r: Response)
    ensures r.status in {200, 400, 500}
    ensures r.status == 500 <==> DestructuringThrows(body)
    ensures r.status == 500 ==> r.body == ErrorBody(InternalError)
    ensures r.body == ErrorBody(TypeError) <==> !DestructuringThrows(body) && !BothNumbers(body)
    ensures r.body == ErrorBody(NaNError) <==>
      && !DestructuringThrows(body) && BothNumbers(body)
      && (IsNaN(Operand(body, "num1")) || IsNaN(Operand(body, "num2")))
    ensures r.status != 200 ==> r.body.ErrorBody?
    ensures r.status == 200 <==>
      && !DestructuringThrows(body) && BothNumbers(body)
      && !IsNaN(Operand(body, "num1")) && !IsNaN(Operand(body, "num2"))
    ensures r.status == 200 ==>
      r.body == SubtractionBody(Subtract(Operand(body, "num1"), Operand(body, "num2")), "subtraction", now)
  {
    if DestructuringThrows(body) then
      Response(500, ErrorBody(InternalError))
    else
      var num1 := Property(body.value, "num1");
      var num2 := Property(body.value, "num2");
      if TypeOf(num1) != "number" || TypeOf(num2) != "number" then
        Response(400, ErrorBody(TypeError))
      else if IsNaN(num1.value.n) || IsNaN(num2.value.n) then
        Response(400, ErrorBody(NaNError))
      else
        Response(200, SubtractionBody(Subtract(num1.value.n, num2.value.n), "subtraction", now))
  }

  /** A request object `{ num1: a, num2: b }` and any other fields. */
  function Request(a: Json, b: Json, rest: map<string, Json>): Json {
    Obj(rest["num1" := a]["num2" := b])
  }

  /** Two numbers, neither NaN, always succeed with their difference; this
      includes the infinities, since NaN is the only number rejected. */
  lemma NumbersSucceed(a: Number, b: Number, rest: map<string, Json>, now: string)
    requires a != NaN && b != NaN
    ensures HandleSubtract(Some(Request(Num(a), Num(b), rest)), now)
      == Response(200, SubtractionBody(Subtract(a, b), "subtraction", now))
  {
  }

  /** A field that is not a number, absent or of another type, gives the
      type error whatever the other field holds - even a NaN: the type check
      comes first. */
  lemma TypeCheckFirst(body: Json, a: Option<Json>, now: string)
    requires body != Null
    requires Property(body, "num1") == a || Property(body, "num2") == a
    requires TypeOf(a) != "number"
    ensures HandleSubtract(Some(body), now) == Response(400, ErrorBody(TypeError))
  {
  }

  /** Two numbers of which at least one is NaN give the NaN error. */
  lemma NaNRejected(a: Number, b: Number, rest: map<string, Json>, now: string)
    requires a == NaN || b == NaN
    ensures HandleSubtract(Some(Request(Num(a), Num(b), rest)), now) == Response(400, ErrorBody(NaNError))
  {
  }

  /** The fixed scenarios that succeed: 10 - 4 = 6 and -3 - -3 = 0. */
  lemma Scenarios(now: string)
    ensures HandleSubtract(Some(Request(Num(Finite(10.0)), Num(Finite(4.0)), map[])), now)
      == Response(200, SubtractionBody(Finite(6.0), "subtraction", now))
    ensures HandleSubtract(Some(Request(Num(Finite(-3.0)), Num(Finite(-3.0)), map[])), now).body
      == SubtractionBody(Finite(0.0), "subtraction", now)
  {
  }

  /** The fixed scenarios that fail: "5" and 2 is a type error, as is "5"
      and NaN; NaN and 2 is a NaN error; an array body has no fields, and a
      missing body is an internal error. */
  lemma ErrorScenarios(now: string)
    ensures HandleSubtract(Some(Request(Str("5"), Num(Finite(2.0)), map[])), now).body == ErrorBody(TypeError)
    ensures HandleSubtract(Some(Request(Num(NaN), Num(Finite(2.0)), map[])), now).body == ErrorBody(NaNError)
    ensures HandleSubtract(Some(Request(Str("5"), Num(NaN), map[])), now).body == ErrorBody(TypeError)
    ensures HandleSubtract(Some(Arr([Num(Finite(1.0)), Num(Finite(2.0))])), now).body == ErrorBody(TypeError)
    ensures HandleSubtract(None, now) == Response(500, ErrorBody(InternalError))
  {
    var r := Request(Str("5"), Num(NaN), map[]);
    assert Property(r, "num1") == Some(Str("5"));
  }

  /** The `/api/health` handler: always 200 with `status: 'ok'`. */
  function HandleHealth(now: string): (r: Response)
    ensures r.status == 200
    ensures r.body.HealthBody? && r.body.status == "ok" && r.body.timestamp == now
  {
    Response(200, HealthBody("ok", "API server is running", now))
  }
}
