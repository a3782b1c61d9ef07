/** JavaScript values the site's server and client code depend on: numbers
    (with NaN and the infinities), truthiness, `Math.round`, thrown values and
    `undefined`. */
module Js {

  datatype Option<+T> = None | Some(value: T)

  /** A JavaScript number, with the IEEE special values kept apart. Finite
      values are modelled as exact reals. */
  datatype Number = Finite(value: real) | NaN | PosInfinity | NegInfinity

  /** `!!n`: zero and NaN are falsy. */
  predicate Truthy(n: Number) {
    match n
    case Finite(v) => v != 0.0
    case NaN => false
    case _ => true
  }

  /** `n < k` for a finite constant `k`; comparisons with NaN are false. */
  predicate LessThan(n: Number, k: real) {
    match n
    case Finite(v) => v < k
    case NegInfinity => true
    case _ => false
  }

  /** `n > k` for a finite constant `k`. */
  predicate GreaterThan(n: Number, k: real) {
    match n
    case Finite(v) => v > k
    case PosInfinity => true
    case _ => false
  }

  /** `n >= k` for a finite constant `k`. */
  predicate AtLeast(n: Number, k: real) {
    match n
    case Finite(v) => v >= k
    case PosInfinity => true
    case _ => false
  }

  /** `Math.round(x)` on a finite value: the nearest integer, halves rounded
      towards positive infinity. */
  function Round(x: real): (r: int)
    ensures r as real - 0.5 <= x < r as real + 0.5
  {
    (x + 0.5).Floor
  }

  /** What a `throw` hands to a `catch`: an `Error` object with its message,
      `null`/`undefined`, or some other value without a `message` property. */
  datatype Thrown = ErrorObject(message: string) | Nullish | OtherValue

  /** The result of calling something that may throw. */
  datatype Outcome<+T> = Returned(value: T) | Threw(thrown: Thrown)

  /** `String(b)` / `b.toString()`. */
  function BoolText(b: bool): string {
    if b then "true" else "false"
  }

  /** `a` is `b` with some elements left out and the rest in the same order,
      as `filter` leaves an array. */
  predicate Subsequence<T(==)>(a: seq<T>, b: seq<T>)
    decreases |b|
  {
    if a == [] then true
    else if b == [] then false
    else (a[0] == b[0] && Subsequence(a[1..], b[1..])) || Subsequence(a, b[1..])
  }
}

/** HTTP responses as the Next.js handlers build them with `NextResponse.json`:
    a status code and a JSON body, the body type chosen per route. */
module Http {
  datatype Response<+B> = Response(status: int, body: B)
}
