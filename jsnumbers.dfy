// JavaScript numbers as far as the core compares and rounds them: NaN, the
// two infinities and finite values (taken as exact reals).
module JsNumbers {
  import opened Wrappers

  datatype JsNumber = NaN | PosInf | NegInf | Finite(value: real)

  /** `a < b`: false whenever either side is NaN. */
  predicate Lt(a: JsNumber, b: JsNumber)
  {
    match (a, b)
    case (Finite(x), Finite(y)) => x < y
    case (NegInf, Finite(_)) => true
    case (NegInf, PosInf) => true
    case (Finite(_), PosInf) => true
    case _ => false
  }

  /** `a > b`. */
  predicate Gt(a: JsNumber, b: JsNumber)
  {
    Lt(b, a)
  }

  lemma NaNIsUnordered(x: JsNumber)
    ensures !Lt(NaN, x) && !Lt(x, NaN)
  {
  }

  /** `Math.round` of a finite value: the nearest integer, halves upward. */
  function Round(x: real): (r: int)
    ensures r as real - 1.0 / 2.0 <= x < r as real + 1.0 / 2.0
  {
    (x + 1.0 / 2.0).Floor
  }

  /** `Math.floor`. */
  function Floor(x: real): (r: int)
    ensures r as real <= x < r as real + 1.0
  {
    x.Floor
  }

  /** What `JSON.stringify` writes for a number: the value when it is
      finite, `null` (here `None`) for NaN and the infinities. */
  function ToJson(x: JsNumber): (r: Option<real>)
    ensures r.None? <==> !x.Finite?
    ensures x.Finite? ==> r == Some(x.value)
  {
    if x.Finite? then Some(x.value) else None
  }
}
