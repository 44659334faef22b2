/** C# nullable values (`decimal?`, `string?`, `Guid?`) and the lifted
    operators the service code relies on: `null * m` is `null`, `x ?? d`
    picks the default, and an ordered comparison against `null` is
    `false`. */
module Nullable {

  datatype Option<+T> = None | Some(value: T) {
    /** The C# `??` operator. */
    function OrElse(default: T): (r: T)
      ensures Some? ==> r == value
      ensures None? ==> r == default
    {
      match this
      case Some(v) => v
      case None => default
    }
  }

  /** `a * m` on a `decimal?`: null stays null. */
  function LiftMul(a: Option<real>, m: real): (r: Option<real>)
    ensures r.Some? <==> a.Some?
    ensures a.Some? ==> r.value == a.value * m
  {
    match a
    case None => None
    case Some(x) => Some(x * m)
  }

  /** `a ?? 0`. */
  function OrZero(a: Option<real>): (r: real)
    ensures a.Some? ==> r == a.value
    ensures a.None? ==> r == 0.0
  {
    a.OrElse(0.0)
  }

  /** `a >= k` on a `decimal?`: false when `a` is null. */
  predicate LiftGe(a: Option<real>, k: real)
  {
    a.Some? && a.value >= k
  }
}
