/** Small value types shared by every part of the checkout model: an optional
    value for JavaScript's `undefined`/`null`, JavaScript numbers as they can
    arrive from an SDK or a JSON body, and JavaScript truthiness on strings. */
module Base {

  datatype Option<+T> = None | Some(value: T) {
    function GetOr(default: T): T {
      match this
      case Some(v) => v
      case None => default
    }
  }

  /** A JavaScript number: a finite value, or one of the three non-finite ones. */
  datatype JsNum = Finite(value: real) | NaN | PosInfinity | NegInfinity {

    /** `Number.isFinite(n)` */
    predicate IsFinite() {
      Finite?
    }

    /** `n >= x` for a finite bound `x` (false for NaN, true for +Infinity). */
    predicate AtLeast(x: real) {
      (Finite? && value >= x) || PosInfinity?
    }

    /** `n <= x` for a finite bound `x` (false for NaN, true for -Infinity). */
    predicate AtMost(x: real) {
      (Finite? && value <= x) || NegInfinity?
    }

    /** `Boolean(n)`: everything except 0 and NaN. */
    predicate Truthy() {
      !NaN? && !(Finite? && value == 0.0)
    }
  }

  /** `Number(x)` where `x` may be `undefined`: undefined becomes NaN. */
  function ToNumber(x: Option<JsNum>): (n: JsNum)
    ensures x.None? ==> n.NaN?
    ensures x.Some? ==> n == x.value
  {
    match x
    case None => NaN
    case Some(v) => v
  }

  /** JavaScript truthiness of an optional string: present and non-empty. */
  predicate Present(s: Option<string>) {
    s.Some? && s.value != ""
  }

  /** `s ? String(s) : undefined`: keeps a value only when it is truthy. */
  function Truthy(s: Option<string>): (r: Option<string>)
    ensures r.Some? <==> Present(s)
    ensures r.Some? ==> r == s
  {
    if Present(s) then s else None
  }

  /** `a || b` on optional strings. */
  function OrElse(a: Option<string>, b: Option<string>): (r: Option<string>)
    ensures Present(a) ==> r == a
    ensures !Present(a) ==> r == b
  {
    if Present(a) then a else b
  }

  /** `String(s || '')`: the value when truthy, the empty string otherwise. */
  function OrEmpty(s: Option<string>): (r: string)
    ensures Present(s) ==> r == s.value
    ensures !Present(s) ==> r == ""
  {
    if Present(s) then s.value else ""
  }
}
