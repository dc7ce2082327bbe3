/**
 * Small helpers shared by every module: an optional value (Python's
 * `Optional[...]`/`None`) and the clamping idiom `max(lo, min(x, hi))` that
 * appears throughout the integration.
 */
module Common {

  datatype Option<T> = None | Some(value: T)

  /** A value or the error that a Python function would raise instead. */
  datatype Result<T, E> = Ok(value: T) | Err(error: E)

  /** A dynamically typed value as it appears in the integration's dictionaries and JSON files. */
  datatype Value =
    | Null
    | Bool(b: bool)
    | Int(i: int)
    | Float(f: real)
    | Str(s: string)
    | Dict(entries: map<string, Value>)
    | List(items: seq<Value>)

  /** `isinstance(v, (int, float))`; a Python bool is an int, so it passes too. */
  predicate IsNumber(v: Value)
  {
    v.Bool? || v.Int? || v.Float?
  }

  /** The numeric value of a number, with `True` as 1 and `False` as 0. */
  function NumberOf(v: Value): real
    requires IsNumber(v)
  {
    match v
    case Bool(b) => if b then 1.0 else 0.0
    case Int(i) => i as real
    case Float(f) => f
  }

  /** `max(lo, min(x, hi))` on reals. */
  function Clamp(x: real, lo: real, hi: real): (r: real)
    requires lo <= hi
    ensures lo <= r <= hi
    ensures lo <= x <= hi ==> r == x
    ensures x < lo ==> r == lo
    ensures x > hi ==> r == hi
  {
    if x < lo then lo else if x > hi then hi else x
  }

  function Max(a: real, b: real): (r: real)
    ensures r >= a && r >= b && (r == a || r == b)
  {
    if a >= b then a else b
  }

  function Min(a: real, b: real): (r: real)
    ensures r <= a && r <= b && (r == a || r == b)
  {
    if a <= b then a else b
  }

  /** Multiplying both sides by a non-negative factor keeps an inequality. */
  lemma MulMonotone(a: real, b: real, k: real)
    requires a <= b && k >= 0.0
    ensures a * k <= b * k
  {
    assert b * k - a * k == (b - a) * k;
  }

  /** Python's `int(x)` on a float: truncation toward zero. */
  function Trunc(x: real): (r: int)
    ensures x >= 0.0 ==> r as real <= x < r as real + 1.0
    ensures x < 0.0 ==> r as real - 1.0 < x <= r as real
  {
    if x >= 0.0 then x.Floor else -((-x).Floor)
  }

  /** The scale factors of `round(x, 1)`, `round(x, 2)` and `round(x, 3)`. */
  const OneDecimal: real := 10.0
  const TwoDecimals: real := 100.0
  const ThreeDecimals: real := 1000.0

  /** Python's `round` on an exact value: to the nearest integer, ties to even. */
  function RoundHalfEven(y: real): (k: int)
    ensures y - 0.5 <= k as real <= y + 0.5
  {
    var f := y.Floor;
    var frac := y - f as real;
    if frac < 0.5 then f
    else if frac > 0.5 then f + 1
    else if f % 2 == 0 then f
    else f + 1
  }

  lemma RoundHalfEvenMonotone(a: real, b: real)
    requires a <= b
    ensures RoundHalfEven(a) <= RoundHalfEven(b)
  {
  }

  /** `round(x, digits)` on an exact value, where `scale` is 10 to the power `digits`. */
  function Round(x: real, scale: real): real
    requires scale >= 1.0
  {
    RoundHalfEven(x * scale) as real / scale
  }

  /** Rounding moves a value by at most half a unit of the last digit. */
  lemma RoundClose(x: real, scale: real)
    requires scale >= 1.0
    ensures x - 0.5 / scale <= Round(x, scale) <= x + 0.5 / scale
  {
    var k := RoundHalfEven(x * scale) as real;
    assert x * scale - 0.5 <= k <= x * scale + 0.5;
    ScaleDown(x * scale - 0.5, k, scale);
    ScaleDown(k, x * scale + 0.5, scale);
    assert (x * scale - 0.5) / scale == x - 0.5 / scale;
    assert (x * scale + 0.5) / scale == x + 0.5 / scale;
  }

  /** Rounding a non-negative value gives a non-negative value. */
  lemma RoundNonNegative(x: real, scale: real)
    requires scale >= 1.0 && x >= 0.0
    ensures Round(x, scale) >= 0.0
  {
    RoundHalfEvenMonotone(0.0, x * scale);
  }

  /** Rounding never passes a bound that is itself a whole number of units of the last digit. */
  lemma RoundWithin(x: real, scale: real, lo: int, hi: int)
    requires scale >= 1.0
    requires lo as real / scale <= x <= hi as real / scale
    ensures lo as real / scale <= Round(x, scale) <= hi as real / scale
  {
    ScaleUp(lo as real, x, scale);
    ScaleUp2(x, hi as real, scale);
    RoundHalfEvenMonotone(lo as real, x * scale);
    RoundHalfEvenMonotone(x * scale, hi as real);
    var k := RoundHalfEven(x * scale);
    assert lo <= k <= hi;
    ScaleDown(lo as real, k as real, scale);
    ScaleDown(k as real, hi as real, scale);
  }

  lemma ScaleUp(a: real, x: real, p: real)
    requires p > 0.0 && a / p <= x
    ensures a <= x * p
  {
    assert a == (a / p) * p;
  }

  lemma ScaleUp2(x: real, b: real, p: real)
    requires p > 0.0 && x <= b / p
    ensures x * p <= b
  {
    assert b == (b / p) * p;
  }

  lemma ScaleDown(a: real, b: real, p: real)
    requires p > 0.0 && a <= b
    ensures a / p <= b / p
  {
  }

  /** Some member of a non-empty set. */
  ghost function Pick<T>(s: set<T>): (x: T)
    requires s != {}
    ensures x in s
  {
    assert exists y :: y in s by {
      if forall y :: y !in s {
        assert false;
      }
    }
    var y :| y in s;
    y
  }
}
