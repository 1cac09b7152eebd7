/** JavaScript numbers as the frontend reads them out of untyped JSON and
    computes with them: a number is present, or it is `NaN` / `undefined`,
    both of which are absent here. The `||` operator picks its right operand
    when the left one is falsy: absent, `NaN` or 0.
 */
module JsValues {
  import opened Wrappers

  /** A JavaScript number that may be `NaN` or missing. */
  type Num = Option<real>

  /** The truthiness of a number: everything but 0, `NaN` and `undefined`. */
  predicate Truthy(x: Num) {
    x.Some? && x.value != 0.0
  }

  // NaN arithmetic: an absent operand makes the result absent, as NaN
  // does in IEEE arithmetic.

  function Plus(a: Num, b: Num): Num {
    if a.Some? && b.Some? then Some(a.value + b.value) else None
  }

  function Minus(a: Num, b: Num): Num {
    if a.Some? && b.Some? then Some(a.value - b.value) else None
  }

  function Times(a: Num, c: real): Num {
    if a.Some? then Some(a.value * c) else None
  }

  function DivideBy(a: Num, d: real): Num
    requires d != 0.0
  {
    if a.Some? then Some(a.value / d) else None
  }

  /** The whole number nearest to `y`, a tie going away from zero. */
  function RoundHalfAway(y: real): (n: int)
    ensures -0.5 <= n as real - y <= 0.5
    ensures y >= 0.0 ==> n >= 0
    ensures y <= 0.0 ==> n <= 0
  {
    if y < 0.0 then -((0.5 - y).Floor) else (y + 0.5).Floor
  }

  /** `v` is a whole number of `1/scale` units. */
  predicate WholeUnits(v: real, scale: real)
  {
    (v * scale).Floor as real == v * scale
  }

  /** `n` units of `1/scale`. */
  function FromUnits(n: int, scale: real): (r: real)
    requires scale > 0.0
    ensures r * scale == n as real
    ensures WholeUnits(r, scale)
  {
    var r := n as real / scale;
    assert (n as real).Floor == n;
    r
  }

  /** `x.toFixed(d)` read back as a number, with `scale` = 10^d: the
      nearest whole number of `1/scale` units, a tie going away from zero.
      The result is a whole number of units within half a unit of `x`. */
  function ToFixed(x: real, scale: real): (r: real)
    requires scale > 0.0
    ensures WholeUnits(r, scale)
    ensures -0.5 <= (r - x) * scale <= 0.5
  {
    var n := RoundHalfAway(x * scale);
    var r := FromUnits(n, scale);
    assert (r - x) * scale == r * scale - x * scale;
    r
  }

  /** `toFixed` on a number that may be NaN, which stays NaN. */
  function ToFixedNum(x: Num, scale: real): (r: Num)
    requires scale > 0.0
    ensures r.Some? <==> x.Some?
    ensures x.Some? ==> r.value == ToFixed(x.value, scale)
  {
    if x.Some? then Some(ToFixed(x.value, scale)) else None
  }

  /** `a || b` on two possibly missing numbers. */
  function Or(a: Num, b: Num): (r: Num)
    ensures Truthy(a) ==> r == a
    ensures !Truthy(a) ==> r == b
    ensures Truthy(r) <==> Truthy(a) || Truthy(b)
  {
    if Truthy(a) then a else b
  }

  /** `x || fallback` with a number literal as the fallback. */
  function OrElse(x: Num, fallback: real): (r: real)
    ensures Truthy(x) ==> r == x.value
    ensures !Truthy(x) ==> r == fallback
  {
    if Truthy(x) then x.value else fallback
  }

  /** A chain of `||` ending in a literal picks the first truthy operand. */
  lemma OrElseChain(a: Num, b: Num, fallback: real)
    ensures OrElse(Or(a, b), fallback) ==
      if Truthy(a) then a.value else if Truthy(b) then b.value else fallback
  {
  }

  /** The outcome of a `fetch` followed by `response.json()`: an exception
      anywhere on the way (network failure, malformed JSON, a property read
      on a `null` body), a response whose `ok` flag is false, or a parsed
      body. */
  datatype Response<T> = Threw | NotOk | Ok(body: T)

  /** Milliseconds in a day, `24 * 60 * 60 * 1000`. */
  const DayMs: int := 86400000

  /** Division with remainder by a positive divisor has one answer; with
      such a divisor `Math.floor(x / d)` is `x / d`. */
  lemma DivModUnique(x: int, d: int, q: int, r: int)
    requires d > 0 && 0 <= r < d && x == q * d + r
    ensures x / d == q && x % d == r
  {
    var q0, r0 := x / d, x % d;
    assert x == q0 * d + r0 && 0 <= r0 < d;
    var k := q - q0;
    assert k * d == r0 - r by {
      assert q * d == q0 * d + k * d;
    }
  }
}
