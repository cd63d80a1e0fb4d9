/**
 * The two ways the views turn a percentage into an integer: `Math.round`
 * (nearest integer, ties towards +infinity) and `toFixed(0)` (nearest
 * integer, ties away from zero).  Values are exact reals; binary
 * floating-point rounding is not modelled.
 */
module JsNumber {

  /** `Math.round(x)` */
  function Round(x: real): (n: int)
    ensures n as real - 0.5 <= x < n as real + 0.5
  {
    (x + 0.5).Floor
  }

  /** `x.toFixed(0)` read back as a number. */
  function ToFixed0(x: real): (n: int)
    ensures n as real - 0.5 <= x <= n as real + 0.5
    ensures x >= 0.0 ==> 0 <= n
  {
    var m := if x < 0.0 then -x else x;
    var n := if m - m.Floor as real < 0.5 then m.Floor else m.Floor + 1;
    if x < 0.0 then -n else n
  }

  /** On the non-negative percentages both views show, the two roundings agree. */
  lemma RoundAgreesWithToFixed(x: real)
    requires 0.0 <= x
    ensures Round(x) == ToFixed0(x)
  {
    var f := x.Floor;
    if x - f as real < 0.5 {
      assert f as real <= x + 0.5 < (f + 1) as real;
    } else {
      assert (f + 1) as real <= x + 0.5 < (f + 2) as real;
    }
  }
}
