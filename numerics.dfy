/** The arithmetic helpers of the training-load engine: `clamp`, `Math.round`
    and `toFixed`, over ideal real numbers. */
module Numerics {

  function Min(a: real, b: real): real { if a <= b then a else b }

  function Max(a: real, b: real): real { if a >= b then a else b }

  /** `clamp(x, lo, hi) = Math.max(lo, Math.min(hi, x))`. */
  function Clamp(x: real, lo: real, hi: real): (r: real)
    ensures lo <= hi ==> lo <= r <= hi
    ensures lo <= x <= hi ==> r == x
    ensures x <= lo ==> r == lo
    ensures lo <= hi <= x ==> r == hi
  {
    Max(lo, Min(hi, x))
  }

  /** `Math.round(x)`: the integer nearest to x, halves rounded upward. */
  function Round(x: real): (r: int)
    ensures x - 0.5 < r as real <= x + 0.5
  {
    (x + 0.5).Floor
  }

  lemma RoundOfInteger(n: int)
    ensures Round(n as real) == n
  {
  }

  lemma RoundMonotone(x: real, y: real)
    requires x <= y
    ensures Round(x) <= Round(y)
  {
  }

  /** Rounding keeps a value inside integer bounds it was already inside. */
  lemma RoundWithin(x: real, lo: int, hi: int)
    requires lo as real <= x <= hi as real
    ensures lo <= Round(x) <= hi
  {
  }

  /** The numbers of decimals the engine rounds to with `toFixed`. */
  datatype Places = OneDecimal | TwoDecimals | ThreeDecimals

  function Scale(k: Places): real {
    match k
    case OneDecimal => 10.0
    case TwoDecimals => 100.0
    case ThreeDecimals => 1000.0
  }

  /** x is a whole number of units 1/Scale(k), i.e. it has at most k decimals. */
  predicate HasDecimals(x: real, k: Places) {
    (x * Scale(k)).Floor as real == x * Scale(k)
  }

  /** `parseFloat(x.toFixed(k))` over ideal reals: the nearest multiple of
      1/Scale(k), ties rounded away from zero as `toFixed` does. */
  function RoundTo(x: real, k: Places): (r: real)
    ensures HasDecimals(r, k)
    ensures -0.5 / Scale(k) <= r - x <= 0.5 / Scale(k)
    ensures 0.0 <= x ==> 0.0 <= r
  {
    var n := if x >= 0.0 then Round(x * Scale(k)) else -Round(-x * Scale(k));
    RoundToFacts(x, k, n);
    n as real / Scale(k)
  }

  lemma RoundToFacts(x: real, k: Places, n: int)
    requires -0.5 <= n as real - x * Scale(k) <= 0.5
    requires 0.0 <= x ==> 0 <= n
    ensures HasDecimals(n as real / Scale(k), k)
    ensures -0.5 / Scale(k) <= n as real / Scale(k) - x <= 0.5 / Scale(k)
    ensures 0.0 <= n as real / Scale(k)  || x < 0.0
  {
    match k
    case OneDecimal =>
      assert (n as real / 10.0) * 10.0 == n as real;
    case TwoDecimals =>
      assert (n as real / 100.0) * 100.0 == n as real;
    case ThreeDecimals =>
      assert (n as real / 1000.0) * 1000.0 == n as real;
  }

  /** Rounding to k decimals keeps a value of [0,1] in [0,1] (the clamped
      metrics `tl7_norm` and `injury_risk`). */
  lemma RoundToUnit(x: real, k: Places)
    requires 0.0 <= x <= 1.0
    ensures 0.0 <= RoundTo(x, k) <= 1.0
  {
    var s := Scale(k);
    var n := Round(x * s);
    assert RoundTo(x, k) == n as real / s;
    match k {
      case OneDecimal => RoundWithin(x * 10.0, 0, 10);
      case TwoDecimals => RoundWithin(x * 100.0, 0, 100);
      case ThreeDecimals => RoundWithin(x * 1000.0, 0, 1000);
    }
  }
}
