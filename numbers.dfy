/** Exact-arithmetic helpers shared by the calculators: integer powers,
    rounding, sums, present values and decimal rendering of naturals. */
module Numbers {

  datatype Option<+T> = None | Some(value: T)

  /** `Math.pow(b, n)` for a whole exponent. */
  function Pow(b: real, n: nat): real
  {
    if n == 0 then 1.0 else b * Pow(b, n - 1)
  }

  lemma {:induction false} PowPositive(b: real, n: nat)
    requires b > 0.0
    ensures Pow(b, n) > 0.0
  {
    if n > 0 {
      PowPositive(b, n - 1);
    }
  }

  /** A larger positive base gives a larger power. */
  lemma {:induction false} PowMonotone(b1: real, b2: real, n: nat)
    requires 0.0 < b1 <= b2
    ensures 0.0 < Pow(b1, n) <= Pow(b2, n)
  {
    if n > 0 {
      PowMonotone(b1, b2, n - 1);
      var p1, p2 := Pow(b1, n - 1), Pow(b2, n - 1);
      assert b1 * p1 <= b2 * p1 <= b2 * p2;
    }
  }

  /** Multiplying by a positive factor keeps a strict order. */
  lemma MulStrict(a: real, b: real, m: real)
    requires a < b && m > 0.0
    ensures a * m < b * m
  {
    var d := b - a;
    assert d * m > 0.0;
    assert b * m == a * m + d * m;
  }

  lemma DivMul(x: real, y: real)
    requires y != 0.0
    ensures (x / y) * y == x
  {
  }

  function Abs(x: real): real
  {
    if x < 0.0 then -x else x
  }

  /** `Math.floor`: the greatest integer not above `x`. */
  function Floor(x: real): (n: int)
    ensures n as real <= x < n as real + 1.0
  {
    x.Floor
  }

  /** `Math.ceil`: the least integer not below `x`. */
  function Ceil(x: real): (n: int)
    ensures n as real - 1.0 < x <= n as real
  {
    -((-x).Floor)
  }

  /** Sum of a list, accumulated from the left. */
  function Sum(xs: seq<real>): real
  {
    if xs == [] then 0.0 else Sum(xs[..|xs| - 1]) + xs[|xs| - 1]
  }

  /** The present value of `flows` discounted by `base` per period, the first
      flow falling due after one period: the sum of flows[i] / base^(i+1). */
  function PresentValue(flows: seq<real>, base: real): real
    requires base > 0.0
  {
    if flows == [] then 0.0
    else
      PowPositive(base, |flows|);
      PresentValue(flows[..|flows| - 1], base) + flows[|flows| - 1] / Pow(base, |flows|)
  }

  /** With no discounting the present value is the plain total. */
  lemma {:induction false} PresentValueUndiscounted(flows: seq<real>)
    ensures PresentValue(flows, 1.0) == Sum(flows)
  {
    if flows != [] {
      PresentValueUndiscounted(flows[..|flows| - 1]);
      PowOne(|flows|);
    }
  }

  lemma {:induction false} PowOne(n: nat)
    ensures Pow(1.0, n) == 1.0
  {
    if n > 0 {
      PowOne(n - 1);
    }
  }

  /** Dividing a non-negative amount by a larger positive divisor gives less. */
  lemma DivAntitone(f: real, p1: real, p2: real)
    requires f >= 0.0 && 0.0 < p1 <= p2
    ensures f / p2 <= f / p1
  {
    assert f / p1 - f / p2 == f * (p2 - p1) / (p1 * p2);
    assert f * (p2 - p1) >= 0.0;
    assert p1 * p2 > 0.0;
  }

  /** For non-negative flows a higher discount base never raises the
      present value. */
  lemma {:induction false} PresentValueAntitone(flows: seq<real>, b1: real, b2: real)
    requires 0.0 < b1 <= b2
    requires forall i :: 0 <= i < |flows| ==> flows[i] >= 0.0
    ensures PresentValue(flows, b2) <= PresentValue(flows, b1)
  {
    if flows != [] {
      var n := |flows|;
      PresentValueAntitone(flows[..n - 1], b1, b2);
      PowMonotone(b1, b2, n);
      DivAntitone(flows[n - 1], Pow(b1, n), Pow(b2, n));
    }
  }

  /** Number rounded half away from zero, as `Number(x.toFixed(0))` does. */
  function RoundWhole(x: real): (n: int)
    ensures Abs(x - n as real) <= 0.5
    // a tie goes away from zero
    ensures Abs(x - n as real) == 0.5 ==> Abs(n as real) > Abs(x)
  {
    if x >= 0.0 then Floor(x + 0.5) else -Floor(-x + 0.5)
  }

  function DigitChar(d: nat): (c: char)
    requires d < 10
    ensures '0' <= c <= '9'
  {
    ['0', '1', '2', '3', '4', '5', '6', '7', '8', '9'][d]
  }

  /** Decimal rendering of a natural number, as a template literal shows it. */
  function NatToString(n: nat): (s: string)
    ensures |s| > 0
    ensures forall i :: 0 <= i < |s| ==> '0' <= s[i] <= '9'
    ensures n < 10 <==> |s| == 1
  {
    if n < 10 then [DigitChar(n)] else NatToString(n / 10) + [DigitChar(n % 10)]
  }
}
