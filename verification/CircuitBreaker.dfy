// The trip test of internal/infrastructure/circuit/breaker.go: a double-precision quotient
// compared with the double-precision constant 0.6.
module CircuitBreaker {

  const TRIP_MIN_REQUESTS: nat := 3
  const UINT32: nat := 0x1_0000_0000

  /** Unit roundoff of binary64. */
  const U: real := 1.0 / (0x20_0000_0000_0000 as real)

  /** What the results below assume of rounding to binary64 (section 4.3.1 of IEEE 754-2019):
      it is monotone, and in the range of quotients of 32-bit counts, which holds no subnormal,
      its relative error is at most the unit roundoff. */
  ghost predicate Rounding(rnd: real -> real) {
    && (forall x, y :: x <= y ==> rnd(x) <= rnd(y))
    && (forall x :: x == 0.0 || InRange(x) ==> (1.0 - U) * x <= rnd(x) <= (1.0 + U) * x)
  }

  predicate InRange(x: real) {
    1.0 / (UINT32 as real) <= x <= UINT32 as real
  }

  datatype Double = NaN | Infinite | Finite(v: real)

  /** Both counts convert exactly, so the quotient is rounded once; division by zero gives
      an infinity or a NaN, never a panic. */
  function Quotient(rnd: real -> real, failures: nat, requests: nat): Double {
    if requests != 0 then Finite(rnd(failures as real / requests as real))
    else if failures == 0 then NaN
    else Infinite
  }

  predicate AtLeast(q: Double, bound: real) {
    match q
    case NaN => false
    case Infinite => true
    case Finite(v) => v >= bound
  }

  predicate ReadyToTrip(rnd: real -> real, failures: nat, requests: nat) {
    var ratio := Quotient(rnd, failures, requests);
    requests >= TRIP_MIN_REQUESTS && AtLeast(ratio, rnd(0.6))
  }

  /** Comparing two quantities scaled by the same positive factor. */
  lemma ScaledOrder(a: real, b: real, r: real)
    requires r > 0.0
    ensures a * r <= b * r <==> a <= b
    ensures a * r < b * r <==> a < b
  {
    if a < b { assert (b - a) * r > 0.0; }
    if b < a { assert (a - b) * r > 0.0; }
  }

  lemma QuotientBelow(f: real, r: real, q: real, c: real, b: real)
    requires r > 0.0 && q * r == f && b * r == c && f <= c
    ensures q <= b
  {
    ScaledOrder(q, b, r);
  }

  lemma QuotientOrder(f: nat, r: nat)
    requires r > 0
    ensures 5 * f >= 3 * r <==> f as real / r as real >= 0.6
    ensures 5 * f < 3 * r ==> f as real / r as real <= 0.6 - 0.2 / r as real
  {
    var q := f as real / r as real;
    assert q * r as real == f as real;
    ScaledOrder(0.6, q, r as real);
    if 5 * f < 3 * r {
      var g := 0.2 / r as real;
      assert g * r as real == 0.2;
      var b := 0.6 - g;
      assert b * r as real == 0.6 * r as real - 0.2;
      assert (5 * f) as real <= (3 * r - 1) as real;
      assert 5.0 * f as real <= 3.0 * r as real - 1.0;
      QuotientBelow(f as real, r as real, q, 0.6 * r as real - 0.2, b);
    }
  }

  /** Below the ratio, the gap to 3/5 is wider than both rounding errors together. */
  lemma GapBeatsRounding(q: real, r: nat)
    requires 0 < r < UINT32
    requires 0.0 <= q <= 0.6 - 0.2 / r as real
    ensures (1.0 + U) * q < (1.0 - U) * 0.6
  {
    var g := 0.2 / r as real;
    assert g * r as real == 0.2;
    var g0 := 0.2 / UINT32 as real;
    assert g0 * r as real < g0 * UINT32 as real;
    ScaledOrder(g0, g, r as real);
    assert U * q <= U * 0.6;
  }

  lemma QuotientInRange(f: nat, r: nat)
    requires 0 < f < UINT32 && 0 < r < UINT32
    ensures InRange(f as real / r as real)
  {
    var q := f as real / r as real;
    assert q * r as real == f as real;
    var lo, hi := 1.0 / UINT32 as real, UINT32 as real;
    assert lo * r as real <= lo * hi == 1.0;
    ScaledOrder(lo, q, r as real);
    assert lo <= q;
    assert hi * r as real >= hi;
    ScaledOrder(q, hi, r as real);
    assert q <= hi;
  }

  /** For all 32-bit counts the floating-point test is the exact integer test. */
  lemma TripTestIsExact(rnd: real -> real, failures: nat, requests: nat)
    requires Rounding(rnd)
    requires failures < UINT32 && requests < UINT32
    ensures ReadyToTrip(rnd, failures, requests) <==> requests >= 3 && 5 * failures >= 3 * requests
  {
    if requests >= 3 {
      var q := failures as real / requests as real;
      QuotientOrder(failures, requests);
      assert InRange(0.6);
      if 5 * failures >= 3 * requests {
        assert rnd(0.6) <= rnd(q);
      } else {
        if failures > 0 { QuotientInRange(failures, requests); } else { assert q == 0.0; }
        GapBeatsRounding(q, requests);
        assert rnd(q) <= (1.0 + U) * q;
        assert (1.0 - U) * 0.6 <= rnd(0.6);
      }
    }
  }
}
