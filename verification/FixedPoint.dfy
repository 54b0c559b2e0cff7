// 18-decimal fixed point as the lending pallet uses it, over unbounded naturals.
// A fixed-point value is the natural number it stores, scaled by D.

module FixedPoint {

  /** The scaling factor of the fixed-point type; also the value one. */
  const D: nat := 1_000_000_000_000_000_000

  /** Cumulative interest indices are divisors, so they are never zero. */
  type Index = n: nat | 1 <= n witness 1

  /** The operator `*` between two fixed-point values. */
  function Mul(a: nat, b: nat): nat {
    a * b / D
  }

  /** The operator `/` between two fixed-point values. */
  function Div(a: nat, b: nat): nat
    requires b > 0
  {
    a * D / b
  }

  /** `saturating_mul_int`: scale an integer amount by a fixed-point factor. */
  function MulInt(a: nat, n: nat): nat {
    a * n / D
  }

  /** `saturating_from_rational`. */
  function FromRational(n: nat, d: nat): nat
    requires d > 0
  {
    n * D / d
  }

  /** `saturating_from_integer`. */
  function FromInteger(n: nat): nat {
    n * D
  }

  // ---------- floor division ----------

  lemma FloorBounds(a: int, b: int)
    requires b > 0
    ensures (a / b) * b <= a < (a / b) * b + b
  {
  }

  /** The quotient is the greatest q with q * b <= a. */
  lemma FloorAtLeast(a: int, b: int, q: int)
    requires b > 0 && q * b <= a
    ensures q <= a / b
  {
    FloorBounds(a, b);
    if a / b < q {
      MulLe(a / b + 1, q, b);
      assert false;
    }
  }

  lemma FloorIs(a: int, b: int, q: int)
    requires b > 0
    ensures q <= a / b <==> q * b <= a
  {
    FloorBounds(a, b);
    if q * b <= a {
      FloorAtLeast(a, b, q);
    } else if q <= a / b {
      MulLe(q, a / b, b);
    }
  }

  lemma FloorAtMost(a: int, b: int, q: int)
    requires b > 0 && a < (q + 1) * b
    ensures a / b <= q
  {
    FloorBounds(a, b);
    if a / b > q {
      MulLe(q + 1, a / b, b);
      assert false;
    }
  }

  lemma FloorLe(a: int, a': int, b: int)
    requires b > 0 && a <= a'
    ensures a / b <= a' / b
  {
    FloorBounds(a, b);
    FloorAtLeast(a', b, a / b);
  }

  /** Flooring a sum loses at most one unit against flooring the summands. */
  lemma FloorSum(x: int, y: int, b: int)
    requires b > 0
    ensures x / b + y / b <= (x + y) / b <= x / b + y / b + 1
  {
    FloorBounds(x, b);
    FloorBounds(y, b);
    FloorAtLeast(x + y, b, x / b + y / b);
    FloorAtMost(x + y, b, x / b + y / b + 1);
  }

  lemma MulLe(x: int, y: int, z: int)
    requires x <= y && 0 <= z
    ensures x * z <= y * z
    ensures z * x <= z * y
  {
  }

  lemma MulLt(x: int, y: int, z: int)
    requires x < y && 0 < z
    ensures x * z < y * z
    ensures z * x < z * y
  {
  }

  lemma CancelLe(x: int, y: int, z: int)
    requires x * z <= y * z && 0 < z
    ensures x <= y
  {
    if y < x {
      MulLt(y, x, z);
    }
  }

  lemma Reorder(x: int, y: int, z: int)
    ensures x * y * z == x * z * y
  {
    assert x * y * z == x * (y * z);
    assert x * z * y == x * (z * y);
  }

  lemma RealLe(x: real, y: real, z: real)
    requires x <= y && 0.0 <= z
    ensures x * z <= y * z
  {
  }

  lemma AtLeastOne(x: real, y: real)
    requires x >= 1.0 && y >= 1.0
    ensures x * y >= 1.0
  {
    RealLe(1.0, x, y);
  }

  // ---------- a chain of three floors ----------

  /** x at the ratio p / s and then u / v, floored at each step with d as one. */
  lemma ThreeFloorsAtMost(p: nat, s: nat, u: nat, v: nat, x: nat, d: nat, r: nat, q: nat, g: nat)
    requires d > 0 && r * s <= p * d && q * v <= r * u && g * d <= q * x
    ensures v * s * g <= u * x * p
  {
    MulLe(g * d, q * x, v * s);
    SwapFactors(v, s, q, x);
    MulLe(q * v, r * u, x * s);
    SwapFactors(s, x, r, u);
    MulLe(r * s, p * d, u * x);
    CancelLe(v * s * g, u * x * p, d) by {
      Associate(v * s, g, d);
      Associate(u * x, p, d);
    }
  }

  lemma ThreeFloorsLose(p: nat, s: nat, u: nat, v: nat, x: nat, d: nat, r: nat, q: nat, g: nat)
    requires s > 0 && v > 0 && p * d < (r + 1) * s && r * u < (q + 1) * v && q * x < (g + 1) * d
    ensures u * x * (p * d) < v * s * ((g + 1) * d) + s * x * (u + v)
  {
    MulLe(p * d, (r + 1) * s, u * x);
    SwapFactors(u, x, r + 1, s);
    assert (r + 1) * u <= q * v + (u + v);
    MulLe((r + 1) * u, q * v + (u + v), s * x);
    Spread(s * x, q * v, u + v);
    SwapFactors(x, s, q, v);
    MulLt(0, s, v);
    MulLt(q * x, (g + 1) * d, v * s);
  }

  lemma SwapFactors(a: int, b: int, c: int, d: int)
    ensures a * b * (c * d) == d * b * (c * a)
  {
  }

  lemma Associate(a: int, b: int, c: int)
    ensures a * b * c == a * (b * c)
  {
  }

  lemma Spread(a: int, b: int, c: int)
    ensures a * (b + c) == a * b + a * c
  {
  }

  // ---------- the fixed-point operations ----------

  lemma MulOne(a: nat)
    ensures Mul(a, D) == a && Mul(D, a) == a && MulInt(D, a) == a
  {
  }

  lemma DivSelf(i: nat)
    requires i > 0
    ensures Div(i, i) == D
  {
    FloorAtLeast(i * D, i, D);
    FloorAtMost(i * D, i, D);
  }

  /** A factor of at least one never shrinks what it scales. */
  lemma Grows(m: nat, a: nat)
    requires D <= m
    ensures a <= Mul(a, m) && a <= MulInt(m, a)
  {
    MulLe(D, m, a);
    FloorAtLeast(a * m, D, a);
    assert a * m == m * a;
  }

  lemma RatioAtLeastOne(j: nat, i: nat)
    requires 0 < i <= j
    ensures D <= Div(j, i)
  {
    MulLe(i, j, D);
    FloorAtLeast(j * D, i, D);
  }

  lemma MulIntLe(p: nat, a: nat, b: nat)
    requires a <= b
    ensures MulInt(p, a) <= MulInt(p, b)
  {
    MulLe(a, b, p);
    FloorLe(p * a, p * b, D);
  }

  lemma MulLeLeft(a: nat, b: nat, p: nat)
    requires a <= b
    ensures Mul(a, p) <= Mul(b, p) && Mul(p, a) <= Mul(p, b)
  {
    MulLe(a, b, p);
    FloorLe(a * p, b * p, D);
    FloorLe(p * a, p * b, D);
  }

  /** Valuing two amounts separately loses at most one unit against valuing their sum. */
  lemma MulIntSum(p: nat, a: nat, b: nat)
    ensures MulInt(p, a) + MulInt(p, b) <= MulInt(p, a + b) <= MulInt(p, a) + MulInt(p, b) + 1
  {
    assert p * (a + b) == p * a + p * b;
    FloorSum(p * a, p * b, D);
  }

  lemma ElapsedIsExact(rate: nat, t: nat)
    ensures Mul(rate, FromInteger(t)) == rate * t
  {
    assert rate * (t * D) == (rate * t) * D;
  }
}
