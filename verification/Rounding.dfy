/** Integer division as the planners use it: floors, ceilings, nearest cents and quantity steps.
    Each operation is pinned down by an adjunction (when is the result at most x?), which is all
    that the sizing and risk proofs need. */
module Rounding {

  function Min(a: int, b: int): int { if a < b then a else b }

  function Max(a: int, b: int): int { if a < b then b else a }

  function Abs(a: int): nat { if a < 0 then -a else a }

  /** `floorRatio`: a product over a denominator, rounded down. */
  function FloorRatio(left: nat, right: nat, denominator: nat): nat
    requires denominator > 0
  {
    Floor(left * right, denominator)
  }

  /** `ceilRatio`: a product over a denominator, rounded up. */
  function CeilRatio(left: nat, right: nat, denominator: nat): nat
    requires denominator > 0
  {
    Ceil(left * right, denominator)
  }

  function Floor(n: nat, d: nat): nat
    requires d > 0
  {
    n / d
  }

  function Ceil(n: nat, d: nat): nat
    requires d > 0
  {
    (n + d - 1) / d
  }

  /** `floorSignedRatio`, branch for branch. */
  function FloorSigned(n: int, d: nat): int
    requires d > 0
  {
    if n >= 0 then n / d else var up: int := Ceil(-n, d); -up
  }

  /** `Math.round(n / d)`: nearest integer, halves upwards. */
  function Round(n: int, d: nat): int
    requires d > 0
  {
    (2 * n + d) / (2 * d)
  }

  lemma {:induction false} MulOrder(x: int, y: int, d: nat)
    requires d > 0
    ensures x <= y <==> x * d <= y * d
    ensures x < y <==> x * d < y * d
  {
    assert (y - x) * d == y * d - x * d;
  }

  lemma {:induction false} DivBounds(n: int, d: nat)
    requires d > 0
    ensures (n / d) * d <= n < (n / d) * d + d
  {}

  /** x is at most the floor exactly when x denominators fit. */
  lemma {:induction false} FloorAdjunction(x: int, n: int, d: nat)
    requires d > 0
    ensures x <= n / d <==> x * d <= n
  {
    var q := n / d;
    DivBounds(n, d);
    MulOrder(x, q, d);
    MulOrder(q + 1, x, d);
    assert (q + 1) * d == q * d + d;
  }

  /** The ceiling is at most x exactly when x denominators cover. */
  lemma {:induction false} CeilAdjunction(n: nat, d: nat, x: int)
    requires d > 0
    ensures Ceil(n, d) <= x <==> n <= x * d
  {
    FloorAdjunction(x + 1, n + d - 1, d);
    assert (x + 1) * d == x * d + d;
  }

  lemma {:induction false} CeilBounds(n: nat, d: nat)
    requires d > 0
    ensures Ceil(n, d) * d - d < n <= Ceil(n, d) * d
  {
    DivBounds(n + d - 1, d);
  }

  /** The signed floor is the floor: x is at most it exactly when x denominators fit. */
  lemma {:induction false} SignedFloorAdjunction(x: int, n: int, d: nat)
    requires d > 0
    ensures x <= FloorSigned(n, d) <==> x * d <= n
  {
    if n >= 0 {
      FloorAdjunction(x, n, d);
    } else {
      CeilAdjunction(-n, d, -x);
      assert (-x) * d == -(x * d);
    }
  }

  /** Rounding to nearest is off by at most half a unit. */
  lemma {:induction false} RoundBounds(n: int, d: nat)
    requires d > 0
    ensures 2 * (Round(n, d) * d) - d <= 2 * n < 2 * (Round(n, d) * d) + d
  {
    var r := Round(n, d);
    DivBounds(2 * n + d, 2 * d);
    assert r * (2 * d) == 2 * (r * d);
  }

  lemma {:induction false} RoundIsMonotone(m: int, n: int, d: nat)
    requires d > 0 && m <= n
    ensures Round(m, d) <= Round(n, d)
  {
    DivBounds(2 * m + d, 2 * d);
    FloorAdjunction(Round(m, d), 2 * n + d, 2 * d);
  }

  lemma {:induction false} RoundExact(k: int, d: nat)
    requires d > 0
    ensures Round(k * d, d) == k
  {
    RoundBounds(k * d, d);
    var r := Round(k * d, d);
    MulOrder(r, k + 1, d);
    MulOrder(k - 1, r, d);
    assert (k + 1) * d == k * d + d && (k - 1) * d == k * d - d;
    if r >= k + 1 { MulOrder(k + 1, r, d); }
    if r <= k - 1 { MulOrder(r, k - 1, d); }
  }

  // ---------------------------------------------------------------- quantity steps

  /** The largest multiple of a step that is not above a value. */
  function RoundDownToStep(value: nat, step: nat): nat
    requires step > 0
  {
    (value / step) * step
  }

  predicate IsMultiple(value: int, step: nat)
    requires step > 0
  {
    value % step == 0
  }

  lemma {:induction false} MultipleWitness(value: int, step: nat) returns (k: int)
    requires step > 0 && IsMultiple(value, step)
    ensures value == k * step
  {
    k := value / step;
  }

  lemma {:induction false} ProductIsMultiple(k: int, step: nat)
    requires step > 0
    ensures IsMultiple(k * step, step)
  {
    var n := k * step;
    DivBounds(n, step);
    var q := n / step;
    FloorAdjunction(k, n, step);
    MulOrder(q, k, step);
  }

  /** Among the multiples of the step, being at most the value and at most its rounding are the same. */
  lemma {:induction false} StepAdjunction(q: nat, value: nat, step: nat)
    requires step > 0 && IsMultiple(q, step)
    ensures q <= RoundDownToStep(value, step) <==> q <= value
    ensures IsMultiple(RoundDownToStep(value, step), step) && RoundDownToStep(value, step) <= value
  {
    var k := MultipleWitness(q, step);
    ProductIsMultiple(value / step, step);
    DivBounds(value, step);
    FloorAdjunction(k, value, step);
    MulOrder(k, value / step, step);
  }

  // ---------------------------------------------------------------- gcd and lcm

  /** Euclid's algorithm as a specification. */
  function Gcd(a: nat, b: nat): nat
    decreases b
  {
    if b == 0 then a else Gcd(b, a % b)
  }

  /** The source's loop computes it. */
  method GreatestCommonDivisor(left: nat, right: nat) returns (g: nat)
    ensures g == Gcd(left, right)
  {
    var a, b := left, right;
    while b != 0
      invariant Gcd(a, b) == Gcd(left, right)
      decreases b
    {
      a, b := b, a % b;
    }
    g := a;
  }

  lemma {:induction false} CombinationStep(a: int, b: int, q: int, r: int, g: int, x: int, y: int, i: int, j: int)
    requires a == q * b + r && g == x * b + y * r && b == i * g && r == j * g
    ensures g == y * a + (x - q * y) * b
    ensures a == (q * i + j) * g
  {
    assert y * a == y * (q * b) + y * r;
    assert y * (q * b) == (q * y) * b;
    assert (x - q * y) * b == x * b - (q * y) * b;
    assert (q * i) * g == q * (i * g);
    assert (q * i + j) * g == (q * i) * g + j * g;
  }

  lemma {:induction false} Division(a: nat, b: nat) returns (q: nat, r: nat)
    requires b > 0
    ensures r == a % b && r < b && a == q * b + r
  {
    q, r := a / b, a % b;
  }

  /** Bezout: the gcd divides both numbers and is an integer combination of them. */
  lemma {:induction false} GcdCombination(a: nat, b: nat) returns (x: int, y: int, i: nat, j: nat)
    requires a > 0 || b > 0
    ensures Gcd(a, b) > 0
    ensures Gcd(a, b) == x * a + y * b
    ensures a == i * Gcd(a, b) && b == j * Gcd(a, b)
    decreases b
  {
    if b == 0 {
      x, y, i, j := 1, 0, 1, 0;
    } else {
      var q, r := Division(a, b);
      var x0, y0, i0, j0 := GcdCombination(b, r);
      CombinationStep(a, b, q, r, Gcd(a, b), x0, y0, i0, j0);
      x, y, i, j := y0, x0 - q * y0, q * i0 + j0, i0;
    }
  }

  /** `leastCommonMultiple` before its range test. */
  function Lcm(a: nat, b: nat): nat
    requires a > 0 && b > 0
  {
    ghost var _ := GcdPositive(a, b);
    (a / Gcd(a, b)) * b
  }

  ghost function GcdPositive(a: nat, b: nat): (u: ())
    requires a > 0 && b > 0
    ensures Gcd(a, b) > 0
    decreases b
  {
    if a % b == 0 then () else GcdPositive(b, a % b)
  }

  lemma {:induction false} MultipleOfProduct(n: int, i: nat, b: nat)
    requires i > 0 && b > 0 && i * b > 0 && IsMultiple(n, i * b)
    ensures IsMultiple(n, b)
  {
    var k := MultipleWitness(n, i * b);
    assert k * (i * b) == (k * i) * b;
    ProductIsMultiple(k * i, b);
  }

  lemma {:induction false} LcmShape(a: nat, b: nat) returns (x: int, y: int, i: nat, j: nat, g: nat)
    requires a > 0 && b > 0
    ensures g == Gcd(a, b) > 0 && g == x * a + y * b && a == i * g && b == j * g
    ensures i > 0 && j > 0 && Lcm(a, b) == i * b == j * a > 0
  {
    x, y, i, j := GcdCombination(a, b);
    g := Gcd(a, b);
    QuotientOfProduct(i, g);
    assert i > 0 && j > 0;
    assert i * (j * g) == j * (i * g);
  }

  /** A number is a multiple of both steps exactly when it is a multiple of their lcm. */
  lemma {:induction false} LcmIsLeast(a: nat, b: nat, n: int)
    requires a > 0 && b > 0
    ensures Lcm(a, b) > 0
    ensures IsMultiple(n, Lcm(a, b)) <==> IsMultiple(n, a) && IsMultiple(n, b)
  {
    hide Lcm, Gcd;
    var x, y, i, j, g := LcmShape(a, b);
    if IsMultiple(n, Lcm(a, b)) {
      MultipleOfProduct(n, i, b);
      MultipleOfProduct(n, j, a);
    }
    if IsMultiple(n, a) && IsMultiple(n, b) {
      var s := MultipleWitness(n, a);
      var t := MultipleWitness(n, b);
      CommonMultiple(n, a, b, g, x, y, i, j, s, t);
      ProductIsMultiple(t * x + s * y, Lcm(a, b));
    }
  }

  method LeastCommonMultiple(left: nat, right: nat) returns (m: nat)
    requires left > 0 && right > 0
    ensures m == Lcm(left, right) > 0
  {
    LcmIsLeast(left, right, 0);
    ghost var _ := GcdPositive(left, right);
    var g := GreatestCommonDivisor(left, right);
    m := (left / g) * right;
  }

  lemma {:induction false} QuotientOfProduct(i: nat, g: nat)
    requires g > 0
    ensures (i * g) / g == i
  {
    FloorAdjunction(i, i * g, g);
    FloorAdjunction(i + 1, i * g, g);
    assert (i + 1) * g == i * g + g;
  }

  lemma {:induction false} CommonMultiple(n: int, a: nat, b: nat, g: nat, x: int, y: int, i: nat, j: nat, s: int, t: int)
    requires g > 0 && g == x * a + y * b && a == i * g && b == j * g
    requires n == s * a && n == t * b
    ensures n == (t * x + s * y) * (i * b)
  {
    calc {
      n * g;
      n * (x * a + y * b);
      { assert n * (x * a) == (t * b) * (x * a); assert n * (y * b) == (s * a) * (y * b); }
      (t * b) * (x * a) + (s * a) * (y * b);
      { assert (t * b) * (x * a) == (t * x) * (a * b); assert (s * a) * (y * b) == (s * y) * (a * b); }
      (t * x) * (a * b) + (s * y) * (a * b);
      (t * x + s * y) * (a * b);
      { assert a * b == (i * g) * b == (i * b) * g; }
      (t * x + s * y) * ((i * b) * g);
      ((t * x + s * y) * (i * b)) * g;
    }
    var u := (t * x + s * y) * (i * b);
    MulOrder(n, u, g);
    MulOrder(u, n, g);
  }
}
