/** Shared vocabulary for the model: optional values, random rolls, plane
    vectors, clamping, integer powers, and the uninterpreted transcendental
    functions the game calls through `Math`. */
module Common {

  datatype Option<+T> = None | Some(value: T)

  /** A value returned by `Math.random()`: uniform in [0, 1). */
  type Roll = r: real | 0.0 <= r < 1.0

  /** The stream of `Math.random()` results an operation consumes, in call
      order. */
  type Rng = nat -> Roll

  /** The stream left after the first `k` results were used. */
  function Skip(rng: Rng, k: nat): Rng { (i: nat) => rng(k + i) }

  /** A point or velocity in canvas pixels. */
  datatype Vec = Vec(x: real, y: real)

  const Origin := Vec(0.0, 0.0)

  function Min(a: real, b: real): real { if a <= b then a else b }

  function Max(a: real, b: real): real { if a >= b then a else b }

  function MinInt(a: int, b: int): int { if a <= b then a else b }

  /** `Math.max(lo, Math.min(hi, v))`, the clamp the game writes out each time. */
  function Clamp(lo: real, hi: real, v: real): (r: real)
    ensures lo <= hi ==> lo <= r <= hi
    ensures lo <= v <= hi ==> r == v
  {
    Max(lo, Min(hi, v))
  }

  /** Squared Euclidean distance between two points. */
  function DistSq(a: Vec, b: Vec): (d: real)
    ensures d >= 0.0
  {
    (a.x - b.x) * (a.x - b.x) + (a.y - b.y) * (a.y - b.y)
  }

  /** `distance < r` for the point distance whose square is `d2`. */
  predicate StrictlyWithin(d2: real, r: real) { 0.0 < r && d2 < r * r }

  /** `distance <= r` for the point distance whose square is `d2`. */
  predicate Within(d2: real, r: real) { 0.0 <= r && d2 <= r * r }

  lemma SquareMonotone(a: real, b: real)
    requires 0.0 <= a <= b
    ensures a * a <= b * b
  {
    assert a * a <= a * b <= b * b;
  }

  /** A roll scales a non-negative length to somewhere in [0, length]. */
  lemma RollScales(r: Roll, m: real)
    requires 0.0 <= m
    ensures 0.0 <= r * m <= m
  {
    assert m - r * m == (1.0 - r) * m >= 0.0;
  }

  lemma SquareStrictMonotone(a: real, b: real)
    requires 0.0 <= a < b
    ensures a * a < b * b
  {
    assert a * b - a * a == a * (b - a) >= 0.0;
    assert b * b - a * b == (b - a) * b > 0.0;
  }

  /** The square-free tests above agree with comparing the true distance:
      for every non-negative `d` whose square is `d2`, `d < r` holds exactly
      when `StrictlyWithin(d2, r)` does, and `d <= r` exactly when `Within(d2, r)`. */
  lemma SquareFreeComparison(d: real, d2: real, r: real)
    requires 0.0 <= d && d * d == d2
    ensures d < r <==> StrictlyWithin(d2, r)
    ensures d <= r <==> Within(d2, r)
  {
    if d < r {
      SquareStrictMonotone(d, r);
    }
    if d <= r {
      SquareMonotone(d, r);
    }
    if 0.0 <= r && r <= d {
      SquareMonotone(r, d);
    }
    if 0.0 <= r && r < d {
      SquareStrictMonotone(r, d);
    }
  }

  /** The total of a sequence of frame times. */
  function Sum(dts: seq<real>): real
    decreases |dts|
  {
    if |dts| == 0 then 0.0 else dts[0] + Sum(dts[1..])
  }

  lemma {:induction false} SumNonNegative(dts: seq<real>)
    requires forall i :: 0 <= i < |dts| ==> 0.0 <= dts[i]
    ensures 0.0 <= Sum(dts)
    decreases |dts|
  {
    if |dts| > 0 {
      SumNonNegative(dts[1..]);
    }
  }

  /** `Math.pow(b, n)` for a natural exponent. */
  function Pow(b: real, n: nat): real
  {
    if n == 0 then 1.0 else b * Pow(b, n - 1)
  }

  lemma {:induction false} PowPositive(b: real, n: nat)
    requires b > 0.0
    ensures Pow(b, n) > 0.0
  {
    if n > 0 {
      PowPositive(b, n - 1);
    }
  }

  /** `Math.pow(b, e)` for an integer exponent and a positive base. */
  function PowInt(b: real, e: int): (r: real)
    requires b > 0.0
    ensures r > 0.0
    ensures e >= 0 ==> r == Pow(b, e)
  {
    PowPositive(b, if e >= 0 then e else -e);
    if e >= 0 then Pow(b, e) else 1.0 / Pow(b, -e)
  }

  lemma {:induction false} PowAtLeastOne(b: real, n: nat)
    requires b >= 1.0
    ensures Pow(b, n) >= 1.0
  {
    if n > 0 {
      PowAtLeastOne(b, n - 1);
    }
  }

  /** `Math.PI` as the double the game reads. */
  const Pi: real := 3.141592653589793

  /** The transcendental functions the game calls. They are left
      uninterpreted: a caller supplies them. Only `SqrtSound` below says
      anything about their values, and the properties that need it assume it
      explicitly. */
  datatype Trig = Trig(sin: real -> real, cos: real -> real,
                       atan2: (real, real) -> real, sqrt: real -> real)

  /** The square root behaves as one on non-negative input: non-negative,
      squaring back to its argument, and positive on positive input. */
  ghost predicate SqrtSound(trig: Trig)
  {
    forall x: real :: 0.0 <= x ==>
      (&& 0.0 <= trig.sqrt(x) && trig.sqrt(x) * trig.sqrt(x) == x
       && (0.0 < x ==> 0.0 < trig.sqrt(x)))
  }
}
