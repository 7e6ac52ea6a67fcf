/** Real vectors: inner products, squared distance, and the Cauchy-Schwarz bound the
    clustering proofs rest on. */
module Vectors {
  type Vec = seq<real>

  // Both products accumulate left to right, as the loops in the source do.
  function Dot(a: Vec, b: Vec): real
    requires |a| == |b|
  {
    if a == [] then 0.0 else
      var n := |a| - 1;
      Dot(a[..n], b[..n]) + a[n] * b[n]
  }

  function SquaredDist(a: Vec, b: Vec): real
    requires |a| == |b|
  {
    if a == [] then 0.0 else
      var n := |a| - 1;
      SquaredDist(a[..n], b[..n]) + Square(a[n] - b[n])
  }

  function Times(x: real, y: real): real { x * y }

  function Square(d: real): real { Times(d, d) }

  function Add(a: Vec, b: Vec): (r: Vec)
    requires |a| == |b|
    ensures |r| == |a|
  {
    seq(|a|, i requires 0 <= i < |a| => a[i] + b[i])
  }

  function Scale(k: real, a: Vec): (r: Vec)
    ensures |r| == |a|
  {
    seq(|a|, i requires 0 <= i < |a| => k * a[i])
  }

  function Zeros(n: nat): (r: Vec)
    ensures |r| == n
  {
    seq(n, _ => 0.0)
  }

  ghost predicate IsUnit(a: Vec) { Dot(a, a) == 1.0 }

  // math.Sqrt, as far as the proofs use it.
  ghost predicate IsSqrt(sqrt: real -> real) {
    forall x {:trigger sqrt(x)} :: x >= 0.0 ==> sqrt(x) >= 0.0 && sqrt(x) * sqrt(x) == x
  }

  lemma {:induction false} DotSymmetric(a: Vec, b: Vec)
    requires |a| == |b|
    ensures Dot(a, b) == Dot(b, a)
  {
    if a != [] { DotSymmetric(a[..|a| - 1], b[..|a| - 1]); }
  }

  lemma {:induction false} DotAdd(a: Vec, b: Vec, c: Vec)
    requires |a| == |b| == |c|
    ensures Dot(Add(a, b), c) == Dot(a, c) + Dot(b, c)
  {
    if a != [] {
      var n := |a| - 1;
      DotAdd(a[..n], b[..n], c[..n]);
      assert Add(a, b)[..n] == Add(a[..n], b[..n]);
    }
  }

  lemma {:induction false} DotScale(k: real, a: Vec, b: Vec)
    requires |a| == |b|
    ensures Dot(Scale(k, a), b) == k * Dot(a, b)
  {
    if a != [] {
      var n := |a| - 1;
      DotScale(k, a[..n], b[..n]);
      var s := Scale(k, a);
      forall i | 0 <= i < n ensures s[..n][i] == Scale(k, a[..n])[i] { assert s[i] == k * a[i]; }
      assert s[..n] == Scale(k, a[..n]);
      assert s[n] == k * a[n];
      Distribute(k, Dot(a[..n], b[..n]), a[n], b[n]);
    }
  }

  lemma Distribute(k: real, d: real, x: real, y: real)
    ensures k * (d + x * y) == k * d + (k * x) * y
  {
  }

  lemma {:induction false} DotZeros(b: Vec)
    ensures Dot(Zeros(|b|), b) == 0.0
  {
    if b != [] {
      DotZeros(b[..|b| - 1]);
      assert Zeros(|b|)[..|b| - 1] == Zeros(|b| - 1);
    }
  }

  lemma {:induction false} DotSelfNonNegative(a: Vec)
    ensures Dot(a, a) >= 0.0
  {
    if a != [] { DotSelfNonNegative(a[..|a| - 1]); }
  }

  // |a + b|^2 expanded.
  lemma NormOfSum(a: Vec, b: Vec)
    requires |a| == |b|
    ensures Dot(Add(a, b), Add(a, b)) == Dot(a, a) + 2.0 * Dot(a, b) + Dot(b, b)
  {
    var w := Add(a, b);
    DotAdd(a, b, w);
    DotSymmetric(a, w);
    DotSymmetric(b, w);
    DotAdd(a, b, a);
    DotAdd(a, b, b);
    DotSymmetric(a, b);
  }

  // |a - (a.u) u|^2 for a unit u.
  lemma NormOfRejection(a: Vec, u: Vec)
    requires |a| == |u| && IsUnit(u)
    ensures Dot(Add(a, Scale(-Dot(a, u), u)), Add(a, Scale(-Dot(a, u), u))) == Dot(a, a) - Dot(a, u) * Dot(a, u)
  {
    hide Dot, Add, Scale;
    var t := Dot(a, u);
    var r := Scale(-t, u);
    NormOfSum(a, r);
    DotScale(-t, u, a);
    DotSymmetric(a, r);
    DotSymmetric(a, u);
    DotScale(-t, u, r);
    DotSymmetric(u, r);
    DotScale(-t, u, u);
    CompleteSquare(t, Dot(a, r), Dot(u, r), Dot(r, r));
  }

  /** Cauchy-Schwarz against a unit vector. */
  lemma CauchySchwarz(a: Vec, u: Vec)
    requires |a| == |u| && IsUnit(u)
    ensures Dot(a, u) * Dot(a, u) <= Dot(a, a)
  {
    hide Dot, Add, Scale;
    NormOfRejection(a, u);
    DotSelfNonNegative(Add(a, Scale(-Dot(a, u), u)));
  }

  lemma CompleteSquare(t: real, ar: real, ur: real, rr: real)
    requires ar == -t * t && ur == -t * 1.0 && rr == -t * ur
    ensures 2.0 * ar + rr == -(t * t)
  {
  }

  lemma SquareMonotone(x: real, y: real)
    requires y >= 0.0 && Square(x) <= Square(y)
    ensures -y <= x <= y
  {
    hide Times;
    NegSquare(x);
    if x > y { SquareGrows(x, y); } else if x < -y { SquareGrows(-x, y); }
  }

  lemma SquareGrows(x: real, y: real)
    requires x > y >= 0.0
    ensures Square(x) > Square(y)
  {
    TimesPositive(x - y, x + y, (x - y) * (x + y));
    assert (x - y) * (x + y) == Square(x) - Square(y);
  }

  lemma TimesPositive(a: real, b: real, m: real)
    requires a > 0.0 && b > 0.0 && m == a * b
    ensures m > 0.0
  {
  }

  lemma SquarePositive(d: real)
    ensures d != 0.0 ==> Square(d) > 0.0
    ensures d == 0.0 ==> Square(d) == 0.0
  {
    if d > 0.0 {
      TimesPositive(d, d, Square(d));
    } else if d < 0.0 {
      TimesPositive(-d, -d, Square(-d));
      NegSquare(d);
    }
  }

  lemma NegSquare(d: real)
    ensures Square(-d) == Square(d)
  {
  }

  // No unit vector has a larger product with `a` than a's own length.
  lemma DotAtMostNorm(a: Vec, u: Vec, norm: real)
    requires |a| == |u| && IsUnit(u) && norm >= 0.0 && norm * norm == Dot(a, a)
    ensures -norm <= Dot(a, u) <= norm
  {
    CauchySchwarz(a, u);
    SquareMonotone(Dot(a, u), norm);
  }

  lemma CosineBounds(a: Vec, u: Vec)
    requires |a| == |u| && IsUnit(a) && IsUnit(u)
    ensures -1.0 <= Dot(a, u) <= 1.0
  {
    DotAtMostNorm(a, u, 1.0);
  }

  lemma {:induction false} SquaredDistExpands(a: Vec, b: Vec)
    requires |a| == |b|
    ensures SquaredDist(a, b) == Dot(a, a) - 2.0 * Dot(a, b) + Dot(b, b)
  {
    if a != [] {
      var n := |a| - 1;
      SquaredDistExpands(a[..n], b[..n]);
      assert (a[n] - b[n]) * (a[n] - b[n]) == a[n] * a[n] - 2.0 * (a[n] * b[n]) + b[n] * b[n];
    }
  }

  lemma {:induction false} SquaredDistZero(a: Vec, b: Vec)
    requires |a| == |b|
    ensures a == b ==> SquaredDist(a, b) == 0.0
    ensures a != b ==> SquaredDist(a, b) > 0.0
  {
    if a != [] {
      hide Square;
      var n := |a| - 1;
      SquaredDistZero(a[..n], b[..n]);
      SquarePositive(a[n] - b[n]);
      assert a == a[..n] + [a[n]] && b == b[..n] + [b[n]];
      if a[n] == b[n] { assert a[..n] == b[..n] <==> a == b; }
    }
  }

  // The direction of a non-zero vector: unit length, and the best possible product.
  lemma NormalizedIsBest(a: Vec, norm: real, u: Vec)
    requires |a| == |u| && IsUnit(u) && norm > 0.0 && norm * norm == Dot(a, a)
    ensures IsUnit(Scale(1.0 / norm, a))
    ensures Dot(a, Scale(1.0 / norm, a)) >= Dot(a, u)
  {
    hide Dot, Scale;
    var k := 1.0 / norm;
    var d := Scale(k, a);
    DotScale(k, a, d);
    DotScale(k, a, a);
    DotSymmetric(a, d);
    Reciprocal(k, norm, Dot(a, a), Dot(a, d));
    DotAtMostNorm(a, u, norm);
  }

  lemma Reciprocal(k: real, norm: real, square: real, product: real)
    requires norm > 0.0 && k == 1.0 / norm && square == norm * norm && product == k * square
    ensures product == norm && k * product == 1.0
  {
    assert k * norm == 1.0;
    assert k * (norm * norm) == (k * norm) * norm;
  }

  lemma NormalizedIsUnit(a: Vec, norm: real)
    requires norm > 0.0 && norm * norm == Dot(a, a)
    ensures IsUnit(Scale(1.0 / norm, a))
  {
    hide Dot, Scale;
    var k := 1.0 / norm;
    var d := Scale(k, a);
    DotScale(k, a, d);
    DotScale(k, a, a);
    DotSymmetric(a, d);
    Reciprocal(k, norm, Dot(a, a), Dot(a, d));
  }

  // ---------- Directions ----------

  predicate IsZero(v: Vec) {
    forall d :: 0 <= d < |v| ==> v[d] == 0.0
  }

  // u points the way v does and has unit length.
  ghost predicate DirectionOf(u: Vec, v: Vec) {
    |u| == |v| && IsUnit(u) && exists norm: real :: norm > 0.0 && v == Scale(norm, u)
  }

  lemma {:induction false} ZeroIffNoNorm(v: Vec)
    ensures Dot(v, v) == 0.0 <==> IsZero(v)
    ensures Dot(v, v) >= 0.0
  {
    DotSelfNonNegative(v);
    if v != [] {
      var n := |v| - 1;
      ZeroIffNoNorm(v[..n]);
      LastTerm(Dot(v[..n], v[..n]), v[n], Dot(v, v));
      assert IsZero(v) <==> IsZero(v[..n]) && v[n] == 0.0;
    }
  }

  lemma LastTerm(before: real, x: real, total: real)
    requires before >= 0.0 && total == before + x * x
    ensures total == 0.0 <==> before == 0.0 && x == 0.0
  {
    SquarePositive(x);
    assert Square(x) == total - before;
  }

  lemma ScaleBack(v: Vec, norm: real)
    requires norm > 0.0
    ensures v == Scale(norm, Scale(1.0 / norm, v))
  {
    var k := 1.0 / norm;
    forall d | 0 <= d < |v| ensures v[d] == Scale(norm, Scale(k, v))[d] {
      Cancel(v[d], norm, k);
    }
  }

  lemma Cancel(x: real, norm: real, k: real)
    requires k * norm == 1.0
    ensures norm * (k * x) == x
  {
    assert norm * (k * x) == (k * norm) * x;
  }
}
