/** Feature vectors and cosine similarity.

    cosine(a, b) = (a . b) / (||a|| * ||b||)

    Dafny's reals have no square root, so the Euclidean norm enters the
    formula as a parameter `n` characterised by `IsNorm(n, a)`: n >= 0 and
    n * n is the sum of squares of `a`. The ranking compares situations by
    `SimilarityKey`, the exact square-root-free value cos * |cos|; it orders
    vectors exactly as the cosine does (`KeyOrderIsCosineOrder`). */
module Vectors {

  /** A market situation: [price trend, volatility, sentiment, demand,
      inventories, geopolitical risk], each conventionally in [0, 1]. */
  type Vector = seq<real>

  function Abs(x: real): (r: real)
    ensures r >= 0.0 && (r == x || r == -x)
  {
    if x >= 0.0 then x else -x
  }

  /** The dot product `np.dot(a, b)`. */
  function Dot(a: Vector, b: Vector): (r: real)
    requires |a| == |b|
  {
    if |a| == 0 then 0.0 else a[0] * b[0] + Dot(a[1..], b[1..])
  }

  /** The squared Euclidean norm, a . a. */
  function NormSq(a: Vector): (r: real)
    ensures r >= 0.0
  {
    DotSelfNonNegative(a);
    Dot(a, a)
  }

  lemma {:induction false} DotSelfNonNegative(a: Vector)
    ensures Dot(a, a) >= 0.0
  {
    if |a| > 0 {
      DotSelfNonNegative(a[1..]);
    }
  }

  /** `n` is the Euclidean norm of `a` (what `np.linalg.norm(a)` returns). */
  predicate IsNorm(n: real, a: Vector)
  {
    n >= 0.0 && n * n == NormSq(a)
  }

  /** The norm is determined by the vector: at most one `n` satisfies IsNorm. */
  lemma NormUnique(n: real, m: real, a: Vector)
    requires IsNorm(n, a) && IsNorm(m, a)
    ensures n == m
  {
    SquareDominates(n, m);
    SquareDominates(m, n);
  }

  /** The norm of a non-zero vector is positive. */
  lemma NormPositive(n: real, a: Vector)
    requires IsNorm(n, a) && NormSq(a) > 0.0
    ensures n > 0.0
  {
  }

  /** A vector of norm zero has only zero components: the zero vector, whose
      direction, and hence cosine, is undefined. */
  lemma {:induction false} NormSqZero(a: Vector)
    ensures NormSq(a) == 0.0 <==> forall i :: 0 <= i < |a| ==> a[i] == 0.0
  {
    if |a| > 0 {
      NormSqZero(a[1..]);
      assert NormSq(a) == a[0] * a[0] + NormSq(a[1..]);
      assert forall i :: 1 <= i < |a| ==> a[1..][i - 1] == a[i];
      if a[0] != 0.0 {
        HeadSquarePositive(a);
      }
    }
  }

  lemma HeadSquarePositive(a: Vector)
    requires |a| > 0 && a[0] != 0.0
    ensures NormSq(a) > 0.0
  {
    var x, rest := a[0], NormSq(a[1..]);
    var xx := x * x;
    assert NormSq(a) == xx + rest;
    SquarePositive(x, xx);
  }

  /** The cosine formula, given the two norms. The zero vector is excluded:
      the formula divides by zero there. */
  function Cosine(a: Vector, b: Vector, na: real, nb: real): (r: real)
    requires |a| == |b| && IsNorm(na, a) && IsNorm(nb, b) && NormSq(a) > 0.0 && NormSq(b) > 0.0
    ensures r * (na * nb) == Dot(a, b)
    ensures -1.0 <= r <= 1.0
    ensures r * Abs(r) == SimilarityKey(a, b)
  {
    NormPositive(na, a);
    NormPositive(nb, b);
    MulPositive(na, nb, na * nb);
    var r := Dot(a, b) / (na * nb);
    CosineBounded(a, b, na, nb);
    CosineKey(a, b, na, nb, r);
    r
  }

  /** cos * |cos|, computed without square roots:
      Dot(a, b) * |Dot(a, b)| / (NormSq(a) * NormSq(b)). */
  function SimilarityKey(a: Vector, b: Vector): (r: real)
    requires |a| == |b| && NormSq(a) > 0.0 && NormSq(b) > 0.0
    ensures r * (NormSq(a) * NormSq(b)) == Dot(a, b) * Abs(Dot(a, b))
  {
    MulPositive(NormSq(a), NormSq(b), NormSq(a) * NormSq(b));
    DivMul(Dot(a, b) * Abs(Dot(a, b)), NormSq(a) * NormSq(b));
    Dot(a, b) * Abs(Dot(a, b)) / (NormSq(a) * NormSq(b))
  }

  // ---------------------------------------------------------------------
  // Cauchy-Schwarz and the range of the cosine

  /** The product `r` of two positive numbers is positive. (Products are
      named by a parameter: the solver handles `r > 0.0` about a name more
      reliably than about a product term.) */
  lemma MulPositive(p: real, q: real, r: real)
    requires p > 0.0 && q > 0.0 && r == p * q
    ensures r > 0.0
  {
  }

  lemma SquarePositive(x: real, xx: real)
    requires x != 0.0 && xx == x * x
    ensures xx > 0.0
  {
    if x < 0.0 {
      MulPositive(-x, -x, xx);
    } else {
      MulPositive(x, x, xx);
    }
  }

  lemma ProductOfSquares(x: real, y: real, xx: real, yy: real, n: real, p: real)
    requires x * x == xx && y * y == yy && n == x * y && p == xx * yy
    ensures n * n == p
  {
    assert (x * y) * (x * y) == (x * x) * (y * y);
  }

  lemma DivMul(x: real, y: real)
    requires y != 0.0
    ensures (x / y) * y == x
  {
  }

  /** Division is the inverse of multiplication. */
  lemma DivUnique(x: real, y: real, c: real)
    requires y != 0.0 && c * y == x
    ensures x / y == c
  {
  }

  /** A non-negative number whose square dominates another's dominates it. */
  lemma SquareDominates(u: real, v: real)
    requires u >= 0.0 && u * u >= v * v
    ensures u >= v
  {
    if v > u {
      assert v * v - u * u == (v - u) * (v + u);
      MulPositive(v - u, v + u, v * v - u * u);
    }
  }

  /** The inductive step of Cauchy-Schwarz: 2xyD <= x^2 B + A y^2 when
      D^2 <= A B. */
  lemma CrossTerm(x: real, y: real, d: real, a: real, b: real)
    requires a >= 0.0 && b >= 0.0 && d * d <= a * b
    ensures 2.0 * x * y * d <= x * x * b + a * y * y
  {
    var u := x * x * b + a * y * y;
    var v := 2.0 * x * y * d;
    var w := x * x * b - a * y * y;
    assert u >= 0.0;
    assert u * u == w * w + 4.0 * (x * x * y * y) * (a * b);
    assert v * v == 4.0 * (x * x * y * y) * (d * d);
    assert (x * x * y * y) * (d * d) <= (x * x * y * y) * (a * b) by {
      assert x * x * y * y >= 0.0;
    }
    assert w * w >= 0.0;
    SquareDominates(u, v);
  }

  /** (a . b)^2 <= |a|^2 |b|^2. */
  lemma {:induction false} CauchySchwarz(a: Vector, b: Vector)
    requires |a| == |b|
    ensures Dot(a, b) * Dot(a, b) <= NormSq(a) * NormSq(b)
  {
    if |a| > 0 {
      var x, y := a[0], b[0];
      var d, na, nb := Dot(a[1..], b[1..]), NormSq(a[1..]), NormSq(b[1..]);
      CauchySchwarz(a[1..], b[1..]);
      CrossTerm(x, y, d, na, nb);
      assert Dot(a, b) == x * y + d;
      assert NormSq(a) == x * x + na;
      assert NormSq(b) == y * y + nb;
      assert (x * y + d) * (x * y + d) == x * x * y * y + 2.0 * x * y * d + d * d;
      assert (x * x + na) * (y * y + nb) == x * x * y * y + x * x * nb + na * y * y + na * nb;
    }
  }

  lemma CosineBounded(a: Vector, b: Vector, na: real, nb: real)
    requires |a| == |b| && IsNorm(na, a) && IsNorm(nb, b) && NormSq(a) > 0.0 && NormSq(b) > 0.0
    ensures -1.0 <= Dot(a, b) / (na * nb) <= 1.0
  {
    NormPositive(na, a);
    NormPositive(nb, b);
    var d, n := Dot(a, b), na * nb;
    MulPositive(na, nb, n);
    var p := NormSq(a) * NormSq(b);
    CauchySchwarz(a, b);
    assert d * d <= p;
    ProductOfSquares(na, nb, NormSq(a), NormSq(b), n, p);
    QuotientBound(d, n);
  }

  /** d^2 <= n^2 with n > 0 puts d / n in [-1, 1]. */
  lemma QuotientBound(d: real, n: real)
    requires n > 0.0 && d * d <= n * n
    ensures -1.0 <= d / n <= 1.0
  {
    SquareDominates(n, d);
    assert (-d) * (-d) == d * d;
    SquareDominates(n, -d);
    var c := d / n;
    assert c * n == d;
  }

  lemma CancelFactor(x: real, y: real, k: real)
    requires k != 0.0 && x * k == y * k
    ensures x == y
  {
    assert (x - y) * k == 0.0;
  }

  lemma DivCongruence(x: real, x': real, y: real)
    requires x == x' && y != 0.0
    ensures x / y == x' / y
  {
  }

  /** c1 (k n) == k d and c0 n == d give c1 == c0, for k, n > 0. */
  lemma CancelScaled(c1: real, c0: real, n: real, m: real, k: real, d: real)
    requires n > 0.0 && k > 0.0 && m == k * n && c1 * m == k * d && c0 * n == d
    ensures c1 == c0
  {
    MulPositive(k, n, m);
    assert c0 * m == k * (c0 * n);
    CancelFactor(c1, c0, m);
  }

  lemma MulCongruence(x: real, y: real, x': real, y': real)
    requires x == x' && y == y'
    ensures x * y == x' * y'
  {
  }

  /** If c n == d for n > 0, then c |c| n^2 == d |d|. */
  lemma SignedSquareOfQuotient(c: real, d: real, n: real, p: real)
    requires n > 0.0 && n * n == p && c * n == d
    ensures (c * Abs(c)) * p == d * Abs(d)
  {
    assert Abs(c) * n == Abs(d);
    assert (c * Abs(c)) * p == (c * n) * (Abs(c) * n);
    MulCongruence(c * n, Abs(c) * n, d, Abs(d));
  }

  lemma CosineKey(a: Vector, b: Vector, na: real, nb: real, c: real)
    requires |a| == |b| && IsNorm(na, a) && IsNorm(nb, b) && NormSq(a) > 0.0 && NormSq(b) > 0.0
    requires c * (na * nb) == Dot(a, b)
    ensures c * Abs(c) == SimilarityKey(a, b)
  {
    var d, p := Dot(a, b), NormSq(a) * NormSq(b);
    NormPositive(na, a);
    NormPositive(nb, b);
    MulPositive(na, nb, na * nb);
    MulPositive(NormSq(a), NormSq(b), p);
    ProductOfSquares(na, nb, NormSq(a), NormSq(b), na * nb, p);
    SignedSquareOfQuotient(c, d, na * nb, p);
    CancelFactor(c * Abs(c), SimilarityKey(a, b), p);
  }

  // ---------------------------------------------------------------------
  // The properties the recommender relies on

  lemma SquareIncreasing(x: real, y: real)
    requires 0.0 <= x < y
    ensures x * x < y * y
  {
    assert y * y - x * x == (y - x) * (y + x);
    MulPositive(y - x, y + x, y * y - x * x);
  }

  lemma SignedSquareOfNonNegative(x: real)
    requires x >= 0.0
    ensures x * Abs(x) == x * x
  {
  }

  lemma SignedSquareOfNegative(x: real)
    requires x < 0.0
    ensures x * Abs(x) == -(x * x) && x * x > 0.0
  {
    SquarePositive(x, x * x);
  }

  lemma StrictlyIncreasing(x: real, y: real)
    requires x < y
    ensures x * Abs(x) < y * Abs(y)
  {
    if x >= 0.0 {
      SignedSquareOfNonNegative(x);
      SignedSquareOfNonNegative(y);
      SquareIncreasing(x, y);
    } else if y < 0.0 {
      SignedSquareOfNegative(x);
      SignedSquareOfNegative(y);
      SquareIncreasing(-y, -x);
    } else {
      SignedSquareOfNegative(x);
      SignedSquareOfNonNegative(y);
      assert y * y >= 0.0;
    }
  }

  /** x |-> x * |x| is strictly increasing, so it preserves and reflects order. */
  lemma SignedSquareMonotone(x: real, y: real)
    ensures x <= y <==> x * Abs(x) <= y * Abs(y)
  {
    if x != y {
      var lo, hi := if x < y then x else y, if x < y then y else x;
      StrictlyIncreasing(lo, hi);
    }
  }

  lemma SignedSquareOrder(x: real, y: real, kx: real, ky: real)
    requires x * Abs(x) == kx && y * Abs(y) == ky
    ensures x <= y <==> kx <= ky
    ensures x == y <==> kx == ky
  {
    SignedSquareMonotone(x, y);
    SignedSquareMonotone(y, x);
  }

  /** Ranking by SimilarityKey is ranking by cosine: for any query `q` and
      any two vectors, the keys compare exactly as the cosines do. */
  lemma KeyOrderIsCosineOrder(q: Vector, a: Vector, b: Vector, nq: real, na: real, nb: real)
    requires |q| == |a| == |b| && IsNorm(nq, q) && IsNorm(na, a) && IsNorm(nb, b)
    requires NormSq(q) > 0.0 && NormSq(a) > 0.0 && NormSq(b) > 0.0
    ensures SimilarityKey(q, a) <= SimilarityKey(q, b) <==> Cosine(q, a, nq, na) <= Cosine(q, b, nq, nb)
    ensures SimilarityKey(q, a) == SimilarityKey(q, b) <==> Cosine(q, a, nq, na) == Cosine(q, b, nq, nb)
  {
    SignedSquareOrder(Cosine(q, a, nq, na), Cosine(q, b, nq, nb), SimilarityKey(q, a), SimilarityKey(q, b));
  }

  lemma {:induction false} DotSymmetric(a: Vector, b: Vector)
    requires |a| == |b|
    ensures Dot(a, b) == Dot(b, a)
  {
    if |a| > 0 {
      DotSymmetric(a[1..], b[1..]);
    }
  }

  /** Cosine similarity does not depend on the order of its arguments. */
  lemma CosineSymmetric(a: Vector, b: Vector, na: real, nb: real)
    requires |a| == |b| && IsNorm(na, a) && IsNorm(nb, b) && NormSq(a) > 0.0 && NormSq(b) > 0.0
    ensures Cosine(a, b, na, nb) == Cosine(b, a, nb, na)
    ensures SimilarityKey(a, b) == SimilarityKey(b, a)
  {
    DotSymmetric(a, b);
    assert na * nb == nb * na;
  }

  /** `k * a`, the vector scaled by `k`. */
  function Scale(k: real, a: Vector): (r: Vector)
    ensures |r| == |a| && forall i :: 0 <= i < |a| ==> r[i] == k * a[i]
  {
    seq(|a|, i requires 0 <= i < |a| => k * a[i])
  }

  lemma {:induction false} DotScale(a: Vector, b: Vector, k: real)
    requires |a| == |b|
    ensures Dot(a, Scale(k, b)) == k * Dot(a, b)
  {
    if |a| > 0 {
      DotScale(a[1..], b[1..], k);
      ScaleTail(k, b);
      var x, y := a[0] * b[0], Dot(a[1..], b[1..]);
      assert Dot(a, Scale(k, b)) == a[0] * (k * b[0]) + k * y;
      assert a[0] * (k * b[0]) == k * x;
    }
  }

  lemma ScaleTail(k: real, b: Vector)
    requires |b| > 0
    ensures Scale(k, b)[0] == k * b[0] && Scale(k, b)[1..] == Scale(k, b[1..])
  {
    assert forall i :: 0 <= i < |b| - 1 ==> Scale(k, b)[1..][i] == k * b[i + 1] == Scale(k, b[1..])[i];
  }

  lemma NormSqScale(a: Vector, k: real)
    ensures NormSq(Scale(k, a)) == k * k * NormSq(a)
  {
    DotScale(Scale(k, a), a, k);
    DotSymmetric(Scale(k, a), a);
    DotScale(a, a, k);
  }

  /** Scaling a non-zero vector by k > 0 scales its norm by k. */
  lemma NormScale(b: Vector, nb: real, k: real)
    requires IsNorm(nb, b) && NormSq(b) > 0.0 && k > 0.0
    ensures IsNorm(k * nb, Scale(k, b)) && NormSq(Scale(k, b)) > 0.0
  {
    NormPositive(nb, b);
    NormSqScale(b, k);
    ProductOfSquares(k, nb, k * k, NormSq(b), k * nb, k * k * NormSq(b));
    MulPositive(k, nb, k * nb);
    SquarePositive(k, k * k);
    MulPositive(k * k, NormSq(b), k * k * NormSq(b));
  }

  /** The cosine only sees direction: scaling a vector by any k > 0 leaves
      the similarity unchanged. */
  lemma CosineScaleInvariant(a: Vector, b: Vector, na: real, nb: real, k: real)
    requires |a| == |b| && IsNorm(na, a) && IsNorm(nb, b) && NormSq(a) > 0.0 && NormSq(b) > 0.0 && k > 0.0
    ensures IsNorm(k * nb, Scale(k, b)) && NormSq(Scale(k, b)) > 0.0
    ensures Cosine(a, Scale(k, b), na, k * nb) == Cosine(a, b, na, nb)
  {
    NormScale(b, nb, k);
    NormPositive(na, a);
    NormPositive(nb, b);
    DotScale(a, b, k);
    var c1, c0 := Cosine(a, Scale(k, b), na, k * nb), Cosine(a, b, na, nb);
    MulPositive(na, nb, na * nb);
    assert na * (k * nb) == k * (na * nb);
    CancelScaled(c1, c0, na * nb, na * (k * nb), k, Dot(a, b));
  }

  /** A vector is perfectly similar to itself. */
  lemma CosineSelf(a: Vector, na: real)
    requires IsNorm(na, a) && NormSq(a) > 0.0
    ensures Cosine(a, a, na, na) == 1.0
  {
    DivUnique(Dot(a, a), na * na, 1.0);
  }

  /** Identical directions give similarity 1: cos(a, k a) = 1 for k > 0. */
  lemma CosineSameDirection(a: Vector, na: real, k: real)
    requires IsNorm(na, a) && NormSq(a) > 0.0 && k > 0.0
    ensures IsNorm(k * na, Scale(k, a)) && NormSq(Scale(k, a)) > 0.0
    ensures Cosine(a, Scale(k, a), na, k * na) == 1.0
  {
    CosineScaleInvariant(a, a, na, na, k);
    CosineSelf(a, na);
  }

  predicate NonNegative(a: Vector)
  {
    forall i :: 0 <= i < |a| ==> a[i] >= 0.0
  }

  lemma {:induction false} DotNonNegative(a: Vector, b: Vector)
    requires |a| == |b| && NonNegative(a) && NonNegative(b)
    ensures Dot(a, b) >= 0.0
  {
    if |a| > 0 {
      assert NonNegative(a[1..]) && NonNegative(b[1..]);
      DotNonNegative(a[1..], b[1..]);
      assert a[0] * b[0] >= 0.0;
    }
  }

  /** For vectors with non-negative components, as every vector of the
      recommender is, the similarity lies in [0, 1]. */
  lemma CosineNonNegative(a: Vector, b: Vector, na: real, nb: real)
    requires |a| == |b| && IsNorm(na, a) && IsNorm(nb, b) && NormSq(a) > 0.0 && NormSq(b) > 0.0
    requires NonNegative(a) && NonNegative(b)
    ensures 0.0 <= Cosine(a, b, na, nb) <= 1.0
  {
    DotNonNegative(a, b);
  }
}
