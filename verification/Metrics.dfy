/** The three ways of measuring how alike two vectors are, in exact arithmetic; only the square root is a parameter
    (src/doc.rs). */
module Metrics {
  import opened Schemas

  type Point = seq<real>

  function Times(x: real, y: real): real { x * y }

  /** Over as many coordinates as both have. */
  function Dot(a: Point, b: Point): real {
    if a == [] || b == [] then 0.0 else Times(a[0], b[0]) + Dot(a[1..], b[1..])
  }

  function SquaredDistance(a: Point, b: Point): real {
    if a == [] || b == [] then 0.0 else Times(a[0] - b[0], a[0] - b[0]) + SquaredDistance(a[1..], b[1..])
  }

  /** A square root of every number that is not negative. */
  ghost predicate Roots(sqrt: real -> real) {
    forall x: real :: x >= 0.0 ==> sqrt(x) >= 0.0 && sqrt(x) * sqrt(x) == x
  }

  function Norm(sqrt: real -> real, a: Point): real { sqrt(Dot(a, a)) }

  /** Zero beside a vector of no length, rather than undefined. */
  function Cosine(sqrt: real -> real, a: Point, b: Point): real {
    var d := Norm(sqrt, a) * Norm(sqrt, b);
    if d == 0.0 then 0.0 else Dot(a, b) / d
  }

  /** Higher is better: what ranking sorts on. */
  function ScoreOf(sqrt: real -> real, m: Metric, a: Point, b: Point): real {
    match m
    case CosineDistance => Cosine(sqrt, a, b)
    case EuclideanSquared => -SquaredDistance(a, b)
    case DotProduct => Dot(a, b)
  }

  /** Lower is better: what clusters are assigned by. */
  function DistanceOf(sqrt: real -> real, m: Metric, a: Point, b: Point): real {
    match m
    case CosineDistance => 1.0 - Cosine(sqrt, a, b)
    case EuclideanSquared => SquaredDistance(a, b)
    case DotProduct => -Dot(a, b)
  }

  lemma {:induction false} DotSymmetric(a: Point, b: Point)
    ensures Dot(a, b) == Dot(b, a)
    decreases |a|
  {
    if a != [] && b != [] {
      DotSymmetric(a[1..], b[1..]);
    }
  }

  lemma {:induction false} SquaredSymmetric(a: Point, b: Point)
    ensures SquaredDistance(a, b) == SquaredDistance(b, a)
    decreases |a|
  {
    if a != [] && b != [] {
      SquaredSymmetric(a[1..], b[1..]);
      SameSquare(a[0] - b[0]);
    }
  }

  lemma SameSquare(x: real)
    ensures Times(x, x) == Times(-x, -x) >= 0.0
  {
  }

  /** The order by distance is exactly the inverse of the order by score, whichever way round the two vectors are
      given: clusters chosen by the one serve queries ranked by the other. */
  lemma DistanceInvertsScore(sqrt: real -> real, m: Metric, q: Point, a: Point, b: Point)
    ensures DistanceOf(sqrt, m, a, q) < DistanceOf(sqrt, m, b, q) <==> ScoreOf(sqrt, m, q, a) > ScoreOf(sqrt, m, q, b)
    ensures DistanceOf(sqrt, m, a, q) == DistanceOf(sqrt, m, b, q) <==> ScoreOf(sqrt, m, q, a) == ScoreOf(sqrt, m, q, b)
  {
    DotSymmetric(a, q);
    DotSymmetric(b, q);
    SquaredSymmetric(a, q);
    SquaredSymmetric(b, q);
  }

  // ------------------------------------------------------------ the dot product

  function Scaled(t: real, a: Point): (r: Point)
    ensures |r| == |a|
  {
    seq(|a|, i requires 0 <= i < |a| => Times(t, a[i]))
  }

  function Minus(a: Point, b: Point): (r: Point)
    requires |a| == |b|
    ensures |r| == |a|
  {
    seq(|a|, i requires 0 <= i < |a| => a[i] - b[i])
  }

  lemma {:induction false} DotScales(t: real, a: Point, b: Point)
    ensures Dot(Scaled(t, a), b) == t * Dot(a, b)
    decreases |a|
  {
    hide Times, Scaled;
    if a != [] && b != [] {
      ScaledRest(t, a);
      DotScales(t, a[1..], b[1..]);
      TimesMoves(t, a[0], b[0]);
      Distributes(t, Times(a[0], b[0]), Dot(a[1..], b[1..]));
    } else {
      assert Dot(Scaled(t, a), b) == 0.0 == t * 0.0;
    }
  }

  lemma ScaledRest(t: real, a: Point)
    requires a != []
    ensures Scaled(t, a)[1..] == Scaled(t, a[1..]) && Scaled(t, a)[0] == Times(t, a[0])
  {
    hide Times;
  }

  lemma TimesMoves(t: real, x: real, y: real)
    ensures Times(Times(t, x), y) == Times(t, Times(x, y))
  {
    assert t * x * y == t * (x * y);
  }

  lemma Distributes(t: real, x: real, y: real)
    ensures Times(t, x) + t * y == t * (x + y)
  {
  }

  /** The vector with one in one place and zero elsewhere. */
  function Unit(n: nat, i: nat): (r: Point)
    ensures |r| == n
  {
    seq(n, k requires 0 <= k < n => if k == i then 1.0 else 0.0)
  }

  /** Beside such a vector the dot product is the coordinate there. */
  lemma {:induction false} DotPicks(n: nat, i: nat, b: Point)
    requires n == |b|
    ensures Dot(Unit(n, i), b) == if i < n then b[i] else 0.0
    decreases n
  {
    if n > 0 {
      if i == 0 {
        assert forall k | 0 <= k < n - 1 :: Unit(n, i)[1..][k] == 0.0;
        DotZero(Unit(n, i)[1..], b[1..]);
      } else {
        assert Unit(n, i)[1..] == Unit(n - 1, i - 1);
        DotPicks(n - 1, i - 1, b[1..]);
      }
    }
  }

  lemma {:induction false} DotSubtracts(a: Point, b: Point, c: Point)
    requires |a| == |b| == |c|
    ensures Dot(Minus(a, b), c) == Dot(a, c) - Dot(b, c)
    decreases |a|
  {
    if a != [] {
      assert Minus(a, b)[1..] == Minus(a[1..], b[1..]);
      DotSubtracts(a[1..], b[1..], c[1..]);
    }
  }

  lemma {:induction false} SelfDot(a: Point)
    ensures Dot(a, a) >= 0.0
    ensures Dot(a, a) == 0.0 ==> forall i | 0 <= i < |a| :: a[i] == 0.0
    decreases |a|
  {
    if a != [] {
      SelfDot(a[1..]);
      SameSquare(a[0]);
      if a[0] != 0.0 {
        SquarePositive(a[0]);
      }
      if Dot(a, a) == 0.0 {
        forall i | 0 <= i < |a| ensures a[i] == 0.0 {
          assert i > 0 ==> a[i] == a[1..][i - 1];
        }
      }
    }
  }

  lemma PositiveTimes(x: real, y: real)
    requires x > 0.0 && y > 0.0
    ensures Times(x, y) > 0.0
  {
  }

  lemma SquarePositive(x: real)
    requires x != 0.0
    ensures Times(x, x) > 0.0
  {
    hide Times;
    SameSquare(x);
    if x > 0.0 {
      PositiveTimes(x, x);
    } else {
      PositiveTimes(-x, -x);
    }
  }

  lemma LessTimes(x: real, y: real, z: real)
    requires x < y && z > 0.0
    ensures x * z < y * z
  {
  }

  lemma {:induction false} DotZero(a: Point, b: Point)
    requires forall i | 0 <= i < |a| :: a[i] == 0.0
    ensures Dot(a, b) == 0.0
    decreases |a|
  {
    if a != [] && b != [] {
      assert forall i | 0 <= i < |a[1..]| :: a[1..][i] == a[i + 1];
      DotZero(a[1..], b[1..]);
    }
  }

  /** The squared distance is the squared length of the difference. */
  lemma {:induction false} SquaredIsDifference(a: Point, b: Point)
    requires |a| == |b|
    ensures SquaredDistance(a, b) == Dot(Minus(a, b), Minus(a, b)) >= 0.0
    decreases |a|
  {
    if a != [] {
      assert Minus(a, b)[1..] == Minus(a[1..], b[1..]);
      SquaredIsDifference(a[1..], b[1..]);
      SameSquare(a[0] - b[0]);
    }
  }

  lemma DifferenceSquared(a: Point, b: Point, t: real)
    requires |a| == |b|
    ensures var d := Minus(a, Scaled(t, b));
      Dot(d, d) == Dot(a, a) - 2.0 * t * Dot(a, b) + t * t * Dot(b, b)
  {
    hide Dot, Scaled, Minus;
    var s := Scaled(t, b);
    var d := Minus(a, s);
    DotSubtracts(a, s, d);
    DotSubtracts(a, s, a);
    DotSubtracts(a, s, s);
    DotSymmetric(a, d);
    DotSymmetric(s, d);
    DotScales(t, b, a);
    DotScales(t, b, s);
    DotScales(t, b, b);
    DotSymmetric(b, s);
    DotSymmetric(a, b);
    DotSymmetric(a, s);
    Expands(t, Dot(a, a), Dot(a, b), Dot(b, b));
  }

  lemma Expands(t: real, x: real, y: real, z: real)
    ensures (x - t * y) - (t * y - t * (t * z)) == x - 2.0 * t * y + t * t * z
  {
    assert t * (t * z) == t * t * z;
    assert 2.0 * t * y == t * y + t * y;
  }

  /** The inequality of Cauchy and Schwarz. */
  lemma DotIsBounded(a: Point, b: Point)
    requires |a| == |b|
    ensures Dot(a, b) * Dot(a, b) <= Dot(a, a) * Dot(b, b)
  {
    SelfDot(a);
    SelfDot(b);
    var x, y, z := Dot(a, a), Dot(a, b), Dot(b, b);
    if z == 0.0 {
      DotSymmetric(a, b);
      DotZero(b, a);
    } else {
      var t := y / z;
      DifferenceSquared(a, b, t);
      SelfDot(Minus(a, Scaled(t, b)));
      Discriminant(x, y, z, t);
    }
  }

  lemma Discriminant(x: real, y: real, z: real, t: real)
    requires z > 0.0 && t == y / z && x - 2.0 * t * y + t * t * z >= 0.0
    ensures y * y <= x * z
  {
    assert t * z == y;
    assert t * t * z == t * y by {
      assert t * t * z == t * (t * z);
    }
    assert x - t * y >= 0.0;
    assert (x - t * y) * z >= 0.0;
    assert (x - t * y) * z == x * z - (t * z) * y;
  }

  // ------------------------------------------------------------ cosine similarity

  lemma NormFacts(sqrt: real -> real, a: Point)
    requires Roots(sqrt)
    ensures Norm(sqrt, a) >= 0.0 && Norm(sqrt, a) * Norm(sqrt, a) == Dot(a, a)
  {
    SelfDot(a);
  }

  lemma QuotientBounded(y: real, d: real)
    requires d > 0.0 && y * y <= d * d
    ensures -1.0 <= y / d <= 1.0
  {
    var c := y / d;
    assert c * d == y;
    if c > 1.0 {
      LessTimes(1.0, c, d);
      LessTimes(d, y, y);
      LessTimes(d, y, d);
    }
    if c < -1.0 {
      SameSquare(y);
      LessTimes(1.0, -c, d);
      LessTimes(d, -y, -y);
      LessTimes(d, -y, d);
    }
  }

  /** Cosine similarity is between minus one and one, and one for a vector beside itself, unless it has no length. */
  lemma CosineIsBounded(sqrt: real -> real, a: Point, b: Point)
    requires Roots(sqrt) && |a| == |b|
    ensures -1.0 <= Cosine(sqrt, a, b) <= 1.0
    ensures Cosine(sqrt, a, a) == if Dot(a, a) == 0.0 then 0.0 else 1.0
  {
    hide Dot, Norm;
    NormFacts(sqrt, a);
    NormFacts(sqrt, b);
    DotIsBounded(a, b);
    ProductFacts(Norm(sqrt, a), Norm(sqrt, b));
    ProductFacts(Norm(sqrt, a), Norm(sqrt, a));
    var d := Norm(sqrt, a) * Norm(sqrt, b);
    if d != 0.0 {
      QuotientBounded(Dot(a, b), d);
    }
    if Dot(a, a) != 0.0 {
      SelfQuotient(Dot(a, a));
    }
  }

  lemma SelfQuotient(x: real)
    requires x != 0.0
    ensures x / x == 1.0
  {
  }

  lemma ProductFacts(m: real, n: real)
    requires m >= 0.0 && n >= 0.0
    ensures m * n >= 0.0 && (m * n) * (m * n) == (m * m) * (n * n)
  {
  }

  lemma ProductZero(x: real, y: real)
    requires x * y == 0.0
    ensures x == 0.0 || y == 0.0
  {
  }

  lemma SameRoot(u: real, v: real)
    requires u >= 0.0 && v >= 0.0 && u * u == v * v
    ensures u == v
  {
    assert (u - v) * (u + v) == u * u - v * v;
    ProductZero(u - v, u + v);
  }

  lemma SquareScales(t: real, r: real)
    requires t > 0.0 && r >= 0.0
    ensures (t * r) * (t * r) == t * t * (r * r) >= 0.0 && t * r >= 0.0
  {
    assert (t * r) * (t * r) == t * t * (r * r);
    assert (t * r) * (t * r) >= 0.0;
  }

  lemma NormScales(sqrt: real -> real, t: real, a: Point, s: Point)
    requires Roots(sqrt) && t > 0.0 && Dot(s, s) == t * t * Dot(a, a)
    ensures Norm(sqrt, s) == t * Norm(sqrt, a)
  {
    hide Dot;
    NormFacts(sqrt, a);
    NormFacts(sqrt, s);
    var m := Norm(sqrt, a);
    SquareScales(t, m);
    SameRoot(Norm(sqrt, s), t * m);
  }

  /** The length of a vector does not matter to it. */
  lemma CosineIgnoresScale(sqrt: real -> real, t: real, a: Point, b: Point)
    requires Roots(sqrt) && t > 0.0
    ensures Cosine(sqrt, Scaled(t, a), b) == Cosine(sqrt, a, b)
  {
    hide Dot, Scaled;
    var s := Scaled(t, a);
    SelfDot(a);
    DotScales(t, a, b);
    DotScales(t, a, s);
    DotScales(t, a, a);
    DotSymmetric(a, s);
    assert Dot(s, s) == t * (t * Dot(a, a)) == t * t * Dot(a, a);
    var m, n := Norm(sqrt, a), Norm(sqrt, b);
    NormScales(sqrt, t, a, s);
    assert t * m * n == t * (m * n);
    if m * n != 0.0 {
      Cancels(Dot(a, b), m * n, t);
    }
  }

  lemma Cancels(y: real, d: real, t: real)
    requires d != 0.0 && t != 0.0
    ensures t * d != 0.0 && (t * y) / (t * d) == y / d
  {
    assert t * d != 0.0;
    var c := y / d;
    assert c * d == y;
    assert c * (t * d) == t * y;
  }

  /** Times the two lengths it is the dot product. */
  lemma CosineTimesLengths(sqrt: real -> real, a: Point, b: Point)
    requires Roots(sqrt) && |a| == |b|
    ensures Cosine(sqrt, a, b) * (Norm(sqrt, a) * Norm(sqrt, b)) == Dot(a, b)
  {
    hide Dot, Norm;
    NormFacts(sqrt, a);
    NormFacts(sqrt, b);
    DotIsBounded(a, b);
    ProductFacts(Norm(sqrt, a), Norm(sqrt, b));
    var d := Norm(sqrt, a) * Norm(sqrt, b);
    if d == 0.0 {
      NoSquare(Dot(a, b));
    }
  }

  lemma NoSquare(y: real)
    ensures y * y <= 0.0 ==> y == 0.0
  {
    if y != 0.0 {
      SquarePositive(y);
    }
  }

  /** By distance or by angle nothing scores higher for a query than its own vector, and by distance nothing else as
      high; by dot product it scores its squared length, and twice that if it is twice as long. */
  lemma OwnVectorScoresHighest(sqrt: real -> real, q: Point, a: Point)
    requires Roots(sqrt) && |a| == |q|
    ensures ScoreOf(sqrt, EuclideanSquared, q, q) >= ScoreOf(sqrt, EuclideanSquared, q, a)
    ensures ScoreOf(sqrt, EuclideanSquared, q, q) == ScoreOf(sqrt, EuclideanSquared, q, a) <==> a == q
    ensures Dot(q, q) > 0.0 ==> ScoreOf(sqrt, CosineDistance, q, q) >= ScoreOf(sqrt, CosineDistance, q, a)
    ensures ScoreOf(sqrt, DotProduct, q, Scaled(2.0, q)) == 2.0 * Dot(q, q)
  {
    hide Dot, Cosine, SquaredDistance;
    CosineIsBounded(sqrt, q, a);
    DotScales(2.0, q, q);
    DotSymmetric(q, Scaled(2.0, q));
    ZeroDistance(q, q);
    ZeroDistance(q, a);
  }

  lemma NoDifference(a: Point, b: Point)
    requires |a| == |b| && forall i | 0 <= i < |a| :: Minus(a, b)[i] == 0.0
    ensures a == b
  {
    forall i | 0 <= i < |a| ensures a[i] == b[i] {
      assert Minus(a, b)[i] == 0.0;
    }
  }

  lemma ZeroDistance(a: Point, b: Point)
    requires |a| == |b|
    ensures SquaredDistance(a, b) >= 0.0 && (SquaredDistance(a, b) == 0.0 <==> a == b)
  {
    hide Dot;
    SquaredIsDifference(a, b);
    SelfDot(Minus(a, b));
    if a == b {
      DotZero(Minus(a, b), Minus(a, b));
    }
    if forall i | 0 <= i < |a| :: Minus(a, b)[i] == 0.0 {
      NoDifference(a, b);
    }
  }
}
