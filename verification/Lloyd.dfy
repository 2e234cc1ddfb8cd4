/** Why the rounds of clustering are worth their time: under the squared distance none makes the clusters worse
    (src/index.rs). */
module Lloyd {
  import opened Sums
  import opened Metrics
  import opened Ivf

  /** Clusters are assigned by the squared distance. */
  ghost predicate Euclidean(sp: Space) {
    forall a, b :: sp.dist(a, b) == SquaredDistance(a, b)
  }

  /** What one document costs beside the centroids `places`, in the cluster that `centroids` put it in. */
  ghost function Gap(sp: Space, centroids: seq<Ivf.Point>, places: seq<Ivf.Point>, vectors: seq<Ivf.Point>)
    : nat -> real
    requires centroids != [] && |centroids| == |places|
  {
    (o: nat) =>
      if o < |vectors| then SquaredDistance(places[Nearest(sp, centroids, vectors[o])], vectors[o]) else 0.0
  }

  /** How far all documents are from their nearest centroids: what clustering wants small. */
  ghost function Cost(sp: Space, centroids: seq<Ivf.Point>, vectors: seq<Ivf.Point>): real
    requires centroids != []
  {
    SumOver(Range(|vectors|), Gap(sp, centroids, centroids, vectors))
  }

  // ------------------------------------------------------------ one coordinate

  ghost function Squares(p: real, x: nat -> real): nat -> real {
    (o: nat) => Times(p - x(o), p - x(o))
  }

  lemma {:induction false} SquareSum(s: set<nat>, p: real, x: nat -> real)
    ensures SumOver(s, Squares(p, x)) ==
            Times(|s| as real, Times(p, p)) - 2.0 * Times(p, SumOver(s, x)) + SumOver(s, Squares(0.0, x))
    decreases |s|
  {
    hide Times, SumOver;
    if s != {} {
      var o :| o in s;
      var rest := s - {o};
      SquareSum(rest, p, x);
      SumTake(s, Squares(p, x), o);
      SumTake(s, x, o);
      SumTake(s, Squares(0.0, x), o);
      assert |s| as real == |rest| as real + 1.0;
      OneSquare(|rest| as real, p, x(o), SumOver(rest, x));
    } else {
      NoSquares(s, p, x);
    }
  }

  lemma NoSquares(s: set<nat>, p: real, x: nat -> real)
    requires s == {}
    ensures SumOver(s, Squares(p, x)) == SumOver(s, x) == Times(p, SumOver(s, x)) == 0.0
    ensures SumOver(s, Squares(0.0, x)) == 0.0 && Times(|s| as real, Times(p, p)) == 0.0
  {
  }

  lemma OneSquare(n: real, p: real, x: real, sum: real)
    ensures Times(n, Times(p, p)) - 2.0 * Times(p, sum) + Times(p - x, p - x) ==
            Times(n + 1.0, Times(p, p)) - 2.0 * Times(p, sum + x) + Times(0.0 - x, 0.0 - x)
  {
    assert (p - x) * (p - x) == p * p - 2.0 * (p * x) + x * x;
    assert p * (sum + x) == p * sum + p * x;
  }

  /** No number is nearer to a set of numbers, in squares, than their mean. */
  lemma MeanIsNearest(s: set<nat>, mean: real, p: real, x: nat -> real)
    requires mean * |s| as real == SumOver(s, x)
    ensures SumOver(s, Squares(mean, x)) <= SumOver(s, Squares(p, x))
  {
    SquareSum(s, mean, x);
    SquareSum(s, p, x);
    Complete(|s| as real, mean, p);
  }

  lemma Complete(n: real, mean: real, p: real)
    requires n >= 0.0
    ensures Times(n, Times(mean, mean)) - 2.0 * Times(mean, mean * n) <=
            Times(n, Times(p, p)) - 2.0 * Times(p, mean * n)
  {
    var d := p - mean;
    SameSquare(d);
    assert n * Times(d, d) >= 0.0;
    assert d * d == p * p - 2.0 * (p * mean) + mean * mean;
    assert n * (d * d) == n * (p * p) - 2.0 * (n * (p * mean)) + n * (mean * mean);
    assert Times(mean, mean * n) == n * (mean * mean);
    assert Times(p, mean * n) == n * (p * mean);
  }

  // ------------------------------------------------------------ all coordinates

  /** One coordinate of each of some points. */
  ghost function At(points: nat -> Ivf.Point, i: nat): nat -> real {
    (o: nat) => if i < |points(o)| then points(o)[i] else 0.0
  }

  ghost function Rest(points: nat -> Ivf.Point): nat -> Ivf.Point {
    (o: nat) => if points(o) == [] then [] else points(o)[1..]
  }

  ghost function Distances(p: Ivf.Point, points: nat -> Ivf.Point): nat -> real {
    (o: nat) => SquaredDistance(p, points(o))
  }

  lemma DistancesSplit(s: set<nat>, p: Ivf.Point, points: nat -> Ivf.Point)
    requires p != [] && forall o | o in s :: |points(o)| == |p|
    ensures SumOver(s, Distances(p, points)) ==
            SumOver(s, Squares(p[0], At(points, 0))) + SumOver(s, Distances(p[1..], Rest(points)))
  {
    hide Times;
    SumOfSums(s, Squares(p[0], At(points, 0)), Distances(p[1..], Rest(points)), Distances(p, points));
  }

  /** No point is nearer to a set of points than the one that is their mean in every coordinate. */
  lemma {:induction false} CentreIsNearest(s: set<nat>, mean: Ivf.Point, p: Ivf.Point, points: nat -> Ivf.Point)
    requires |mean| == |p| && forall o | o in s :: |points(o)| == |p|
    requires forall i | 0 <= i < |mean| :: mean[i] * |s| as real == SumOver(s, At(points, i))
    ensures SumOver(s, Distances(mean, points)) <= SumOver(s, Distances(p, points))
    decreases |p|
  {
    hide SumOver, SquaredDistance, Squares;
    if p == [] {
      assert mean == p;
    } else {
      DistancesSplit(s, mean, points);
      DistancesSplit(s, p, points);
      MeanIsNearest(s, mean[0], p[0], At(points, 0));
      RestIsMean(s, mean, points);
      RestSized(s, |p|, points);
      CentreIsNearest(s, mean[1..], p[1..], Rest(points));
    }
  }

  lemma RestSized(s: set<nat>, dim: nat, points: nat -> Ivf.Point)
    requires dim > 0 && forall o | o in s :: |points(o)| == dim
    ensures forall o | o in s :: |Rest(points)(o)| == dim - 1
  {
  }

  lemma RestIsMean(s: set<nat>, mean: Ivf.Point, points: nat -> Ivf.Point)
    requires mean != [] && forall o | o in s :: |points(o)| == |mean|
    requires forall i | 0 <= i < |mean| :: mean[i] * |s| as real == SumOver(s, At(points, i))
    ensures forall i | 0 <= i < |mean[1..]| :: mean[1..][i] * |s| as real == SumOver(s, At(Rest(points), i))
  {
    hide SumOver;
    forall i | 0 <= i < |mean[1..]| ensures mean[1..][i] * |s| as real == SumOver(s, At(Rest(points), i)) {
      assert mean[1..][i] == mean[i + 1];
      SumSame(s, At(Rest(points), i), At(points, i + 1));
    }
  }

  // ------------------------------------------------------------ all clusters

  /** The documents of the first `n` clusters. */
  ghost function Below(sp: Space, centroids: seq<Ivf.Point>, vectors: seq<Ivf.Point>, n: nat): set<nat>
    requires centroids != []
  {
    set o | o in Range(|vectors|) && Nearest(sp, centroids, vectors[o]) < n
  }

  ghost function Vector(vectors: seq<Ivf.Point>): nat -> Ivf.Point {
    (o: nat) => if o < |vectors| then vectors[o] else []
  }

  lemma ClusterImproves(sp: Space, centroids: seq<Ivf.Point>, vectors: seq<Ivf.Point>, dim: nat, c: nat)
    requires centroids != [] && AllOf(vectors, dim) && AllOf(centroids, dim) && c < |centroids|
    ensures var moved, near := Moved(sp, centroids, vectors, dim), Attracted(sp, centroids, vectors, c);
      SumOver(near, Distances(moved[c], Vector(vectors))) <= SumOver(near, Distances(centroids[c], Vector(vectors)))
  {
    hide Moved, Nearest;
    var moved, near := Moved(sp, centroids, vectors, dim), Attracted(sp, centroids, vectors, c);
    if near != {} {
      forall i | 0 <= i < dim ensures moved[c][i] * |near| as real == SumOver(near, At(Vector(vectors), i)) {
        MovedIsMean(sp, centroids, vectors, dim, c, i);
        SumSame(near, Coordinate(vectors, i), At(Vector(vectors), i));
      }
      CentreIsNearest(near, moved[c], centroids[c], Vector(vectors));
    }
  }

  lemma {:induction false} ClustersImprove(sp: Space, centroids: seq<Ivf.Point>, vectors: seq<Ivf.Point>, dim: nat,
                                           n: nat)
    requires centroids != [] && AllOf(vectors, dim) && AllOf(centroids, dim) && n <= |centroids|
    ensures var moved, some := Moved(sp, centroids, vectors, dim), Below(sp, centroids, vectors, n);
      SumOver(some, Gap(sp, centroids, moved, vectors)) <= SumOver(some, Gap(sp, centroids, centroids, vectors))
    decreases n
  {
    hide Moved, Nearest, SquaredDistance, Gap, Below, Attracted, Distances, SumOver;
    var moved, some := Moved(sp, centroids, vectors, dim), Below(sp, centroids, vectors, n);
    if n == 0 {
      NoneBelow(sp, centroids, vectors);
      SumBelow(some, Gap(sp, centroids, moved, vectors), Gap(sp, centroids, centroids, vectors));
    } else {
      var before, near := Below(sp, centroids, vectors, n - 1), Attracted(sp, centroids, vectors, n - 1);
      ClustersImprove(sp, centroids, vectors, dim, n - 1);
      ClusterImproves(sp, centroids, vectors, dim, n - 1);
      BelowNext(sp, centroids, vectors, n - 1);
      SumUnion(before, near, Gap(sp, centroids, moved, vectors));
      SumUnion(before, near, Gap(sp, centroids, centroids, vectors));
      GapIs(sp, centroids, moved, vectors, n - 1);
      GapIs(sp, centroids, centroids, vectors, n - 1);
    }
  }

  lemma NoneBelow(sp: Space, centroids: seq<Ivf.Point>, vectors: seq<Ivf.Point>)
    requires centroids != []
    ensures Below(sp, centroids, vectors, 0) == {}
  {
  }

  lemma BelowNext(sp: Space, centroids: seq<Ivf.Point>, vectors: seq<Ivf.Point>, c: nat)
    requires centroids != []
    ensures var before, near := Below(sp, centroids, vectors, c), Attracted(sp, centroids, vectors, c);
      before !! near && Below(sp, centroids, vectors, c + 1) == before + near
  {
    hide Nearest;
  }

  lemma GapIs(sp: Space, centroids: seq<Ivf.Point>, places: seq<Ivf.Point>, vectors: seq<Ivf.Point>, c: nat)
    requires centroids != [] && |places| == |centroids| && c < |centroids|
    ensures var near := Attracted(sp, centroids, vectors, c);
      SumOver(near, Gap(sp, centroids, places, vectors)) == SumOver(near, Distances(places[c], Vector(vectors)))
  {
    hide Nearest, SquaredDistance;
    SumSame(Attracted(sp, centroids, vectors, c), Gap(sp, centroids, places, vectors),
        Distances(places[c], Vector(vectors)));
  }

  lemma NearestCosts(sp: Space, centroids: seq<Ivf.Point>, places: seq<Ivf.Point>, vectors: seq<Ivf.Point>)
    requires Euclidean(sp) && centroids != [] && |places| == |centroids|
    ensures Cost(sp, places, vectors) <= SumOver(Range(|vectors|), Gap(sp, centroids, places, vectors))
  {
    hide Nearest, SquaredDistance;
    forall o | o in Range(|vectors|)
      ensures Gap(sp, places, places, vectors)(o) <= Gap(sp, centroids, places, vectors)(o)
    {
      NearestIsClosest(sp, places, vectors[o], Nearest(sp, centroids, vectors[o]));
    }
    SumBelow(Range(|vectors|), Gap(sp, places, places, vectors), Gap(sp, centroids, places, vectors));
  }

  lemma NearestIsClosest(sp: Space, places: seq<Ivf.Point>, v: Ivf.Point, i: nat)
    requires Euclidean(sp) && i < |places|
    ensures SquaredDistance(places[Nearest(sp, places, v)], v) <= SquaredDistance(places[i], v)
  {
    hide SquaredDistance;
    NearestIs(sp, places, v, |places|);
    var r := Nearest(sp, places, v);
    assert sp.dist(places[r], v) <= sp.dist(places[i], v);
  }

  /** A round of assigning and averaging never makes the documents farther from their nearest centroids. */
  lemma RoundImproves(sp: Space, centroids: seq<Ivf.Point>, vectors: seq<Ivf.Point>, dim: nat)
    requires Euclidean(sp) && centroids != [] && AllOf(vectors, dim) && AllOf(centroids, dim)
    ensures Cost(sp, Moved(sp, centroids, vectors, dim), vectors) <= Cost(sp, centroids, vectors)
  {
    hide Moved, Nearest, Gap;
    NearestCosts(sp, centroids, Moved(sp, centroids, vectors, dim), vectors);
    ClustersImprove(sp, centroids, vectors, dim, |centroids|);
    assert Below(sp, centroids, vectors, |centroids|) == Range(|vectors|) by {
      AllBelow(sp, centroids, vectors);
    }
  }

  lemma AllBelow(sp: Space, centroids: seq<Ivf.Point>, vectors: seq<Ivf.Point>)
    requires centroids != []
    ensures Below(sp, centroids, vectors, |centroids|) == Range(|vectors|)
  {
  }

  /** However many rounds are run, the clusters are at least as good as where they started, and no later round is
      worse than an earlier one. */
  lemma {:induction false} RoundsImprove(sp: Space, start: seq<Ivf.Point>, vectors: seq<Ivf.Point>, dim: nat,
                                         earlier: nat, later: nat)
    requires Euclidean(sp) && start != [] && AllOf(vectors, dim) && AllOf(start, dim) && earlier <= later
    ensures Cost(sp, Rounds(sp, start, vectors, dim, later), vectors) <=
            Cost(sp, Rounds(sp, start, vectors, dim, earlier), vectors)
    decreases later
  {
    hide Cost, Moved;
    if earlier < later {
      RoundsImprove(sp, start, vectors, dim, earlier, later - 1);
      RoundImproves(sp, Rounds(sp, start, vectors, dim, later - 1), vectors, dim);
    }
  }
}
