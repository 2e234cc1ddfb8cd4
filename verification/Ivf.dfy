/** The clustered vector index: building, probing, and what a probed query can see (src/index.rs,
    src/store.rs). */
module Ivf {
  import opened Wrappers
  import opened Records
  import opened Segments
  import opened Ranking
  import opened Tails
  import Sorting
  import opened Sums

  type Point = seq<real>

  /** The metric in exact arithmetic, and where a document stands. */
  datatype Space = Space(dist: (Point, Point) -> real, at: Doc -> Point)

  // ------------------------------------------------------------ the nearest centroid

  /** The first of the closest among the first `n`. */
  function NearestOf(sp: Space, centroids: seq<Point>, v: Point, n: nat): (r: nat)
    requires 1 <= n <= |centroids|
    ensures r < n
  {
    if n == 1 then 0
    else
      var best := NearestOf(sp, centroids, v, n - 1);
      if sp.dist(centroids[n - 1], v) < sp.dist(centroids[best], v) then n - 1 else best
  }

  function Nearest(sp: Space, centroids: seq<Point>, v: Point): nat
    requires centroids != []
    ensures Nearest(sp, centroids, v) < |centroids|
  {
    NearestOf(sp, centroids, v, |centroids|)
  }

  /** Closest of all, and the first to be that close. */
  ghost predicate IsNearest(sp: Space, centroids: seq<Point>, v: Point, n: nat, r: nat)
    requires n <= |centroids|
  {
    && r < n
    && (forall i | 0 <= i < n :: sp.dist(centroids[r], v) <= sp.dist(centroids[i], v))
    && (forall i | 0 <= i < r :: sp.dist(centroids[r], v) < sp.dist(centroids[i], v))
  }

  lemma {:induction false} NearestIs(sp: Space, centroids: seq<Point>, v: Point, n: nat)
    requires 1 <= n <= |centroids|
    ensures IsNearest(sp, centroids, v, n, NearestOf(sp, centroids, v, n))
    decreases n
  {
    if n > 1 {
      NearestIs(sp, centroids, v, n - 1);
    }
  }

  lemma OneNearest(sp: Space, centroids: seq<Point>, v: Point, r: nat)
    requires centroids != [] && IsNearest(sp, centroids, v, |centroids|, r)
    ensures r == Nearest(sp, centroids, v)
  {
    NearestIs(sp, centroids, v, |centroids|);
  }

  method FindNearest(sp: Space, centroids: seq<Point>, v: Point) returns (best: nat)
    requires centroids != []
    ensures best == Nearest(sp, centroids, v) && IsNearest(sp, centroids, v, |centroids|, best)
  {
    NearestIs(sp, centroids, v, |centroids|);
    best := 0;
    var bestD := sp.dist(centroids[0], v);
    for i := 1 to |centroids|
      invariant best == NearestOf(sp, centroids, v, i) && bestD == sp.dist(centroids[best], v)
    {
      var d := sp.dist(centroids[i], v);
      if d < bestD {
        bestD, best := d, i;
      }
    }
  }

  // ------------------------------------------------------------ k-means

  function Add(a: Point, b: Point): (r: Point)
    requires |a| == |b|
    ensures |r| == |a|
  {
    seq(|a|, i requires 0 <= i < |a| => a[i] + b[i])
  }

  predicate AllOf(vectors: seq<Point>, dim: nat) {
    forall i | 0 <= i < |vectors| :: |vectors[i]| == dim
  }

  /** The points a centroid attracts among the first `n`: how many, and their sum. */
  function Count(sp: Space, centroids: seq<Point>, vectors: seq<Point>, c: nat, n: nat): nat
    requires centroids != [] && n <= |vectors|
  {
    if n == 0 then 0
    else Count(sp, centroids, vectors, c, n - 1) + if Nearest(sp, centroids, vectors[n - 1]) == c then 1 else 0
  }

  function Sum(sp: Space, centroids: seq<Point>, vectors: seq<Point>, dim: nat, c: nat, n: nat): (r: Point)
    requires centroids != [] && n <= |vectors| && AllOf(vectors, dim)
    ensures |r| == dim
  {
    if n == 0 then seq(dim, _ => 0.0)
    else
      var before := Sum(sp, centroids, vectors, dim, c, n - 1);
      if Nearest(sp, centroids, vectors[n - 1]) == c then Add(before, vectors[n - 1]) else before
  }

  function Scaled(p: Point, n: nat): (r: Point)
    requires n > 0
    ensures |r| == |p|
  {
    seq(|p|, i requires 0 <= i < |p| => p[i] / n as real)
  }

  /** One round: every centroid moves to the mean of what it attracts, or stays if it attracts nothing. */
  function Moved(sp: Space, centroids: seq<Point>, vectors: seq<Point>, dim: nat): (r: seq<Point>)
    requires centroids != [] && AllOf(vectors, dim) && AllOf(centroids, dim)
    ensures |r| == |centroids| && AllOf(r, dim)
  {
    seq(|centroids|, c requires 0 <= c < |centroids| =>
      var n := Count(sp, centroids, vectors, c, |vectors|);
      if n == 0 then centroids[c] else Scaled(Sum(sp, centroids, vectors, dim, c, |vectors|), n))
  }

  function Rounds(sp: Space, centroids: seq<Point>, vectors: seq<Point>, dim: nat, iters: nat): (r: seq<Point>)
    requires centroids != [] && AllOf(vectors, dim) && AllOf(centroids, dim)
    ensures |r| == |centroids| && AllOf(r, dim)
  {
    if iters == 0 then centroids else Moved(sp, Rounds(sp, centroids, vectors, dim, iters - 1), vectors, dim)
  }

  lemma StrideInRange(i: nat, n: nat, k: nat)
    requires i < k <= n
    ensures i * n / k < n
  {
    assert i * n <= (k - 1) * n;
    assert (k - 1) * n < k * n;
    QuotientBelow(i * n, k, n);
  }

  lemma QuotientBelow(x: nat, k: nat, n: nat)
    requires k > 0 && x < k * n
    ensures x / k < n
  {
    var q := x / k;
    assert k * q <= x;
    if q >= n {
      MonotoneTimes(k, n, q);
    }
  }

  lemma MonotoneTimes(k: nat, a: nat, b: nat)
    requires a <= b
    ensures k * a <= k * b
  {
  }

  function StrideAt(vectors: seq<Point>, k: nat, i: nat): (v: Point)
    requires i < k <= |vectors|
    ensures v in vectors
  {
    StrideInRange(i, |vectors|, k);
    vectors[i * |vectors| / k]
  }

  /** Evenly strided starting points. */
  function Strided(vectors: seq<Point>, k: nat): (r: seq<Point>)
    requires 1 <= k <= |vectors|
    ensures |r| == k && forall i | 0 <= i < k :: r[i] in vectors
  {
    seq(k, i requires 0 <= i < k => StrideAt(vectors, k, i))
  }

  function Clamp(k: nat, n: nat): nat
    requires n >= 1
  {
    if k < 1 then 1 else if k > n then n else k
  }

  /** The vectors nearest to one centroid, and one coordinate of each. */
  ghost function Attracted(sp: Space, centroids: seq<Point>, vectors: seq<Point>, c: nat): set<nat>
    requires centroids != []
  {
    set o: nat | o < |vectors| && Nearest(sp, centroids, vectors[o]) == c
  }

  ghost function Coordinate(vectors: seq<Point>, i: nat): nat -> real {
    (o: nat) => if o < |vectors| && i < |vectors[o]| then vectors[o][i] else 0.0
  }

  lemma {:induction false} CountsAttracted(sp: Space, centroids: seq<Point>, vectors: seq<Point>, dim: nat, c: nat,
                                           n: nat, i: nat)
    requires centroids != [] && n <= |vectors| && AllOf(vectors, dim) && i < dim
    ensures Count(sp, centroids, vectors, c, n) == |Attracted(sp, centroids, vectors[..n], c)|
    ensures Sum(sp, centroids, vectors, dim, c, n)[i] ==
            SumOver(Attracted(sp, centroids, vectors[..n], c), Coordinate(vectors, i))
    decreases n
  {
    hide Nearest, Attracted, SumOver;
    if n > 0 {
      CountsAttracted(sp, centroids, vectors, dim, c, n - 1, i);
      AttractedNext(sp, centroids, vectors, c, n);
      if Nearest(sp, centroids, vectors[n - 1]) == c {
        SumAdd<nat>(Attracted(sp, centroids, vectors[..n - 1], c), Coordinate(vectors, i), n - 1);
      }
    } else {
      NoneAttracted(sp, centroids, vectors[..0], c, Coordinate(vectors, i));
    }
  }

  lemma NoneAttracted(sp: Space, centroids: seq<Point>, vectors: seq<Point>, c: nat, f: nat -> real)
    requires centroids != [] && vectors == []
    ensures Attracted(sp, centroids, vectors, c) == {} && SumOver(Attracted(sp, centroids, vectors, c), f) == 0.0
  {
  }

  lemma AttractedNext(sp: Space, centroids: seq<Point>, vectors: seq<Point>, c: nat, n: nat)
    requires centroids != [] && 0 < n <= |vectors|
    ensures var before := Attracted(sp, centroids, vectors[..n - 1], c);
      var after := Attracted(sp, centroids, vectors[..n], c);
      && n - 1 !in before
      && after == (if Nearest(sp, centroids, vectors[n - 1]) == c then before + {n - 1} else before)
  {
    hide Nearest;
  }

  /** A round moves each centroid to the mean of the vectors it attracts: in every coordinate, what it has times how
      many they are is their sum. One that attracts none stays. */
  lemma MovedIsMean(sp: Space, centroids: seq<Point>, vectors: seq<Point>, dim: nat, c: nat, i: nat)
    requires centroids != [] && AllOf(vectors, dim) && AllOf(centroids, dim) && c < |centroids| && i < dim
    ensures var moved, near := Moved(sp, centroids, vectors, dim), Attracted(sp, centroids, vectors, c);
      && (near == {} ==> moved[c] == centroids[c])
      && (near != {} ==> moved[c][i] * |near| as real == SumOver(near, Coordinate(vectors, i)))
  {
    CountsAttracted(sp, centroids, vectors, dim, c, |vectors|, i);
    assert vectors[..|vectors|] == vectors;
  }

  /** The sums and counts of one round. */
  method Gather(sp: Space, centroids: seq<Point>, vectors: seq<Point>, dim: nat)
    returns (sums: seq<Point>, counts: seq<nat>)
    requires centroids != [] && AllOf(vectors, dim)
    ensures |sums| == |counts| == |centroids|
    ensures forall c | 0 <= c < |centroids| :: sums[c] == Sum(sp, centroids, vectors, dim, c, |vectors|)
    ensures forall c | 0 <= c < |centroids| :: counts[c] == Count(sp, centroids, vectors, c, |vectors|)
  {
    sums := seq(|centroids|, _ => seq(dim, _ => 0.0));
    counts := seq(|centroids|, _ => 0);
    for i := 0 to |vectors|
      invariant |sums| == |counts| == |centroids|
      invariant forall c | 0 <= c < |centroids| :: sums[c] == Sum(sp, centroids, vectors, dim, c, i)
      invariant forall c | 0 <= c < |centroids| :: counts[c] == Count(sp, centroids, vectors, c, i)
    {
      var c := FindNearest(sp, centroids, vectors[i]);
      counts := counts[c := counts[c] + 1];
      sums := sums[c := Add(sums[c], vectors[i])];
    }
  }

  method KMeans(sp: Space, vectors: seq<Point>, k: nat, iters: nat, dim: nat) returns (centroids: seq<Point>)
    requires vectors != [] && AllOf(vectors, dim)
    ensures centroids == Rounds(sp, Strided(vectors, Clamp(k, |vectors|)), vectors, dim, iters)
    ensures |centroids| == Clamp(k, |vectors|) && AllOf(centroids, dim)
    ensures |centroids| == if k == 0 then 1 else if |vectors| < k then |vectors| else k
  {
    hide Moved;
    var start := Strided(vectors, Clamp(k, |vectors|));
    assert AllOf(start, dim);
    centroids := start;
    for round := 0 to iters
      invariant |centroids| == |start| && AllOf(centroids, dim) && centroids == Rounds(sp, start, vectors, dim, round)
    {
      centroids := Move(sp, centroids, vectors, dim);
    }
  }

  /** One round: each centroid with vectors of its own becomes their mean, the others stay. */
  method Move(sp: Space, centroids: seq<Point>, vectors: seq<Point>, dim: nat) returns (next: seq<Point>)
    requires centroids != [] && AllOf(vectors, dim) && AllOf(centroids, dim)
    ensures next == Moved(sp, centroids, vectors, dim)
  {
    var sums, counts := Gather(sp, centroids, vectors, dim);
    next := centroids;
    for c := 0 to |centroids|
      invariant |next| == |centroids|
      invariant forall j | 0 <= j < c :: next[j] == Moved(sp, centroids, vectors, dim)[j]
      invariant forall j | c <= j < |next| :: next[j] == centroids[j]
    {
      if counts[c] != 0 {
        next := next[c := Scaled(sums[c], counts[c])];
      }
    }
    assert next == Moved(sp, centroids, vectors, dim);
  }

  // ------------------------------------------------------------ clusters

  /** The documents nearest to one centroid, in their own order. */
  function ClusterOf(sp: Space, centroids: seq<Point>, docs: seq<Doc>, c: nat): seq<Doc>
    requires centroids != []
    decreases |docs|
  {
    if docs == [] then []
    else
      var last := docs[|docs| - 1];
      ClusterOf(sp, centroids, docs[..|docs| - 1], c) + if Nearest(sp, centroids, sp.at(last)) == c then [last] else []
  }

  /** A built index: no cluster is empty, and each holds exactly the documents its centroid is nearest to. */
  ghost predicate Built(sp: Space, docs: seq<Doc>, centroids: seq<Point>, groups: seq<seq<Doc>>) {
    && centroids != [] && |groups| == |centroids|
    && forall c | 0 <= c < |groups| :: groups[c] != [] && groups[c] == ClusterOf(sp, centroids, docs, c)
  }

  lemma {:induction false} ClusterHas(sp: Space, centroids: seq<Point>, docs: seq<Doc>, c: nat, d: Doc)
    requires centroids != []
    ensures d in ClusterOf(sp, centroids, docs, c) <==> d in docs && Nearest(sp, centroids, sp.at(d)) == c
    decreases |docs|
  {
    if docs != [] {
      ClusterHas(sp, centroids, docs[..|docs| - 1], c, d);
      assert docs == docs[..|docs| - 1] + [docs[|docs| - 1]];
    }
  }

  /** Every document stands in exactly one cluster of a built index. */
  lemma OneClusterEach(sp: Space, docs: seq<Doc>, centroids: seq<Point>, groups: seq<seq<Doc>>, d: Doc, c: nat)
    requires Built(sp, docs, centroids, groups) && d in docs && c < |groups|
    ensures d in groups[c] <==> c == Nearest(sp, centroids, sp.at(d))
  {
    ClusterHas(sp, centroids, docs, c, d);
  }

  /** Positions kept when empty clusters are dropped. */
  ghost predicate Keeps(kept: seq<nat>, n: nat) {
    && (forall i | 0 <= i < |kept| :: kept[i] < n)
    && (forall i, j | 0 <= i < j < |kept| :: kept[i] < kept[j])
  }

  function Pick(centroids: seq<Point>, kept: seq<nat>): (r: seq<Point>)
    requires forall i | 0 <= i < |kept| :: kept[i] < |centroids|
    ensures |r| == |kept| && forall i | 0 <= i < |r| :: r[i] == centroids[kept[i]]
  {
    seq(|kept|, i requires 0 <= i < |kept| => centroids[kept[i]])
  }

  /** Dropping other centroids does not change which one is nearest, ties included. */
  lemma StillNearest(sp: Space, centroids: seq<Point>, kept: seq<nat>, v: Point, i: nat)
    requires centroids != [] && Keeps(kept, |centroids|) && i < |kept| && Nearest(sp, centroids, v) == kept[i]
    ensures Nearest(sp, Pick(centroids, kept), v) == i
  {
    NearestIs(sp, centroids, v, |centroids|);
    OneNearest(sp, Pick(centroids, kept), v, i);
  }

  lemma {:induction false} SameCluster(sp: Space, centroids: seq<Point>, kept: seq<nat>, docs: seq<Doc>, i: nat)
    requires centroids != [] && Keeps(kept, |centroids|) && i < |kept|
    requires forall d | d in docs :: exists j :: 0 <= j < |kept| && kept[j] == Nearest(sp, centroids, sp.at(d))
    ensures ClusterOf(sp, Pick(centroids, kept), docs, i) == ClusterOf(sp, centroids, docs, kept[i])
    decreases |docs|
  {
    if docs != [] {
      var front, last := docs[..|docs| - 1], docs[|docs| - 1];
      assert docs == front + [last];
      assert forall d | d in front :: d in docs;
      SameCluster(sp, centroids, kept, front, i);
      assert last in docs;
      var j :| 0 <= j < |kept| && kept[j] == Nearest(sp, centroids, sp.at(last));
      StillNearest(sp, centroids, kept, sp.at(last), j);
    }
  }

  /** Put every document into the group of its nearest centroid. */
  method Assign(sp: Space, centroids: seq<Point>, docs: seq<Doc>) returns (groups: seq<seq<Doc>>)
    requires centroids != []
    ensures |groups| == |centroids| && forall c | 0 <= c < |groups| :: groups[c] == ClusterOf(sp, centroids, docs, c)
  {
    groups := seq(|centroids|, _ => []);
    for i := 0 to |docs|
      invariant |groups| == |centroids| && forall c | 0 <= c < |groups| ::
        groups[c] == ClusterOf(sp, centroids, docs[..i], c)
    {
      assert docs[..i + 1][..i] == docs[..i];
      var c := FindNearest(sp, centroids, sp.at(docs[i]));
      groups := groups[c := groups[c] + [docs[i]]];
    }
    assert docs[..|docs|] == docs;
  }

  /** Drop the empty clusters, and their centroids with them. */
  method DropEmpty(centroids: seq<Point>, all: seq<seq<Doc>>)
    returns (flat: seq<Point>, groups: seq<seq<Doc>>, ghost kept: seq<nat>)
    requires |all| == |centroids|
    ensures Keeps(kept, |centroids|) && flat == Pick(centroids, kept) && |groups| == |kept|
    ensures forall i | 0 <= i < |kept| :: groups[i] == all[kept[i]] != []
    ensures forall j | 0 <= j < |all| && all[j] != [] :: j in kept
  {
    flat, groups, kept := [], [], [];
    for c := 0 to |centroids|
      invariant Keeps(kept, |centroids|) && flat == Pick(centroids, kept) && |groups| == |kept|
      invariant forall i | 0 <= i < |kept| :: kept[i] < c && groups[i] == all[kept[i]] != []
      invariant forall j | 0 <= j < c && all[j] != [] :: j in kept
    {
      if all[c] != [] {
        flat, groups, kept := flat + [centroids[c]], groups + [all[c]], kept + [c];
      }
    }
  }

  /** Cluster the documents, then drop the empty clusters with their centroids. `None` is the source's
      refusal of no documents or of mixed dimensions. */
  method Build(sp: Space, docs: seq<Doc>, k: nat, iters: nat) returns (r: Option<(seq<Point>, seq<seq<Doc>>)>)
    ensures r.None? <==> docs == [] || exists i :: 0 <= i < |docs| && |sp.at(docs[i])| != |sp.at(docs[0])|
    ensures r.Some? ==> Built(sp, docs, r.value.0, r.value.1)
  {
    if docs == [] || exists i :: 0 <= i < |docs| && |sp.at(docs[i])| != |sp.at(docs[0])| {
      return None;
    }
    var vectors := seq(|docs|, i requires 0 <= i < |docs| => sp.at(docs[i]));
    var centroids := KMeans(sp, vectors, if k < |docs| then k else |docs|, iters, |sp.at(docs[0])|);
    var all := Assign(sp, centroids, docs);
    hide Nearest, ClusterOf, Rounds, Pick;
    var flat, groups; ghost var kept;
    flat, groups, kept := DropEmpty(centroids, all);
    DroppedIsBuilt(sp, docs, centroids, all, flat, groups, kept);
    return Some((flat, groups));
  }

  /** Where points are the documents' vectors, that is a segment of vectors of different lengths. */
  lemma UnevenIsRefused(sp: Space, docs: seq<Doc>)
    requires forall d :: |sp.at(d)| == |d.vector|
    ensures Uneven(docs) <==> exists i :: 0 <= i < |docs| && |sp.at(docs[i])| != |sp.at(docs[0])|
  {
  }

  lemma DroppedIsBuilt(sp: Space, docs: seq<Doc>, centroids: seq<Point>, all: seq<seq<Doc>>, flat: seq<Point>,
                       groups: seq<seq<Doc>>, kept: seq<nat>)
    requires docs != [] && centroids != [] && |all| == |centroids| && forall c | 0 <= c < |all| ::
      all[c] == ClusterOf(sp, centroids, docs, c)
    requires Keeps(kept, |centroids|) && flat == Pick(centroids, kept) && |groups| == |kept|
    requires forall i | 0 <= i < |kept| :: groups[i] == all[kept[i]] != []
    requires forall j | 0 <= j < |all| && all[j] != [] :: j in kept
    ensures Built(sp, docs, flat, groups)
  {
    hide ClusterOf, Nearest;
    forall d | d in docs ensures exists j :: 0 <= j < |kept| && kept[j] == Nearest(sp, centroids, sp.at(d)) {
      ClusterHas(sp, centroids, docs, Nearest(sp, centroids, sp.at(d)), d);
      assert Nearest(sp, centroids, sp.at(d)) in kept;
    }
    assert docs[0] in docs;
    forall i | 0 <= i < |groups| ensures groups[i] == ClusterOf(sp, flat, docs, i) {
      SameCluster(sp, centroids, kept, docs, i);
    }
  }

  // ------------------------------------------------------------ probing

  predicate Closer(sp: Space, centroids: seq<Point>, q: Point, i: nat, j: nat) {
    i < |centroids| && j < |centroids| &&
    (sp.dist(centroids[i], q) < sp.dist(centroids[j], q) ||
        (sp.dist(centroids[i], q) == sp.dist(centroids[j], q) && i < j))
  }

  /** The clusters a query looks into: as many as asked, at least one, none closer left out. */
  ghost predicate Probes(sp: Space, centroids: seq<Point>, q: Point, nprobe: nat, probed: seq<nat>) {
    && |probed| == (if nprobe < 1 then 1 else if nprobe < |centroids| then nprobe else |centroids|)
    && (forall i | 0 <= i < |probed| :: probed[i] < |centroids|)
    && (forall i, j | 0 <= i < j < |probed| ::
          probed[i] != probed[j] && sp.dist(centroids[probed[i]], q) <= sp.dist(centroids[probed[j]], q))
    && (forall i, c | 0 <= i < |probed| && 0 <= c < |centroids| && c !in probed ::
        sp.dist(centroids[probed[i]], q) <= sp.dist(centroids[c], q))
  }

  function Indices(n: nat): (r: seq<nat>)
    ensures |r| == n && forall i | 0 <= i < n :: r[i] == i
  {
    seq(n, i requires 0 <= i < n => i)
  }

  lemma CloserIsStrict(sp: Space, centroids: seq<Point>, q: Point)
    ensures Sorting.Strict((i: nat, j: nat) => Closer(sp, centroids, q, i, j), Sorting.Members(Indices(|centroids|)))
  {
    forall i | i in Sorting.Members(Indices(|centroids|)) ensures i < |centroids| {
      var k :| 0 <= k < |centroids| && Indices(|centroids|)[k] == i;
    }
  }

  /** All indices, closest first. */
  lemma CloserIsNear(sp: Space, centroids: seq<Point>, q: Point, i: nat, j: nat)
    requires Closer(sp, centroids, q, i, j)
    ensures i < |centroids| && j < |centroids| && sp.dist(centroids[i], q) <= sp.dist(centroids[j], q)
  {
  }

  lemma SortedIndices(sp: Space, centroids: seq<Point>, q: Point, sorted: seq<nat>)
    requires sorted == Sorting.Sort((i: nat, j: nat) => Closer(sp, centroids, q, i, j), Indices(|centroids|))
    ensures |sorted| == |centroids| && (forall i | 0 <= i < |sorted| :: sorted[i] < |centroids|)
    ensures forall i, j | 0 <= i < j < |sorted| ::
      sorted[i] != sorted[j] && sp.dist(centroids[sorted[i]], q) <= sp.dist(centroids[sorted[j]], q)
    ensures forall c: nat | c < |centroids| :: c in sorted
  {
    hide Sorting.Sort, Closer;
    var n, closer := |centroids|, (i: nat, j: nat) => Closer(sp, centroids, q, i, j);
    CloserIsStrict(sp, centroids, q);
    Sorting.SortAscends(closer, Indices(n));
    Sorting.SortDistinct(closer, Indices(n));
    Sorting.SortMembers(closer, Indices(n));
    forall i | 0 <= i < n ensures sorted[i] < n {
      assert sorted[i] in Sorting.Members(sorted);
      var k :| 0 <= k < n && Indices(n)[k] == sorted[i];
    }
    forall c: nat | c < n ensures c in sorted {
      assert Indices(n)[c] == c;
      assert c in Sorting.Members(Indices(n));
    }
    forall i, j | 0 <= i < j < |sorted| ensures sp.dist(centroids[sorted[i]], q) <= sp.dist(centroids[sorted[j]], q) {
      assert closer(sorted[i], sorted[j]);
      CloserIsNear(sp, centroids, q, sorted[i], sorted[j]);
    }
  }

  method Probe(sp: Space, centroids: seq<Point>, q: Point, nprobe: nat) returns (probed: seq<nat>)
    requires centroids != []
    ensures Probes(sp, centroids, q, nprobe, probed)
  {
    hide Sorting.Sort, Closer;
    var sorted := Sorting.Sort((i: nat, j: nat) => Closer(sp, centroids, q, i, j), Indices(|centroids|));
    SortedIndices(sp, centroids, q, sorted);
    probed := Sorting.Take(if nprobe < 1 then 1 else nprobe, sorted);
    FirstAreProbed(sp, centroids, q, nprobe, sorted, probed);
  }

  lemma FirstAreProbed(sp: Space, centroids: seq<Point>, q: Point, nprobe: nat, sorted: seq<nat>, probed: seq<nat>)
    requires centroids != [] && |sorted| == |centroids| && (forall i | 0 <= i < |sorted| :: sorted[i] < |centroids|)
    requires forall i, j | 0 <= i < j < |sorted| ::
      sorted[i] != sorted[j] && sp.dist(centroids[sorted[i]], q) <= sp.dist(centroids[sorted[j]], q)
    requires forall c: nat | c < |centroids| :: c in sorted
    requires probed == Sorting.Take(if nprobe < 1 then 1 else nprobe, sorted)
    ensures Probes(sp, centroids, q, nprobe, probed)
  {
    forall i, c: nat | 0 <= i < |probed| && c < |centroids| && c !in probed
      ensures sp.dist(centroids[probed[i]], q) <= sp.dist(centroids[c], q)
    {
      assert c in sorted;
      var j :| 0 <= j < |sorted| && sorted[j] == c;
      assert j >= |probed|;
    }
  }

  // ------------------------------------------------------------ what a probed query sees

  /** The ordinals of the documents in the probed clusters. */
  ghost function Seen(sp: Space, centroids: seq<Point>, docs: seq<Doc>, probed: seq<nat>): set<nat>
    requires centroids != []
  {
    set o | 0 <= o < |docs| && Nearest(sp, centroids, sp.at(docs[o])) in probed
  }

  function Gathered(groups: seq<seq<Doc>>, probed: seq<nat>): seq<Doc>
    requires forall i | 0 <= i < |probed| :: probed[i] < |groups|
    decreases |probed|
  {
    if probed == [] then [] else Gathered(groups, probed[..|probed| - 1]) + groups[probed[|probed| - 1]]
  }

  lemma {:induction false} ReplayUpserts(live: Live, docs: seq<Doc>, whole: Live, id: Id)
    requires forall i | 0 <= i < |docs| :: docs[i].id in whole && whole[docs[i].id] == docs[i]
    ensures At(Replay(live, Upserts(docs)), id) ==
            if exists i :: 0 <= i < |docs| && docs[i].id == id then At(whole, id) else At(live, id)
    decreases |docs|
  {
    if docs != [] {
      var front, last := docs[..|docs| - 1], docs[|docs| - 1];
      assert Upserts(docs) == Upserts(front) + [Upsert(last)];
      ReplayConcat(live, Upserts(front), [Upsert(last)]);
      ReplayUpserts(live, front, whole, id);
      assert Replay(Replay(live, Upserts(front)), [Upsert(last)]) ==
          Apply(Replay(live, Upserts(front)), Upsert(last)) by {
        assert [Upsert(last)][1..] == [];
      }
      if i :| 0 <= i < |front| && front[i].id == id {
        assert docs[i].id == id;
      }
    }
  }

  lemma {:induction false} GatheredHas(sp: Space, docs: seq<Doc>, centroids: seq<Point>, groups: seq<seq<Doc>>,
                                       probed: seq<nat>, d: Doc)
    requires Built(sp, docs, centroids, groups) && forall i | 0 <= i < |probed| :: probed[i] < |groups|
    ensures d in Gathered(groups, probed) <==> d in docs && Nearest(sp, centroids, sp.at(d)) in probed
    decreases |probed|
  {
    if probed != [] {
      var front, last := probed[..|probed| - 1], probed[|probed| - 1];
      GatheredHas(sp, docs, centroids, groups, front, d);
      ClusterHas(sp, centroids, docs, last, d);
      assert probed == front + [last];
    }
  }

  /** Materializing the probed clusters gives the segment restricted to what they hold. */
  lemma GatheredIsChosen(sp: Space, docs: seq<Doc>, centroids: seq<Point>, groups: seq<seq<Doc>>, probed: seq<nat>)
    requires DistinctIds(docs) && Built(sp, docs, centroids, groups) && forall i | 0 <= i < |probed| ::
      probed[i] < |groups|
    ensures Replay(map[], Upserts(Gathered(groups, probed))) == Chosen(docs, Seen(sp, centroids, docs, probed))
  {
    hide LiveDocs, Nearest, Gathered, ClusterOf;
    var found, chosen, whole := Gathered(groups, probed), Seen(sp, centroids, docs, probed), LiveDocs(docs);
    forall i | 0 <= i < |found| ensures found[i].id in whole && whole[found[i].id] == found[i] && found[i] in docs {
      GatheredHas(sp, docs, centroids, groups, probed, found[i]);
      var o :| 0 <= o < |docs| && docs[o] == found[i];
      LiveDocAt(docs, o);
    }
    forall id ensures At(Replay(map[], Upserts(found)), id) == At(Chosen(docs, chosen), id) {
      ReplayUpserts(map[], found, whole, id);
      FoundIsSelected(sp, docs, centroids, groups, probed, id);
      LiveDocsAre(docs, id);
    }
    SameEverywhere(Replay(map[], Upserts(found)), Chosen(docs, chosen));
  }

  lemma FoundIsSelected(sp: Space, docs: seq<Doc>, centroids: seq<Point>, groups: seq<seq<Doc>>, probed: seq<nat>,
                        id: Id)
    requires Built(sp, docs, centroids, groups) && forall i | 0 <= i < |probed| :: probed[i] < |groups|
    ensures (exists i :: 0 <= i < |Gathered(groups, probed)| && Gathered(groups, probed)[i].id == id) <==>
            Selected(docs, Seen(sp, centroids, docs, probed), id)
  {
    hide Gathered, Nearest, ClusterOf;
    var found := Gathered(groups, probed);
    if i :| 0 <= i < |found| && found[i].id == id {
      GatheredHas(sp, docs, centroids, groups, probed, found[i]);
      var o :| 0 <= o < |docs| && docs[o] == found[i];
      assert o in Seen(sp, centroids, docs, probed);
    }
    if Selected(docs, Seen(sp, centroids, docs, probed), id) {
      var o :| 0 <= o < |docs| && o in Seen(sp, centroids, docs, probed) && docs[o].id == id;
      GatheredHas(sp, docs, centroids, groups, probed, docs[o]);
      var i :| 0 <= i < |found| && found[i] == docs[o];
    }
  }

  /** Probing every cluster sees every document: the exact answer, for any tail. */
  lemma AllProbedIsExact(sp: Space, ask: Ask, docs: seq<Doc>, centroids: seq<Point>, q: Point, nprobe: nat,
                         probed: seq<nat>, tail: seq<Record>)
    requires DistinctIds(docs) && centroids != [] && Probes(sp, centroids, q, nprobe, probed) && nprobe >= |centroids|
    ensures Best(ask, Replay(Chosen(docs, Seen(sp, centroids, docs, probed)), tail)) ==
      Best(ask, Replay(LiveDocs(docs), tail))
  {
    hide Best, Replay, Nearest;
    EveryIndex(probed, |centroids|);
    forall id | id in LiveDocs(docs) ensures Selected(docs, Seen(sp, centroids, docs, probed), id) {
      LiveDocsAre(docs, id);
      var o :| 0 <= o < |docs| && docs[o].id == id;
      assert o in Seen(sp, centroids, docs, probed);
    }
    assert Chosen(docs, Seen(sp, centroids, docs, probed)) == LiveDocs(docs);
  }

  lemma {:induction false} EveryIndex(xs: seq<nat>, n: nat)
    requires |xs| == n && (forall i | 0 <= i < n :: xs[i] < n) && forall i, j | 0 <= i < j < n :: xs[i] != xs[j]
    ensures forall c | 0 <= c < n :: c in xs
    decreases n
  {
    var s, all := Sorting.Members(xs), Range(n);
    DistinctCount(xs);
    assert s <= all;
    SubsetFull(s, all);
    forall c | 0 <= c < n ensures c in xs {
      assert c in all && c in s;
    }
  }

  lemma {:induction false} DistinctCount(xs: seq<nat>)
    requires forall i, j | 0 <= i < j < |xs| :: xs[i] != xs[j]
    ensures |Sorting.Members(xs)| == |xs|
    decreases |xs|
  {
    if xs != [] {
      var front, last := xs[..|xs| - 1], xs[|xs| - 1];
      DistinctCount(front);
      assert xs == front + [last] && last !in front;
      assert Sorting.Members(xs) == Sorting.Members(front) + {last};
    }
  }

  function Range(n: nat): (r: set<nat>)
    ensures |r| == n && forall c :: c in r <==> 0 <= c < n
  {
    if n == 0 then {} else Range(n - 1) + {n - 1}
  }

  lemma SubsetFull(a: set<nat>, b: set<nat>)
    requires a <= b && |a| == |b|
    ensures a == b
  {
    assert b == a + (b - a);
  }

  /** A query at a document's own place sees that document even with a single probe, if the centroid nearest
      to it is alone at that distance. */
  lemma OwnVectorIsSeen(sp: Space, docs: seq<Doc>, centroids: seq<Point>, o: nat, nprobe: nat, probed: seq<nat>)
    requires centroids != [] && o < |docs| && Probes(sp, centroids, sp.at(docs[o]), nprobe, probed)
    requires var c := Nearest(sp, centroids, sp.at(docs[o]));
      forall j | 0 <= j < |centroids| && j != c ::
          sp.dist(centroids[c], sp.at(docs[o])) < sp.dist(centroids[j], sp.at(docs[o]))
    ensures o in Seen(sp, centroids, docs, probed)
  {
    var c := Nearest(sp, centroids, sp.at(docs[o]));
    var first := sp.dist(centroids[probed[0]], sp.at(docs[o]));
    if c !in probed {
      assert false;
    }
  }

  /** The clustered query: probe, materialize the clusters, let the tail override, rank. */
  method RankProbed(sp: Space, ask: Ask, centroids: seq<Point>, groups: seq<seq<Doc>>, q: Point, nprobe: nat,
                    tail: seq<Record>, ghost docs: seq<Doc>)
    returns (hits: seq<Hit>, ghost probed: seq<nat>)
    requires DistinctIds(docs) && Built(sp, docs, centroids, groups)
    ensures Probes(sp, centroids, q, nprobe, probed)
    ensures hits == Best(ask, Replay(Chosen(docs, Seen(sp, centroids, docs, probed)), tail))
    ensures nprobe >= |centroids| ==> hits == Best(ask, Replay(LiveDocs(docs), tail))
  {
    hide Best, Replay, Built, LiveDocs, Chosen, Seen;
    assert |groups| == |centroids| > 0 by {
      Aligned(sp, docs, centroids, groups);
    }
    var found := Probe(sp, centroids, q, nprobe);
    probed := found;
    var candidates := new LiveSet();
    candidates.MutateAll(Upserts(Gathered(groups, found)));
    GatheredIsChosen(sp, docs, centroids, groups, found);
    candidates.MutateAll(tail);
    ChosenKeyed(docs, Seen(sp, centroids, docs, found), tail);
    hits := RankLive(ask, candidates.docs);
    if nprobe >= |centroids| {
      AllProbedIsExact(sp, ask, docs, centroids, q, nprobe, found, tail);
    }
  }

  lemma Aligned(sp: Space, docs: seq<Doc>, centroids: seq<Point>, groups: seq<seq<Doc>>)
    requires Built(sp, docs, centroids, groups)
    ensures |groups| == |centroids| > 0
  {
  }
}
