/** Sparse-vector search: inverted lists per dimension against the dot product (src/sparse.rs). */
module Sparse {
  import opened Sums

  /** Dimensions to weights, in exact arithmetic. */
  type Vector = map<string, real>

  /** One list of (ordinal, weight) per dimension. */
  type Lists = map<string, seq<(nat, real)>>

  function Times(x: real, y: real): real { x * y }

  ghost function Product(a: Vector, b: Vector): string -> real {
    k => if k in a && k in b then Times(a[k], b[k]) else 0.0
  }

  /** The dot product over the shared dimensions. */
  ghost function DotProduct(a: Vector, b: Vector): real {
    SumOver(a.Keys * b.Keys, Product(a, b))
  }

  lemma DotIsSymmetric(a: Vector, b: Vector)
    ensures DotProduct(a, b) == DotProduct(b, a)
  {
    assert a.Keys * b.Keys == b.Keys * a.Keys;
    SumSame(a.Keys * b.Keys, Product(a, b), Product(b, a));
  }

  /** Nothing for an empty vector, and each weight adds its product with the other vector's weight there: the two
      facts that make it the dot product. */
  lemma DotAddsProducts(a: Vector, b: Vector, k: string, w: real)
    requires k !in b
    ensures DotProduct(a, map[]) == 0.0
    ensures DotProduct(a, b[k := w]) == DotProduct(a, b) + if k in a then a[k] * w else 0.0
  {
    var more := b[k := w];
    var none: Vector := map[];
    assert a.Keys * none.Keys == {};
    SumSame(a.Keys * b.Keys, Product(a, b), Product(a, more));
    if k in a {
      assert a.Keys * more.Keys == a.Keys * b.Keys + {k};
      SumAdd(a.Keys * b.Keys, Product(a, more), k);
    } else {
      assert a.Keys * more.Keys == a.Keys * b.Keys;
    }
  }

  /** Walks the shorter vector, and asks the longer for each of its dimensions. */
  method Dot(a: Vector, b: Vector) returns (r: real)
    ensures r == DotProduct(a, b) == DotProduct(b, a)
  {
    DotIsSymmetric(a, b);
    var short, long := if |a| <= |b| then a else b, if |a| <= |b| then b else a;
    var todo := short.Keys;
    r := 0.0;
    assert (short.Keys - todo) * long.Keys == {};
    while todo != {}
      invariant todo <= short.Keys && r == SumOver((short.Keys - todo) * long.Keys, Product(short, long))
    {
      var k :| k in todo;
      var done := (short.Keys - todo) * long.Keys;
      todo := todo - {k};
      if k in long {
        SumAdd(done, Product(short, long), k);
        assert (short.Keys - todo) * long.Keys == done + {k};
        r := r + Times(short[k], long[k]);
      } else {
        assert (short.Keys - todo) * long.Keys == done;
      }
    }
    assert (short.Keys - todo) * long.Keys == short.Keys * long.Keys;
  }

  // ------------------------------------------------------------ the index

  function Weight(v: Vector, k: string): real { if k in v then v[k] else 0.0 }

  /** The list of one dimension: every document with a nonzero weight there, in order. */
  function Entries(vectors: seq<Vector>, k: string): seq<(nat, real)>
    decreases |vectors|
  {
    if vectors == [] then []
    else
      var w := Weight(vectors[|vectors| - 1], k);
      Entries(vectors[..|vectors| - 1], k) + if w != 0.0 then [(|vectors| - 1, w)] else []
  }

  ghost predicate Indexes(lists: Lists, vectors: seq<Vector>) {
    && (forall k :: k in lists <==> Entries(vectors, k) != [])
    && (forall k | k in lists :: lists[k] == Entries(vectors, k))
  }

  lemma EntriesNext(vectors: seq<Vector>, v: Vector, k: string)
    ensures Entries(vectors + [v], k) == Entries(vectors, k) + if Weight(v, k) != 0.0 then [(|vectors|, Weight(v, k))]
      else []
  {
    assert (vectors + [v])[..|vectors|] == vectors;
  }

  predicate Listed(list: seq<(nat, real)>, i: nat, o: nat)
    requires i <= |list|
  {
    exists j :: 0 <= j < i && list[j].0 == o
  }

  lemma {:induction false} EntriesAre(vectors: seq<Vector>, k: string)
    ensures var list := Entries(vectors, k);
      && (forall i | 0 <= i < |list| :: list[i].0 < |vectors| && list[i].1 == Weight(vectors[list[i].0], k) != 0.0)
      && (forall i, j | 0 <= i < j < |list| :: list[i].0 != list[j].0)
      && (forall o: nat | o < |vectors| :: Weight(vectors[o], k) != 0.0 <==> Listed(list, |list|, o))
    decreases |vectors|
  {
    if vectors != [] {
      var front, v := vectors[..|vectors| - 1], vectors[|vectors| - 1];
      EntriesAre(front, k);
      var before, all := Entries(front, k), Entries(vectors, k);
      forall o: nat | o < |vectors| ensures Weight(vectors[o], k) != 0.0 <==> Listed(all, |all|, o) {
        if o < |front| && Weight(vectors[o], k) != 0.0 {
          assert Weight(front[o], k) != 0.0;
          var j :| 0 <= j < |before| && before[j].0 == o;
          assert all[j].0 == o;
        } else if o == |front| && Weight(vectors[o], k) != 0.0 {
          assert all[|before|].0 == o;
        }
      }
    }
  }

  /** File one document under each of its nonzero dimensions. */
  method AppendVector(lists: Lists, ordinal: nat, v: Vector, ghost vectors: seq<Vector>) returns (r: Lists)
    requires ordinal == |vectors| && Indexes(lists, vectors)
    ensures Indexes(r, vectors + [v])
  {
    hide Entries;
    r := lists;
    var todo := v.Keys;
    while todo != {}
      invariant todo <= v.Keys
      invariant forall k :: k in r <==> k in lists || (k in v && k !in todo && v[k] != 0.0)
      invariant forall k | k in r ::
        r[k] == (if k in lists then lists[k] else []) +
            (if k in v && k !in todo && v[k] != 0.0 then [(ordinal, v[k])] else [])
    {
      var k :| k in todo;
      todo := todo - {k};
      if v[k] != 0.0 {
        r := r[k := (if k in r then r[k] else []) + [(ordinal, v[k])]];
      }
    }
    forall k
      ensures Entries(vectors + [v], k) == Entries(vectors, k) + if Weight(v, k) != 0.0 then [(ordinal, Weight(v, k))]
        else []
    {
      EntriesNext(vectors, v, k);
    }
  }

  method Build(vectors: seq<Vector>) returns (lists: Lists)
    ensures Indexes(lists, vectors)
  {
    lists := map[];
    assert Indexes(lists, []);
    for o := 0 to |vectors|
      invariant Indexes(lists, vectors[..o])
    {
      lists := AppendVector(lists, o, vectors[o], vectors[..o]);
      assert vectors[..o + 1] == vectors[..o] + [vectors[o]];
    }
    assert vectors[..|vectors|] == vectors;
  }

  // ------------------------------------------------------------ scoring

  /** What the dimensions `done` of the query contribute to a document. */
  ghost function Partial(v: Vector, query: Vector, done: set<string>): real {
    SumOver(done, Product(v, query))
  }

  predicate Reached(v: Vector, query: Vector, done: set<string>) {
    exists k | k in done :: k in query && query[k] != 0.0 && Weight(v, k) != 0.0
  }

  ghost predicate Accumulated(acc: map<nat, real>, vectors: seq<Vector>, query: Vector, done: set<string>) {
    && (forall o: nat :: o in acc <==> o < |vectors| && Reached(vectors[o], query, done))
    && (forall o: nat | o < |vectors| :: Held(acc, o) == Partial(vectors[o], query, done))
  }

  function Held(acc: map<nat, real>, o: nat): real {
    if o in acc then acc[o] else 0.0
  }

  method AddDimension(lists: Lists, k: string, qw: real, acc: map<nat, real>, ghost vectors: seq<Vector>)
    returns (r: map<nat, real>)
    requires Indexes(lists, vectors) && forall o: nat | o in acc :: o < |vectors|
    ensures forall o: nat :: o in r <==> o in acc || (o < |vectors| && Weight(vectors[o], k) != 0.0)
    ensures forall o: nat | o in r :: r[o] == Held(acc, o) + Times(Weight(vectors[o], k), qw)
  {
    hide Times, Weight;
    EntriesAre(vectors, k);
    forall o: nat | o < |vectors| && Weight(vectors[o], k) == 0.0 ensures Times(Weight(vectors[o], k), qw) == 0.0 {
      TimesZero(qw);
    }
    if k !in lists {
      assert forall o: nat | o < |vectors| :: Weight(vectors[o], k) == 0.0;
      return acc;
    }
    assert lists[k] == Entries(vectors, k);
    hide Entries, Indexes;
    r := AddList(lists[k], qw, acc);
    forall o: nat | o in r ensures r[o] == Held(acc, o) + Times(Weight(vectors[o], k), qw) {
      if i: nat :| i < |lists[k]| && lists[k][i].0 == o {
        assert Listed(lists[k], |lists[k]|, o);
      }
    }
  }

  /** Every entry adds its product to its own document. */
  method AddList(list: seq<(nat, real)>, qw: real, acc: map<nat, real>) returns (r: map<nat, real>)
    requires forall i, j | 0 <= i < j < |list| :: list[i].0 != list[j].0
    ensures forall o: nat :: o in r <==> o in acc || Listed(list, |list|, o)
    ensures forall i | 0 <= i < |list| :: list[i].0 in r && r[list[i].0] == Held(acc, list[i].0) + Times(list[i].1, qw)
    ensures forall o: nat | o in acc && !Listed(list, |list|, o) :: r[o] == acc[o]
  {
    hide Times, Listed;
    r := acc;
    NoneListed(list);
    for i := 0 to |list|
      invariant forall o: nat :: o in r <==> o in acc || Listed(list, i, o)
      invariant forall j | 0 <= j < i :: list[j].0 in r && r[list[j].0] == Held(acc, list[j].0) + Times(list[j].1, qw)
      invariant forall o: nat | o in acc && !Listed(list, i, o) :: r[o] == acc[o]
    {
      var (o, w) := list[i];
      ListedNext(list, i);
      r := r[o := Held(r, o) + Times(w, qw)];
    }
  }

  lemma NoneListed(list: seq<(nat, real)>)
    ensures forall o: nat :: !Listed(list, 0, o)
  {
  }

  lemma ListedNext(list: seq<(nat, real)>, i: nat)
    requires i < |list| && forall j, k | 0 <= j < k < |list| :: list[j].0 != list[k].0
    ensures forall o: nat :: Listed(list, i + 1, o) <==> Listed(list, i, o) || o == list[i].0
    ensures !Listed(list, i, list[i].0)
  {
  }

  lemma TimesZero(x: real)
    ensures Times(0.0, x) == 0.0 && Times(x, 0.0) == 0.0
  {
  }

  lemma ReachedNext(v: Vector, query: Vector, done: set<string>, k: string)
    requires k in query
    ensures Reached(v, query, done + {k}) <==> Reached(v, query, done) || (query[k] != 0.0 && Weight(v, k) != 0.0)
  {
    if Reached(v, query, done) {
      var d :| d in done && d in query && query[d] != 0.0 && Weight(v, d) != 0.0;
      assert d in done + {k};
    }
    if query[k] != 0.0 && Weight(v, k) != 0.0 {
      assert k in done + {k};
    }
  }

  lemma PartialNext(v: Vector, query: Vector, done: set<string>, k: string)
    requires k in query && k !in done
    ensures Partial(v, query, done + {k}) == Partial(v, query, done) + Times(Weight(v, k), query[k])
  {
    SumAdd(done, Product(v, query), k);
    TimesZero(query[k]);
  }

  lemma DimensionAccumulates(acc: map<nat, real>, r: map<nat, real>, vectors: seq<Vector>, query: Vector,
                             done: set<string>, k: string)
    requires Accumulated(acc, vectors, query, done) && k in query && k !in done
    requires forall o: nat :: o in r <==> o in acc || (o < |vectors| && query[k] != 0.0 && Weight(vectors[o], k) != 0.0)
    requires forall o: nat | o in r :: r[o] == Held(acc, o) + Times(Weight(vectors[o], k), query[k])
    ensures Accumulated(r, vectors, query, done + {k})
  {
    hide Times, Partial, Reached, Weight;
    forall o: nat | o < |vectors|
      ensures Held(r, o) == Partial(vectors[o], query, done + {k})
      ensures o in r <==> Reached(vectors[o], query, done + {k})
    {
      ReachedNext(vectors[o], query, done, k);
      PartialNext(vectors[o], query, done, k);
      TimesZero(query[k]);
      TimesZero(Weight(vectors[o], k));
    }
  }

  /** The accumulated scores are the dot products, for exactly the documents whose dot product is not
      zero, each once. */
  method Score(lists: Lists, query: Vector, ghost vectors: seq<Vector>) returns (out: seq<(nat, real)>)
    requires Indexes(lists, vectors)
    ensures forall i | 0 <= i < |out| :: out[i].0 < |vectors| && out[i].1 == DotProduct(vectors[out[i].0], query) != 0.0
    ensures forall i, j | 0 <= i < j < |out| :: out[i].0 != out[j].0
    ensures forall o: nat | o < |vectors| && DotProduct(vectors[o], query) != 0.0 :: exists i ::
      0 <= i < |out| && out[i].0 == o
  {
    hide Indexes, Accumulated;
    var acc: map<nat, real> := map[];
    var todo := query.Keys;
    assert query.Keys - todo == {};
    NothingYet(vectors, query);
    while todo != {}
      invariant todo <= query.Keys && Accumulated(acc, vectors, query, query.Keys - todo)
    {
      var k :| k in todo;
      ghost var before, done := acc, query.Keys - todo;
      AccumulatedIsIndexed(acc, vectors, query, done);
      todo := todo - {k};
      assert query.Keys - todo == done + {k};
      forall o: nat | o in acc ensures query[k] == 0.0 ==> Times(Weight(vectors[o], k), query[k]) == 0.0 {
        TimesZero(Weight(vectors[o], k));
      }
      if query[k] != 0.0 {
        acc := AddDimension(lists, k, query[k], acc, vectors);
      }
      DimensionAccumulates(before, acc, vectors, query, done, k);
    }
    assert query.Keys - todo == query.Keys;
    AllAccumulated(acc, vectors, query);
    out := Nonzero(acc);
  }

  lemma NothingYet(vectors: seq<Vector>, query: Vector)
    ensures Accumulated(map[], vectors, query, {})
  {
  }

  lemma AccumulatedIsIndexed(acc: map<nat, real>, vectors: seq<Vector>, query: Vector, done: set<string>)
    requires Accumulated(acc, vectors, query, done)
    ensures forall o: nat | o in acc :: o < |vectors|
  {
  }

  lemma AllAccumulated(acc: map<nat, real>, vectors: seq<Vector>, query: Vector)
    requires Accumulated(acc, vectors, query, query.Keys)
    ensures forall o: nat | o in acc :: o < |vectors|
    ensures forall o: nat | o < |vectors| :: Held(acc, o) == DotProduct(vectors[o], query)
  {
    forall o: nat | o < |vectors| ensures Partial(vectors[o], query, query.Keys) == DotProduct(vectors[o], query) {
      SumIgnoresZeros(query.Keys, vectors[o].Keys * query.Keys, Product(vectors[o], query));
    }
  }

  /** Drop the zeros, in whatever order the map yields its entries. */
  method Nonzero(acc: map<nat, real>) returns (out: seq<(nat, real)>)
    ensures forall i | 0 <= i < |out| :: out[i].0 in acc && out[i].1 == acc[out[i].0] != 0.0
    ensures forall i, j | 0 <= i < j < |out| :: out[i].0 != out[j].0
    ensures forall o: nat | o in acc && acc[o] != 0.0 :: exists i :: 0 <= i < |out| && out[i].0 == o
  {
    out := [];
    var todo := acc.Keys;
    while todo != {}
      invariant todo <= acc.Keys
      invariant forall i | 0 <= i < |out| :: out[i].0 in acc && out[i].0 !in todo && out[i].1 == acc[out[i].0] != 0.0
      invariant forall i, j | 0 <= i < j < |out| :: out[i].0 != out[j].0
      invariant forall o: nat | o in acc && o !in todo && acc[o] != 0.0 :: Among(out, o)
    {
      var o :| o in todo;
      ghost var before := out;
      todo := todo - {o};
      if acc[o] != 0.0 {
        out := out + [(o, acc[o])];
        assert out[|before|].0 == o;
      }
      forall q: nat | Among(before, q) ensures Among(out, q) {
        var i :| 0 <= i < |before| && before[i].0 == q;
        assert out[i].0 == q;
      }
    }
  }

  predicate Among(out: seq<(nat, real)>, o: nat) {
    exists i :: 0 <= i < |out| && out[i].0 == o
  }
}
