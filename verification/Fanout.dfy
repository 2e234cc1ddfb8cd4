/** A ranked query: each resident shard answers by the path its index allows, and the answers are merged
    (src/store.rs). */
module Fanout {
  import opened Wrappers
  import opened Values
  import opened Records
  import opened Schemas
  import Filters
  import opened Protocol
  import opened Safety
  import opened Reads
  import opened Segments
  import opened Sorting
  import opened Ranking
  import opened Tails
  import opened Search
  import opened Layout
  import AttrIndex
  import Planner
  import Fts
  import Relevance
  import Sparse
  import Ivf

  /** What is fixed for a query: parsing and tokenizing, the logarithm, how weights are read, and the vector space. */
  datatype Engine = Engine(host: Host, ln: real -> real, number: F32 -> real, space: Ivf.Space)

  /** What a query ranks by. */
  datatype Query =
    | ByText(attribute: string, text: string)
    | BySparse(attribute: string, weights: Sparse.Vector)
    | ByVector(point: Ivf.Point, nprobe: nat, filter: Option<Filters.Filter>)

  /** The decoded index objects of a shard. The attribute indexes count only together with the list of ids. */
  datatype ShardIndex = ShardIndex(
    text: map<string, Fts.Index>,
    sparse: map<string, Sparse.Lists>,
    attrs: Option<map<string, AttrIndex.Index>>,
    dim: nat,
    centroids: seq<Ivf.Point>,
    groups: seq<seq<Doc>>
  )

  function ScaleOf(e: Engine, c: FtsConfig): Fts.Scale { Fts.Scale(e.ln, c.k1, c.b) }

  /** The index objects were built over the documents of the shard's segments. */
  ghost predicate Describes(e: Engine, x: ShardIndex, docs: seq<Doc>) {
    && (forall a | a in x.text ::
          && Fts.Indexes(x.text[a], Fts.TokenLists(e.host, x.text[a].config, Texts(a, docs)), x.text[a].config)
          && ScaleOf(e, x.text[a].config).Valid())
    && (forall a | a in x.sparse :: Sparse.Indexes(x.sparse[a], Vectors(e.number, a, docs)))
    && Ivf.Built(e.space, docs, x.centroids, x.groups)
  }

  ghost predicate IsIndex(e: Engine, x: Option<ShardIndex>, docs: seq<Doc>) {
    DistinctIds(docs) && (x.Some? ==> Describes(e, x.value, docs))
  }

  // ------------------------------------------------------------ the path of one shard

  const PREFILTER_MAX_CANDIDATES: nat := 8192
  const PREFILTER_SURVIVOR_MARGIN: nat := 4
  const USIZE_MAX: nat := 0xFFFF_FFFF_FFFF_FFFF

  function Max(a: nat, b: nat): nat { if a >= b then a else b }

  function SaturatingMul(a: nat, b: nat): nat { if a * b > USIZE_MAX then USIZE_MAX else a * b }

  predicate ShouldPrefilter(candidates: nat, docs: nat, clusters: nat, nprobe: nat, k: nat) {
    candidates <= PREFILTER_MAX_CANDIDATES &&
    (clusters == 0 || docs == 0 ||
     var probed := Max(SaturatingMul(docs, Max(nprobe, 1)) / clusters, 1);
     candidates <= probed ||
     probed as real * (candidates as real / docs as real) < (Max(k, 1) * PREFILTER_SURVIVOR_MARGIN) as real)
  }

  /** How a shard answers a vector query: all its documents, those a filter selects, or those of the probed
      clusters. */
  lemma QuotientIs(read: nat, clusters: nat, p: nat)
    requires clusters > 0 && p == read / clusters
    ensures forall c: nat :: c <= p <==> c * clusters <= read
  {
    forall c: nat ensures c <= p <==> c * clusters <= read {
      var r := read - p * clusters;
      assert 0 <= r < clusters;
      if c <= p {
        assert c * clusters <= p * clusters;
      } else {
        assert c * clusters >= (p + 1) * clusters == p * clusters + clusters;
      }
    }
  }

  lemma QuotientBelow(p: nat, c: nat, d: nat, m: nat)
    requires d > 0
    ensures p as real * (c as real / d as real) < m as real <==> p * c < m * d
  {
    var x := p as real * (c as real / d as real);
    assert x * d as real == (p * c) as real by {
      assert c as real / d as real * d as real == c as real;
    }
    assert (m * d) as real == m as real * d as real;
    if x < m as real {
      assert x * d as real < m as real * d as real;
    } else {
      assert x * d as real >= m as real * d as real;
    }
  }

  /** When the filter's selection is scanned instead of the probed clusters: never above 8192 candidates; otherwise
      if there is nothing to compare with, if probing would read as many documents, or if too few of those it read
      would be expected to match for a page four times over. */
  lemma PrefilterMeans(candidates: nat, docs: nat, clusters: nat, nprobe: nat, k: nat, read: nat)
    requires read == docs * (if nprobe == 0 then 1 else nprobe) <= USIZE_MAX
    ensures docs == 0 || clusters == 0 ==>
      (ShouldPrefilter(candidates, docs, clusters, nprobe, k) <==> candidates <= 8192)
    ensures docs > 0 && clusters > 0 ==>
      var probed := if read < clusters then 1 else read / clusters;
      ShouldPrefilter(candidates, docs, clusters, nprobe, k) <==>
      candidates <= 8192 && (candidates <= 1 || candidates * clusters <= read ||
        probed * candidates < (if k == 0 then 1 else k) * 4 * docs)
  {
    hide SaturatingMul, Max, ShouldPrefilter;
    PrefilterIs(candidates, docs, clusters, nprobe, k);
    if docs > 0 && clusters > 0 {
      AtLeastOne(nprobe);
      AtLeastOne(k);
      NotSaturated(docs, Max(nprobe, 1));
      ProbedDocs(read, clusters);
      QuotientBelow(Max(read / clusters, 1), candidates, docs, (if k == 0 then 1 else k) * 4);
    }
  }

  lemma PrefilterIs(candidates: nat, docs: nat, clusters: nat, nprobe: nat, k: nat)
    ensures docs == 0 || clusters == 0 ==>
      (ShouldPrefilter(candidates, docs, clusters, nprobe, k) <==> candidates <= 8192)
    ensures docs > 0 && clusters > 0 ==>
      var probed := Max(SaturatingMul(docs, Max(nprobe, 1)) / clusters, 1);
      ShouldPrefilter(candidates, docs, clusters, nprobe, k) <==>
      candidates <= 8192 && (candidates <= probed ||
        probed as real * (candidates as real / docs as real) < (Max(k, 1) * 4) as real)
  {
    hide SaturatingMul, Max;
  }

  lemma AtLeastOne(n: nat)
    ensures Max(n, 1) == if n == 0 then 1 else n
  {
  }

  lemma NotSaturated(docs: nat, n: nat)
    requires docs * n <= USIZE_MAX
    ensures SaturatingMul(docs, n) == docs * n
  {
  }

  lemma ProbedDocs(read: nat, clusters: nat)
    requires clusters > 0
    ensures var probed := Max(read / clusters, 1);
      && probed == (if read < clusters then 1 else read / clusters)
      && forall c: nat :: c <= probed <==> c <= 1 || c * clusters <= read
  {
    var p := read / clusters;
    QuotientIs(read, clusters, p);
    assert 1 <= p <==> 1 * clusters <= read;
  }

  datatype Path = Scan | Prefilter(chosen: set<nat>) | Probe

  function PathOf(e: Engine, q: Query, k: nat, x: Option<ShardIndex>, docs: nat): Path
    requires q.ByVector?
  {
    if x.None? then Scan
    else if q.filter.None? || x.value.attrs.None? then Probe
    else
      var chosen := Planner.Evaluate(e.host, q.filter.value, x.value.attrs.value, docs);
      if chosen.Some? && ShouldPrefilter(|chosen.value.ordinals|, docs, |x.value.groups|, q.nprobe, k)
      then Prefilter(chosen.value.ordinals)
      else Probe
  }

  /** A text or sparse query needs the shard's index of its attribute; a probed one the right dimension. */
  predicate Answerable(e: Engine, q: Query, k: nat, x: Option<ShardIndex>, docs: nat) {
    match q
    case ByText(a, _) => x.Some? && a in x.value.text
    case BySparse(a, _) => x.Some? && a in x.value.sparse
    case ByVector(point, _, _) => PathOf(e, q, k, x, docs).Probe? ==> x.value.dim == |point|
  }

  /** The path taken can miss nothing: it is not a filter's selection that the tail outdates, nor a probe of
      fewer clusters than there are. */
  ghost predicate Sees(e: Engine, q: Query, ask: Ask, x: Option<ShardIndex>, docs: seq<Doc>, tail: seq<Record>) {
    q.ByVector? ==>
      match PathOf(e, q, ask.k, x, |docs|)
      case Scan => true
      case Prefilter(chosen) => forall id :: !PatchedIn(ask, docs, chosen, tail, id)
      case Probe => q.nprobe >= |x.value.centroids|
  }

  /** A filter of faithful comparisons, over the shard's stored attribute indexes, sees everything if each segment
      document the tail mentions was selected, or is upserted or deleted by the tail. */
  lemma SelectedOrDecidedSees(e: Engine, q: Query, fts: map<string, FtsConfig>, types: map<string, Type>, ask: Ask,
                              x: Option<ShardIndex>, docs: seq<Doc>, tail: seq<Record>)
    requires q.ByVector? && q.filter.Some? && x.Some? && x.value.attrs.Some? && DistinctIds(docs)
    requires Planner.Stored(e.host, types, x.value.attrs.value, Planner.AttrsOf(docs))
    requires Filters.AllSettled(types, q.filter.value) && Planner.AllFaithful(e.host, types, q.filter.value)
    requires PathOf(e, q, ask.k, x, |docs|).Prefilter?
    requires forall o | 0 <= o < |docs| && TouchedBy(docs[o].id, tail) ::
               o in PathOf(e, q, ask.k, x, |docs|).chosen || Decides(docs[o].id, tail)
    ensures Sees(e, q, Filtered(e.host, fts, q.filter.value, ask), x, docs, tail)
  {
    hide Planner.Evaluate, Planner.Stored, Planner.AllFaithful, Filters.AllSettled, PatchedIn, Best, Replay,
      TouchedBy, Decides, ShouldPrefilter;
    SelectionAnswers(e.host, fts, types, q.filter.value, x.value.attrs.value, ask, docs, tail);
  }

  // ------------------------------------------------------------ what is asked of a shard

  /** A document's score in a shard: text is scored by the statistics of the shard's own index. */
  function ScoreIn(e: Engine, q: Query, ask: Ask, x: Option<ShardIndex>, d: Doc): real {
    if q.ByText? && x.Some? && q.attribute in x.value.text then
      var index := x.value.text[q.attribute];
      var scale := ScaleOf(e, index.config);
      if Fts.Sound(scale) && index.avgdl >= 0.0
      then TextScore(e.host, scale, index, q.attribute, e.host.tokenize(index.config.tokenizer, q.text), d)
      else ask.score(d)
    else ask.score(d)
  }

  function FormIn(e: Engine, q: Query, ask: Ask, x: Option<ShardIndex>): Ask {
    if q.ByVector? then ask else Scoring(ask.(score := (d: Doc) => ScoreIn(e, q, ask, x, d)))
  }

  function Home(hash: Id -> nat, shards: nat, resident: nat, id: Id): nat {
    if resident == 1 then 0 else ShardOf(hash, id, shards)
  }

  function IndexAt(xs: seq<Option<ShardIndex>>, i: nat): Option<ShardIndex> {
    if i < |xs| then xs[i] else None
  }

  /** The query over the whole namespace: every document is scored as in the shard it lives in. */
  function Form(e: Engine, q: Query, ask: Ask, xs: seq<Option<ShardIndex>>, home: Id -> nat): Ask {
    if q.ByVector? then ask else Scoring(ask.(score := (d: Doc) => ScoreIn(e, q, ask, IndexAt(xs, home(d.id)), d)))
  }

  /** For a sparse query the given score is the dot product. */
  ghost predicate Scores(e: Engine, q: Query, ask: Ask) {
    q.BySparse? ==> forall d :: ask.score(d) == Sparse.DotProduct(VectorOf(e.number, q.attribute, d), q.weights)
  }

  /** A vector query is asked as it is; a text or sparse query keeps only what scores, and a sparse one scores by
      the dot product. */
  lemma FormMeans(e: Engine, q: Query, ask: Ask, xs: seq<Option<ShardIndex>>, home: Id -> nat, d: Doc)
    requires Scores(e, q, ask)
    ensures var form := Form(e, q, ask, xs, home);
      && form.k == ask.k && form.project == ask.project
      && (q.ByVector? ==> form == ask)
      && (!q.ByVector? ==> (form.accepts(d) <==> form.score(d) != 0.0 && ask.accepts(d)))
      && (q.BySparse? ==> form.score(d) == Sparse.DotProduct(VectorOf(e.number, q.attribute, d), q.weights))
  {
    hide Sparse.DotProduct;
    if q.BySparse? {
      assert ScoreIn(e, q, ask, IndexAt(xs, home(d.id)), d) == ask.score(d);
    }
  }

  /** A text query scores with the parameters stored in the shard's own index, over its tokenizer's tokens. */
  lemma TextScoreMeans(e: Engine, q: Query, ask: Ask, x: ShardIndex, docs: seq<Doc>, d: Doc, term: string)
    requires q.ByText? && q.attribute in x.text && Describes(e, x, docs)
    requires e.host.tokenize(x.text[q.attribute].config.tokenizer, q.text) == [term]
    ensures var config := x.text[q.attribute].config;
      var lists := Fts.TokenLists(e.host, config, Texts(q.attribute, docs));
      var tokens := Fts.Tokens(e.host, config, TextOf(q.attribute, d));
      if term !in tokens then ScoreIn(e, q, ask, Some(x), d) == 0.0
      else Relevance.Bm25(Fts.Scale(e.ln, config.k1, config.b), Relevance.Corpus(lists),
          |Relevance.DocsWith(lists, term)| as real, |Relevance.OccurrencesIn(tokens, term)| as real,
          Relevance.RelativeLength(lists, tokens), ScoreIn(e, q, ask, Some(x), d))
  {
    hide Relevance.Bm25, Fts.ScoreTokens, Fts.Indexes, Relevance.Corpus, Relevance.RelativeLength;
    var index := x.text[q.attribute];
    var lists := Fts.TokenLists(e.host, index.config, Texts(q.attribute, docs));
    Relevance.OneTermScore(ScaleOf(e, index.config), index, lists, index.config,
        Fts.Tokens(e.host, index.config, TextOf(q.attribute, d)), term);
  }

  datatype QueryError = NoIndex | DimensionMismatch

  // ------------------------------------------------------------ what an answer holds

  lemma BestAreHits(ask: Ask, live: Live)
    requires Keyed(live)
    ensures Members(Best(ask, live)) <= HitSet(ask, live) && |Best(ask, live)| <= ask.k
    ensures Distinct(Best(ask, live))
  {
    hide HitSet, HitsOf, Sort;
    BestDistinct(ask, live);
    ByIdLists(live);
    var docs := DocsOf(live, SortedIds(live.Keys));
    ListedHits(ask, docs, live);
    SortMembers(Better, HitsOf(ask, docs));
    var sorted := Sort(Better, HitsOf(ask, docs));
    forall x | x in Take(ask.k, sorted) ensures x in HitSet(ask, live) {
      assert x in Members(sorted);
    }
  }

  lemma BestDistinct(ask: Ask, live: Live)
    requires Keyed(live)
    ensures Distinct(Best(ask, live))
  {
    hide Best;
    BestIsThePage(ask, live, Best(ask, live));
    forall i, j | 0 <= i < j < |Best(ask, live)| ensures Best(ask, live)[i] != Best(ask, live)[j] {
      IdLessTotal(Best(ask, live)[i].id, Best(ask, live)[j].id);
    }
  }

  lemma ChosenAreHits(ask: Ask, docs: seq<Doc>, chosen: set<nat>, tail: seq<Record>)
    ensures Members(Best(ask, Replay(Chosen(docs, chosen), tail))) <= HitSet(ask, Replay(LiveDocs(docs), tail))
    ensures Distinct(Best(ask, Replay(Chosen(docs, chosen), tail)))
  {
    hide HitSet, Best, Distinct, Replay, Chosen, LiveDocs;
    ChosenKeyed(docs, chosen, tail);
    BestAreHits(ask, Replay(Chosen(docs, chosen), tail));
    forall x | x in HitSet(ask, Replay(Chosen(docs, chosen), tail))
      ensures x in HitSet(ask, Replay(LiveDocs(docs), tail))
    {
      PrefilterIsSound(ask, docs, chosen, tail, x);
    }
  }

  lemma PrefilterSees(ask: Ask, docs: seq<Doc>, chosen: set<nat>, tail: seq<Record>)
    requires forall id :: !PatchedIn(ask, docs, chosen, tail, id)
    ensures Best(ask, Replay(Chosen(docs, chosen), tail)) == Best(ask, Replay(LiveDocs(docs), tail))
  {
    hide Best, Replay, Chosen, LiveDocs, PatchedIn;
    PrefilterIsExact(ask, docs, chosen, tail);
    assert Limit(ask, ask.k) == ask;
  }

  // ------------------------------------------------------------ one shard

  /** One shard's answer. It fails exactly when the index it needs is not there; whatever it returns is live,
      current and accepted; and it is the exact answer for the shard whenever its path can miss nothing. */
  method ShardHits(e: Engine, q: Query, ask: Ask, x: Option<ShardIndex>, docs: seq<Doc>, tail: seq<Record>)
    returns (r: Result<seq<Hit>, QueryError>)
    requires IsIndex(e, x, docs) && Scores(e, q, ask)
    ensures r.Ok? <==> Answerable(e, q, ask.k, x, |docs|)
    ensures r.Err? ==> r.error == if q.ByVector? then DimensionMismatch else NoIndex
    ensures r.Ok? ==> Members(r.value) <= HitSet(FormIn(e, q, ask, x), Replay(LiveDocs(docs), tail))
    ensures r.Ok? ==> Distinct(r.value)
    ensures r.Ok? && Sees(e, q, ask, x, docs, tail) ==>
      r.value == Best(FormIn(e, q, ask, x), Replay(LiveDocs(docs), tail))
  {
    hide Best, Distinct, Replay, LiveDocs, HitSet, Planner.Evaluate, PatchedIn, Describes, ShouldPrefilter,
        Sparse.DotProduct, Chosen;
    ShardKeyed(docs, tail);
    BestAreHits(FormIn(e, q, ask, x), Replay(LiveDocs(docs), tail));
    match q {
      case ByText(a, text) =>
        if x.None? || a !in x.value.text {
          return Err(NoIndex);
        }
        var hits := TextHits(e, q, ask, x, docs, tail);
        return Ok(hits);
      case BySparse(a, weights) =>
        if x.None? || a !in x.value.sparse {
          return Err(NoIndex);
        }
        var hits := SparseHits(e, q, ask, x, docs, tail);
        return Ok(hits);
      case ByVector(point, nprobe, filter) =>
        if x.Some? && filter.Some? && x.value.attrs.Some? {
          var chosen := Planner.EvaluateFilter(e.host, filter.value, x.value.attrs.value, |docs|);
          if chosen.Some? && ShouldPrefilter(|chosen.value.ordinals|, |docs|, |x.value.groups|, nprobe, ask.k) {
            var hits := RankPrefiltered(ask, docs, chosen.value.ordinals, tail);
            ChosenAreHits(ask, docs, chosen.value.ordinals, tail);
            if forall id :: !PatchedIn(ask, docs, chosen.value.ordinals, tail, id) {
              PrefilterSees(ask, docs, chosen.value.ordinals, tail);
            }
            return Ok(hits);
          }
        }
        if x.None? {
          var live := new LiveSet();
          live.MutateAll(Upserts(docs));
          live.MutateAll(tail);
          LiveDocsIs(docs);
          var hits := RankLive(ask, live.docs);
          return Ok(hits);
        }
        if x.value.dim != |point| {
          return Err(DimensionMismatch);
        }
        var hits := ProbedHits(e, q, ask, x.value, docs, tail);
        return Ok(hits);
    }
  }

  lemma ShardKeyed(docs: seq<Doc>, tail: seq<Record>)
    ensures Keyed(LiveDocs(docs)) && Keyed(Replay(LiveDocs(docs), tail))
  {
    LiveDocsKeyed(docs);
    ReplayKeyed(LiveDocs(docs), tail);
  }

  method TextHits(e: Engine, q: Query, ask: Ask, x: Option<ShardIndex>, docs: seq<Doc>, tail: seq<Record>)
    returns (hits: seq<Hit>)
    requires q.ByText? && IsIndex(e, x, docs) && x.Some? && q.attribute in x.value.text
    ensures hits == Best(FormIn(e, q, ask, x), Replay(LiveDocs(docs), tail))
  {
    hide Best, Replay, LiveDocs, TextScore, Fts.Indexes;
    var index := x.value.text[q.attribute];
    Fts.AverageIsKept(index, Fts.TokenLists(e.host, index.config, Texts(q.attribute, docs)));
    var own := ask.(score := (d: Doc) => ScoreIn(e, q, ask, x, d));
    hits := RankText(e.host, ScaleOf(e, index.config), index, q.attribute, q.text, own, docs, tail);
  }

  method SparseHits(e: Engine, q: Query, ask: Ask, x: Option<ShardIndex>, docs: seq<Doc>, tail: seq<Record>)
    returns (hits: seq<Hit>)
    requires q.BySparse? && IsIndex(e, x, docs) && Scores(e, q, ask) && x.Some? && q.attribute in x.value.sparse
    ensures hits == Best(FormIn(e, q, ask, x), Replay(LiveDocs(docs), tail))
  {
    hide Best, Replay, LiveDocs, Sparse.DotProduct, Sparse.Indexes;
    var own := ask.(score := (d: Doc) => ScoreIn(e, q, ask, x, d));
    hits := RankSparse(e.number, x.value.sparse[q.attribute], q.attribute, q.weights, own, docs, tail);
  }

  method ProbedHits(e: Engine, q: Query, ask: Ask, x: ShardIndex, docs: seq<Doc>, tail: seq<Record>)
    returns (hits: seq<Hit>)
    requires q.ByVector? && DistinctIds(docs) && Describes(e, x, docs)
    ensures Members(hits) <= HitSet(ask, Replay(LiveDocs(docs), tail)) && Distinct(hits)
    ensures q.nprobe >= |x.centroids| ==> hits == Best(ask, Replay(LiveDocs(docs), tail))
  {
    hide Best, Replay, LiveDocs, HitSet, Chosen, Ivf.Seen, Ivf.Built, Ivf.Probes;
    Ivf.Aligned(e.space, docs, x.centroids, x.groups);
    ghost var probed;
    hits, probed := Ivf.RankProbed(e.space, ask, x.centroids, x.groups, q.point, q.nprobe, tail, docs);
    ChosenAreHits(ask, docs, Ivf.Seen(e.space, x.centroids, docs, probed), tail);
  }

  // ------------------------------------------------------------ all shards

  ghost function LivesOf(docs: seq<seq<Doc>>): (r: seq<Live>)
    ensures |r| == |docs|
  {
    seq(|docs|, i requires 0 <= i < |docs| => LiveDocs(docs[i]))
  }

  ghost predicate AreIndexes(e: Engine, xs: seq<Option<ShardIndex>>, docs: seq<seq<Doc>>) {
    |xs| == |docs| && forall i | 0 <= i < |xs| :: IsIndex(e, xs[i], docs[i])
  }

  predicate AllAnswerable(e: Engine, q: Query, k: nat, xs: seq<Option<ShardIndex>>, docs: seq<seq<Doc>>)
    requires |xs| == |docs|
  {
    forall i | 0 <= i < |xs| :: Answerable(e, q, k, xs[i], |docs[i]|)
  }

  ghost predicate AllSee(e: Engine, q: Query, ask: Ask, xs: seq<Option<ShardIndex>>, docs: seq<seq<Doc>>,
                         hash: Id -> nat,
                         shards: nat, tail: seq<Record>)
    requires |xs| == |docs|
  {
    forall i | 0 <= i < |xs| :: Sees(e, q, ask, xs[i], docs[i], TailFor(hash, tail, shards, |xs|, i))
  }

  function HomeIn(hash: Id -> nat, shards: nat, resident: nat): Id -> nat {
    id => Home(hash, shards, resident, id)
  }

  /** A shard's form of the query agrees with the whole on the shard's own documents. */
  lemma FormsAgree(e: Engine, q: Query, ask: Ask, xs: seq<Option<ShardIndex>>, hash: Id -> nat, base: Live,
                   parts: seq<Live>,
                   shards: nat, tail: seq<Record>, i: nat)
    requires Keyed(base) && Sharded(hash, base, parts, shards) && i < |parts| == |xs|
    ensures Agree(FormIn(e, q, ask, xs[i]), Form(e, q, ask, xs, HomeIn(hash, shards, |xs|)),
      ShardLive(hash, parts, shards, tail, i))
    ensures Keyed(ShardLive(hash, parts, shards, tail, i))
  {
    hide Replay, ScoreIn, Sharded, ShardLive;
    ReplayKeyed(base, tail);
    ShardsPartition(hash, base, parts, shards, tail, i);
    var live := ShardLive(hash, parts, shards, tail, i);
    var own, whole := FormIn(e, q, ask, xs[i]), Form(e, q, ask, xs, HomeIn(hash, shards, |xs|));
    forall id | id in live
      ensures (own.accepts(live[id]) <==> whole.accepts(live[id])) && HitOf(own, live[id]) == HitOf(whole, live[id])
    {
      assert live[id].id == id && Home(hash, shards, |xs|, id) == i;
    }
  }

  lemma ShardHitsAreHits(own: Ask, whole: Ask, live: Live, all: Live)
    requires Agree(own, whole, live) && forall id | id in live :: id in all && all[id] == live[id]
    ensures HitSet(own, live) <= HitSet(whole, all)
  {
    forall x | x in HitSet(own, live) ensures x in HitSet(whole, all) {
      var id :| id in live && own.accepts(live[id]) && HitOf(own, live[id]) == x;
      assert HitOf(whole, all[id]) == x;
    }
  }

  lemma PieceWithin(hash: Id -> nat, base: Live, parts: seq<Live>, shards: nat, tail: seq<Record>, i: nat)
    requires Keyed(base) && Sharded(hash, base, parts, shards) && i < |parts|
    ensures var live, all := ShardLive(hash, parts, shards, tail, i), Replay(base, tail);
      forall id | id in live :: id in all && all[id] == live[id]
  {
    hide Replay, Sharded;
    ShardsPartition(hash, base, parts, shards, tail, i);
  }

  /** What has been collected after some of the shards. */
  ghost predicate SoFar(e: Engine, q: Query, ask: Ask, xs: seq<Option<ShardIndex>>, docs: seq<seq<Doc>>,
                        hash: Id -> nat,
                        shards: nat, tail: seq<Record>, outcomes: seq<seq<Hit>>)
    requires |xs| == |docs|
  {
    |outcomes| <= |xs| && forall i | 0 <= i < |outcomes| ::
      var piece := Replay(LiveDocs(docs[i]), TailFor(hash, tail, shards, |xs|, i));
      && Answerable(e, q, ask.k, xs[i], |docs[i]|)
      && Members(outcomes[i]) <= HitSet(FormIn(e, q, ask, xs[i]), piece) && Distinct(outcomes[i])
      && (Sees(e, q, ask, xs[i], docs[i], TailFor(hash, tail, shards, |xs|, i)) ==>
            outcomes[i] == Best(FormIn(e, q, ask, xs[i]), piece))
  }

  /** The fan-out and merge. The query fails exactly when one shard cannot answer; every hit is a live document
      of the whole, with its current attributes and score; and the page is the exact one for the whole
      whenever no shard's path can miss anything. */
  method QueryShards(e: Engine, q: Query, ask: Ask, hash: Id -> nat, xs: seq<Option<ShardIndex>>, docs: seq<seq<Doc>>,
                     shards: nat, tail: seq<Record>, ghost base: Live)
    returns (r: Result<seq<Hit>, QueryError>)
    requires AreIndexes(e, xs, docs) && Scores(e, q, ask)
    requires Keyed(base) && Sharded(hash, base, LivesOf(docs), shards)
    ensures r.Ok? <==> AllAnswerable(e, q, ask.k, xs, docs)
    ensures r.Err? ==> r.error == if q.ByVector? then DimensionMismatch else NoIndex
    ensures var whole := Form(e, q, ask, xs, HomeIn(hash, shards, |xs|));
      && (r.Ok? ==> |r.value| <= ask.k && TrueHits(whole, Replay(base, tail), r.value) && HighestFirst(r.value))
      && (r.Ok? && AllSee(e, q, ask, xs, docs, hash, shards, tail) ==> IsPage(whole, Replay(base, tail), r.value))
  {
    hide TrueHits, HighestFirst, IsPage, Distinct, Replay, LiveDocs, Sharded, Sees, IsIndex,
        Answerable, HitSet, Best, Sort, Scores, Form, FormIn;
    var merged: seq<Hit> := [];
    ghost var outcomes: seq<seq<Hit>> := [];
    for i := 0 to |xs|
      invariant |outcomes| == i && merged == Flatten(outcomes)
      invariant SoFar(e, q, ask, xs, docs, hash, shards, tail, outcomes)
    {
      var own := ShardHits(e, q, ask, xs[i], docs[i], TailFor(hash, tail, shards, |xs|, i));
      if own.Err? {
        return Err(own.error);
      }
      FlattenOne(outcomes, own.value);
      merged, outcomes := merged + own.value, outcomes + [own.value];
    }
    MergeHolds(e, q, ask, hash, xs, docs, shards, tail, base, outcomes);
    return Ok(Take(ask.k, Sort(Better, merged)));
  }

  lemma FormKeeps(e: Engine, q: Query, ask: Ask, xs: seq<Option<ShardIndex>>, home: Id -> nat)
    ensures Form(e, q, ask, xs, home).k == ask.k
  {
  }

  /** No document answers for two shards. */
  lemma OutcomesApart(e: Engine, q: Query, ask: Ask, hash: Id -> nat, xs: seq<Option<ShardIndex>>,
                      docs: seq<seq<Doc>>, shards: nat, tail: seq<Record>, base: Live, outcomes: seq<seq<Hit>>)
    requires |xs| == |docs| == |outcomes| && SoFar(e, q, ask, xs, docs, hash, shards, tail, outcomes)
    requires Keyed(base) && Sharded(hash, base, LivesOf(docs), shards)
    ensures Distinct(Flatten(outcomes))
  {
    hide Replay, LiveDocs, Sharded, Sees, FormIn, Flatten, Answerable, Best, Distinct, TailFor;
    var parts := LivesOf(docs);
    var lives := seq(|parts|, i requires 0 <= i < |parts| => ShardLive(hash, parts, shards, tail, i));
    ShardsCut(hash, base, parts, shards, tail, lives);
    forall i, j | 0 <= i < j < |outcomes| ensures Members(outcomes[i]) !! Members(outcomes[j]) {
      forall x | x in Members(outcomes[i]) ensures x !in Members(outcomes[j]) {
        assert x.id in lives[i];
        assert x.id !in lives[j];
      }
    }
    FlattenDistinct(outcomes);
  }

  lemma MergeRanks(ask: Ask, live: Live, merged: seq<Hit>, k: nat)
    requires Keyed(live) && Distinct(merged)
    requires Members(merged) <= HitSet(ask, live)
    ensures var page := Take(k, Sort(Better, merged));
      |page| <= k && TrueHits(ask, live, page) && HighestFirst(page)
  {
    hide HitSet, Sort, TrueHits;
    HitSetOnePerId(ask, live);
    PartStrict(HitSet(ask, live), Members(merged));
    SortAscends(Better, merged);
    var page := Take(k, Sort(Better, merged));
    forall x | x in page ensures x in HitSet(ask, live) {
      assert x in Members(Sort(Better, merged));
    }
    TrueHitsAre(ask, live, page);
  }

  lemma MergeHolds(e: Engine, q: Query, ask: Ask, hash: Id -> nat, xs: seq<Option<ShardIndex>>, docs: seq<seq<Doc>>,
                   shards: nat,
                   tail: seq<Record>, base: Live, outcomes: seq<seq<Hit>>)
    requires |xs| == |docs| == |outcomes| && SoFar(e, q, ask, xs, docs, hash, shards, tail, outcomes)
    requires Keyed(base) && Sharded(hash, base, LivesOf(docs), shards)
    ensures var page, whole := Take(ask.k, Sort(Better, Flatten(outcomes))),
      Form(e, q, ask, xs, HomeIn(hash, shards, |xs|));
      && |page| <= ask.k && TrueHits(whole, Replay(base, tail), page) && HighestFirst(page)
      && (AllSee(e, q, ask, xs, docs, hash, shards, tail) ==> IsPage(whole, Replay(base, tail), page))
  {
    hide Replay, LiveDocs, Sharded, Sees, HitSet, Best, Sort, Form, FormIn, Flatten, Agree, Answerable, TrueHits,
        HighestFirst, IsPage, Distinct;
    var parts, whole := LivesOf(docs), Form(e, q, ask, xs, HomeIn(hash, shards, |xs|));
    FormKeeps(e, q, ask, xs, HomeIn(hash, shards, |xs|));
    var merged := Flatten(outcomes);
    forall x | x in merged ensures x in HitSet(whole, Replay(base, tail)) {
      FlattenMembers(outcomes, x);
      var i :| 0 <= i < |outcomes| && x in outcomes[i];
      assert x in Members(outcomes[i]);
      FormsAgree(e, q, ask, xs, hash, base, parts, shards, tail, i);
      PieceWithin(hash, base, parts, shards, tail, i);
      ShardHitsAreHits(FormIn(e, q, ask, xs[i]), whole, ShardLive(hash, parts, shards, tail, i), Replay(base, tail));
    }
    ReplayKeyed(base, tail);
    OutcomesApart(e, q, ask, hash, xs, docs, shards, tail, base, outcomes);
    MergeRanks(whole, Replay(base, tail), merged, ask.k);
    BestIsThePage(whole, Replay(base, tail), Take(ask.k, Sort(Better, merged)));
    if AllSee(e, q, ask, xs, docs, hash, shards, tail) {
      var asks := seq(|xs|, i requires 0 <= i < |xs| => FormIn(e, q, ask, xs[i]));
      forall i | 0 <= i < |parts|
        ensures var live := ShardLive(hash, parts, shards, tail, i);
          Agree(asks[i], whole, live) && outcomes[i] == Best(asks[i], live)
      {
        FormsAgree(e, q, ask, xs, hash, base, parts, shards, tail, i);
      }
      ShardedIsGlobal(hash, whole, asks, base, parts, shards, tail, outcomes);
    }
  }

  // ------------------------------------------------------------ a reachable state

  /** One empty shard without an index, for a namespace never compacted. */
  function ResidentDocs(s: State, shards: seq<Shard>): (r: seq<seq<Doc>>)
    ensures |r| == if shards == [] then 1 else |shards|
  {
    if shards == [] then [[]]
    else seq(|shards|, i requires 0 <= i < |shards| => DocsIn(ReadObjects(s.stored, shards[i].segments)))
  }

  /** A bucket is the upserts of its documents, one for each id. */
  lemma BucketDocs(hash: Id -> nat, live: Live, n: nat, i: nat)
    requires Keyed(live)
    ensures DistinctIds(DocsIn(Bucket(hash, live, n, i)))
    ensures Bucket(hash, live, n, i) == Upserts(DocsIn(Bucket(hash, live, n, i)))
  {
    var part := ShardPart(hash, live, n, i);
    ByIdLists(part);
    var docs := DocsOf(part, SortedIds(part.Keys));
    assert Bucket(hash, live, n, i) == Upserts(docs);
    DocsOfUpserts(docs);
  }

  /** Checked once, before any shard is asked: a query vector has the namespace's dimension, if it has one. */
  predicate WellSized(q: Query, schema: Schema) {
    q.ByVector? && q.point != [] && schema.dim.Some? ==> |q.point| == schema.dim.value
  }

  lemma ResidentFacts(p: Params, events: seq<Event>, s: State)
    requires GuardedRun(p, INIT, events) && s == Run(p, INIT, events)
    ensures var m := ManifestOf(s.head);
      && Keyed(SegmentLive(s, m))
      && Sharded(p.hash, SegmentLive(s, m), LivesOf(ResidentDocs(s, m.shards)), m.schema.Shards())
      && Replay(SegmentLive(s, m), ReadObjects(s.stored, WalNames(m.wal))) == Truth(s.log)
      && forall i | 0 <= i < |ResidentDocs(s, m.shards)| :: DistinctIds(ResidentDocs(s, m.shards)[i])
  {
    hide Inv, Step, AllLaid, Sharded, Run, GuardedRun, Truth, Bucket;
    var m := ManifestOf(s.head);
    RankFacts(p, events, s);
    if m.shards == [] {
      EmptyResident(s, m.shards);
      OneShard(p.hash, map[], m.schema.Shards());
    } else {
      ResidentLives(p, s, m.shards);
    }
  }

  lemma EmptyResident(s: State, shards: seq<Shard>)
    requires shards == []
    ensures LivesOf(ResidentDocs(s, shards)) == [map[]]
  {
    assert Upserts([]) == [];
    assert LiveDocs([]) == map[];
  }

  lemma ResidentLives(p: Params, s: State, shards: seq<Shard>)
    requires LaidOut(p, s, shards) && shards != []
    ensures LivesOf(ResidentDocs(s, shards)) == ShardLives(s, shards)
    ensures forall i | 0 <= i < |shards| :: DistinctIds(ResidentDocs(s, shards)[i])
  {
    hide Bucket, Replay, ReadObjects;
    var live :| Keyed(live) && Laid(p, s, shards, live, |shards|);
    forall i | 0 <= i < |shards|
      ensures LivesOf(ResidentDocs(s, shards))[i] == ShardLives(s, shards)[i] && DistinctIds(ResidentDocs(s, shards)[i])
    {
      assert ShardIs(p, s, live, |shards|, i, shards[i]);
      BucketDocs(p.hash, live, |shards|, i);
    }
  }

  /** A ranked query in any reachable state, over index objects that describe its shards: it fails exactly when
      its vector has the wrong dimension or some resident shard lacks the index the query needs; every hit is a
      document of the replay of all committed batches, as it is now; and the page is the best of that replay
      whenever no shard's path can miss anything. */
  method QueryNamespace(p: Params, ghost events: seq<Event>, s: State, e: Engine, q: Query, ask: Ask,
                        xs: seq<Option<ShardIndex>>)
    returns (r: Result<seq<Hit>, QueryError>)
    requires GuardedRun(p, INIT, events) && s == Run(p, INIT, events)
    requires AreIndexes(e, xs, ResidentDocs(s, ManifestOf(s.head).shards)) && Scores(e, q, ask)
    ensures var m := ManifestOf(s.head); var docs := ResidentDocs(s, m.shards);
      var whole := Form(e, q, ask, xs, HomeIn(p.hash, m.schema.Shards(), |xs|));
      && (r.Ok? <==>
            && (q.ByVector? && q.point != [] && m.schema.dim.Some? ==> |q.point| == m.schema.dim.value)
            && forall i | 0 <= i < |xs| ::
                 match q
                 case ByText(a, _) => xs[i].Some? && a in xs[i].value.text
                 case BySparse(a, _) => xs[i].Some? && a in xs[i].value.sparse
                 case ByVector(point, _, _) =>
                   PathOf(e, q, ask.k, xs[i], |docs[i]|).Probe? ==> xs[i].value.dim == |point|)
      && (r.Err? ==> r.error == if q.ByVector? then DimensionMismatch else NoIndex)
      && (r.Ok? ==> |r.value| <= ask.k && TrueHits(whole, Truth(s.log), r.value) && HighestFirst(r.value))
      && (r.Ok? && AllSee(e, q, ask, xs, docs, p.hash, m.schema.Shards(), ReadObjects(s.stored, WalNames(m.wal))) ==>
            IsPage(whole, Truth(s.log), r.value))
  {
    hide TrueHits, HighestFirst, IsPage, Run, GuardedRun, Sharded, Truth, Best, HitSet, Form, AllSee,
        AllAnswerable, AreIndexes, Replay, ReadObjects, Scores;
    var m := ManifestOf(s.head);
    if !WellSized(q, m.schema) {
      IndexCount(e, xs, ResidentDocs(s, m.shards));
      return Err(DimensionMismatch);
    }
    ResidentFacts(p, events, s);
    IndexCount(e, xs, ResidentDocs(s, m.shards));
    r := QueryShards(e, q, ask, p.hash, xs, ResidentDocs(s, m.shards), m.schema.Shards(),
        ReadObjects(s.stored, WalNames(m.wal)), SegmentLive(s, m));
    AllAnswerableMeans(e, q, ask.k, xs, ResidentDocs(s, m.shards));
  }

  lemma AllAnswerableMeans(e: Engine, q: Query, k: nat, xs: seq<Option<ShardIndex>>, docs: seq<seq<Doc>>)
    requires |xs| == |docs|
    ensures AllAnswerable(e, q, k, xs, docs) <==>
      forall i | 0 <= i < |xs| ::
        match q
        case ByText(a, _) => xs[i].Some? && a in xs[i].value.text
        case BySparse(a, _) => xs[i].Some? && a in xs[i].value.sparse
        case ByVector(point, _, _) => PathOf(e, q, k, xs[i], |docs[i]|).Probe? ==> xs[i].value.dim == |point|
  {
    hide PathOf;
  }

  lemma IndexCount(e: Engine, xs: seq<Option<ShardIndex>>, docs: seq<seq<Doc>>)
    requires AreIndexes(e, xs, docs)
    ensures |xs| == |docs|
  {
  }

  lemma NothingIndexed(e: Engine, x: ShardIndex)
    ensures !Describes(e, x, [])
  {
    if x.centroids != [] && |x.groups| == |x.centroids| {
      assert Ivf.ClusterOf(e.space, x.centroids, [], 0) == [];
    }
  }

  /** An empty shard has no index, so a text or sparse query over a namespace with one, or over a namespace never
      compacted, always fails. */
  lemma EmptyShardIsSilent(e: Engine, q: Query, k: nat, xs: seq<Option<ShardIndex>>, docs: seq<seq<Doc>>, i: nat)
    requires AreIndexes(e, xs, docs) && i < |docs| && docs[i] == [] && !q.ByVector?
    ensures xs[i].None? && !AllAnswerable(e, q, k, xs, docs)
  {
    hide Describes;
    assert IsIndex(e, xs[i], docs[i]);
    if xs[i].Some? {
      NothingIndexed(e, xs[i].value);
    }
    assert !Answerable(e, q, k, xs[i], |docs[i]|);
  }
}
