/** Text and sparse ranking of one shard, from its index and the tail (src/store.rs). */
module Search {
  import opened Wrappers
  import opened Values
  import opened Records
  import opened Schemas
  import opened Filters
  import opened Segments
  import opened Ranking
  import opened Tails
  import opened AttrIndex
  import opened Planner
  import AttrLimits
  import Fts
  import Sorting
  import Sparse

  function TextOf(attribute: string, d: Doc): Option<string> {
    AttributeText(Attribute(d.attrs, attribute))
  }

  function Texts(attribute: string, docs: seq<Doc>): (r: seq<Option<string>>)
    ensures |r| == |docs|
  {
    seq(|docs|, o requires 0 <= o < |docs| => TextOf(attribute, docs[o]))
  }

  /** The score of a document's current text under an index's statistics. */
  function TextScore(h: Host, s: Fts.Scale, x: Fts.Index, attribute: string, query: seq<string>, d: Doc): real
    requires Fts.Sound(s) && x.avgdl >= 0.0
  {
    Fts.ScoreTokens(s, x, Fts.Tokens(h, x.config, TextOf(attribute, d)), query)
  }

  /** Text ranking of a shard answers exactly: every live document whose current text shares a term with
      the query, ranked by that text's own score, whether it stands in the index, in the tail or in both. */
  method RankText(h: Host, s: Fts.Scale, x: Fts.Index, attribute: string, query: string, ask: Ask, docs: seq<Doc>,
                  tail: seq<Record>)
    returns (r: seq<Hit>)
    requires s.Valid() && DistinctIds(docs)
    requires Fts.Indexes(x, Fts.TokenLists(h, x.config, Texts(attribute, docs)), x.config)
    requires forall d :: ask.score(d) == TextScore(h, s, x, attribute, h.tokenize(x.config.tokenizer, query), d)
    ensures r == Best(Scoring(ask), Replay(LiveDocs(docs), tail))
  {
    hide Best, Replay, LiveDocs, Fts.Indexes, Fts.ScoreTokens, TextOf;
    ghost var lists := Fts.TokenLists(h, x.config, Texts(attribute, docs));
    Fts.AverageIsKept(x, lists);
    var tokens := h.tokenize(x.config.tokenizer, query);
    var posted := Fts.Score(s, x, tokens, lists);
    forall o | 0 <= o < |docs| ensures ask.score(docs[o]) == Fts.ScoreTokens(s, x, lists[o], tokens) {
    }
    forall o | 0 <= o < |docs| && ask.score(docs[o]) != 0.0 ensures exists i :: 0 <= i < |posted| && posted[i].0 == o {
      Fts.ScorePositive(s, x, lists, x.config, lists[o], tokens);
      assert Fts.Shares(lists[o], tokens);
    }
    r := RankOverlay(ask, docs, tail, posted);
  }

  /** A sparse attribute as numbers; `number` reads a stored weight. */
  function VectorOf(number: F32 -> real, attribute: string, d: Doc): Sparse.Vector {
    var v := Attribute(d.attrs, attribute);
    if v.Sparse? then map k | k in v.weights :: number(v.weights[k]) else map[]
  }

  function Vectors(number: F32 -> real, attribute: string, docs: seq<Doc>): (r: seq<Sparse.Vector>)
    ensures |r| == |docs|
  {
    seq(|docs|, o requires 0 <= o < |docs| => VectorOf(number, attribute, docs[o]))
  }

  /** Sparse ranking of a shard answers exactly: every live document whose current vector has a nonzero
      dot product with the query, ranked by it. */
  method RankSparse(number: F32 -> real, lists: Sparse.Lists, attribute: string, query: Sparse.Vector, ask: Ask,
                    docs: seq<Doc>, tail: seq<Record>)
    returns (r: seq<Hit>)
    requires DistinctIds(docs) && Sparse.Indexes(lists, Vectors(number, attribute, docs))
    requires forall d :: ask.score(d) == Sparse.DotProduct(VectorOf(number, attribute, d), query)
    ensures r == Best(Scoring(ask), Replay(LiveDocs(docs), tail))
  {
    hide Best, Replay, LiveDocs, Sparse.Indexes, Sparse.DotProduct, VectorOf;
    ghost var vectors := Vectors(number, attribute, docs);
    var posted := Sparse.Score(lists, query, vectors);
    forall o | 0 <= o < |docs| ensures ask.score(docs[o]) == Sparse.DotProduct(vectors[o], query) {
    }
    r := RankOverlay(ask, docs, tail, posted);
  }

  // ------------------------------------------------------------ filtered ranking by the attribute indexes

  /** The request with a filter as its test. */
  function Filtered(h: Host, fts: map<string, FtsConfig>, f: Filter, ask: Ask): Ask {
    ask.(accepts := d => Accepts(h, fts, f, d))
  }

  /** Ranking the documents the attribute indexes select answers exactly, for every page size, unless the
      tail patches an unselected document into the match set; and never, if every segment document it patches
      was selected or is upserted or deleted by the tail as well. */
  lemma SelectionAnswers(h: Host, fts: map<string, FtsConfig>, types: map<string, Type>, f: Filter,
                         indexes: map<string, Index>,
                         ask: Ask, docs: seq<Doc>, tail: seq<Record>)
    requires DistinctIds(docs) && Stored(h, types, indexes, AttrsOf(docs)) && AllSettled(types, f) &&
      AllFaithful(h, types, f)
    requires Evaluate(h, f, indexes, |docs|).Some?
    ensures var chosen, q := Evaluate(h, f, indexes, |docs|).value.ordinals, Filtered(h, fts, f, ask);
      && ((forall k: nat ::
             Best(Limit(q, k), Replay(Chosen(docs, chosen), tail)) == Best(Limit(q, k), Replay(LiveDocs(docs), tail)))
          <==> (forall id :: !PatchedIn(q, docs, chosen, tail, id)))
      && ((forall o | 0 <= o < |docs| && TouchedBy(docs[o].id, tail) :: o in chosen || Decides(docs[o].id, tail))
          ==> forall id :: !PatchedIn(q, docs, chosen, tail, id))
  {
    hide Best, Replay, Chosen, LiveDocs, PatchedIn, Stored, AllSettled, AllFaithful, TouchedBy, Decides;
    var chosen, q := Evaluate(h, f, indexes, |docs|).value.ordinals, Filtered(h, fts, f, ask);
    EvaluateIsHonest(h, fts, types, f, indexes, AttrsOf(docs));
    PrefilterIsExact(q, docs, chosen, tail);
    forall o | 0 <= o < |docs| && q.accepts(docs[o]) ensures o in chosen {
      assert o in Accepted(h, fts, f, AttrsOf(docs));
    }
    if forall o | 0 <= o < |docs| && TouchedBy(docs[o].id, tail) :: o in chosen || Decides(docs[o].id, tail) {
      forall id ensures !PatchedIn(q, docs, chosen, tail, id) {
        SelectedOrDecidedIsEnough(q, docs, chosen, tail, id);
      }
    }
  }

  // ------------------------------------------------------------ a patch the selection cannot see

  const STORED_DOC := Doc(UintId(1), [], map["a" := Uint(1)])
  const PATCHED_DOC := Doc(UintId(1), [], map["a" := Uint(2)])
  const ONE_PATCH := [Patch(UintId(1), map["a" := Uint(2)])]
  const WANTS_TWO := Cmp("a", Eq, Uint(2))
  const ONE_TYPE: map<string, Type> := map["a" := TUint]
  const ONE_INDEX: map<string, Index> := map["a" := AttrLimits.OneEntry(Uint(1), Uint(1))]

  lemma OneIndexServes(h: Host, fts: map<string, FtsConfig>)
    ensures Stored(h, ONE_TYPE, ONE_INDEX, AttrsOf([STORED_DOC]))
    ensures AllSettled(ONE_TYPE, WANTS_TWO) && AllFaithful(h, ONE_TYPE, WANTS_TWO)
    ensures Evaluate(h, WANTS_TWO, ONE_INDEX, 1) == Some(Selection({}, true))
    ensures Accepts(h, fts, WANTS_TWO, PATCHED_DOC)
  {
    hide Serves;
    AttrLimits.SmallestColumn(h, TUint, Uint(1), Uint(1), []);
    assert [Uint(1)] + [] == Column(AttrsOf([STORED_DOC]), "a");
    var entries := ONE_INDEX["a"].entries;
    assert Probe(h, entries[0].value, Uint(2)) == Less;
    assert AttrIndex.Search(h, entries, Uint(2), 1, 1) == None;
    assert AttrIndex.Search(h, entries, Uint(2), 0, 1) == None;
  }

  lemma OnePatchPatches()
    ensures LiveDocs([STORED_DOC]) == map[UintId(1) := STORED_DOC]
    ensures Replay(LiveDocs([STORED_DOC]), ONE_PATCH) == map[UintId(1) := PATCHED_DOC]
    ensures Chosen([STORED_DOC], {}) == map[] && Replay(map[], ONE_PATCH) == map[]
    ensures !Decides(UintId(1), ONE_PATCH) &&
      MergeAttrs(STORED_DOC.attrs, NetPatch(UintId(1), ONE_PATCH)) == PATCHED_DOC.attrs
  {
    assert Upserts([STORED_DOC])[1..] == [] && ONE_PATCH[1..] == [];
    assert Apply(map[], Upsert(STORED_DOC)) == map[UintId(1) := STORED_DOC];
    assert LiveDocs([STORED_DOC]) == Replay(Apply(map[], Upsert(STORED_DOC)), []);
    assert MergeAttrs(STORED_DOC.attrs, ONE_PATCH[0].attrs) == PATCHED_DOC.attrs;
    assert NetPatch(UintId(1), []) == map[];
    assert NetPatch(UintId(1), ONE_PATCH) == ONE_PATCH[0].attrs + map[] == PATCHED_DOC.attrs;
    assert MergeAttrs(STORED_DOC.attrs, PATCHED_DOC.attrs) == PATCHED_DOC.attrs;
  }

  /** One document, the index built over it, and a tail of one patch that brings it into the match set: the
      selection is exact for the segment, and yet the page is empty where the filter accepts the document. */
  lemma SelectionMissesPatch(h: Host, fts: map<string, FtsConfig>, ask: Ask)
    requires ask.k > 0
    ensures var q, chosen := Filtered(h, fts, WANTS_TWO, ask), Evaluate(h, WANTS_TWO, ONE_INDEX, 1).value.ordinals;
      && PatchedIn(q, [STORED_DOC], chosen, ONE_PATCH, UintId(1))
      && Best(q, Replay(Chosen([STORED_DOC], chosen), ONE_PATCH)) == []
      && Best(q, Replay(LiveDocs([STORED_DOC]), ONE_PATCH)) == [HitOf(ask, PATCHED_DOC)]
  {
    hide Evaluate, LiveDocs, Chosen, Best, Replay, Accepts;
    OneIndexServes(h, fts);
    OnePatchPatches();
    var q := Filtered(h, fts, WANTS_TWO, ask);
    assert !Selected([STORED_DOC], {}, UintId(1));
    BestOfNone(q);
    BestOfOne(q, PATCHED_DOC);
  }

  lemma BestOfNone(ask: Ask)
    ensures Best(ask, map[]) == []
  {
    assert DocsOf(map[], SortedIds({})) == [];
  }

  lemma BestOfOne(ask: Ask, d: Doc)
    requires ask.k > 0 && ask.accepts(d)
    ensures Best(ask, map[d.id := d]) == [HitOf(ask, d)]
  {
    var live: Live := map[d.id := d];
    var ids := SortedIds(live.Keys);
    assert live.Keys == {d.id};
    assert |ids| == 1 && ids[0] in ids;
    assert DocsOf(live, ids) == [d];
    assert [d][1..] == [] && HitsOf(ask, [d]) == [HitOf(ask, d)] + HitsOf(ask, []);
    var hits := [HitOf(ask, d)];
    assert HitsOf(ask, [d]) == hits && hits[1..] == [];
    assert Sorting.Sort(Better, hits) == hits;
  }
}
