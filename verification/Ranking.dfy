/** Ranking: the best hits of a live set, shard by shard and merged (src/doc.rs, src/store.rs). */
module Ranking {
  import opened Records
  import opened Segments
  import opened Sorting

  datatype Hit = Hit(id: Id, score: real, attrs: Attrs)

  /** Higher scores first; ties by id, never by arrival. */
  predicate Better(a: Hit, b: Hit) {
    a.score > b.score || (a.score == b.score && IdLess(a.id, b.id))
  }

  /** What a request asks: a score, a filter, the attributes to return, and how many hits. */
  datatype Ask = Ask(score: Doc -> real, accepts: Doc -> bool, project: Attrs -> Attrs, k: nat)

  function HitOf(ask: Ask, d: Doc): Hit {
    Hit(d.id, ask.score(d), ask.project(d.attrs))
  }

  function HitsOf(ask: Ask, docs: seq<Doc>): seq<Hit> {
    if docs == [] then []
    else (if ask.accepts(docs[0]) then [HitOf(ask, docs[0])] else []) + HitsOf(ask, docs[1..])
  }

  /** Score, sort, truncate. */
  function TopK(ask: Ask, docs: seq<Doc>): seq<Hit> {
    Take(ask.k, Sort(Better, HitsOf(ask, docs)))
  }

  function DocsOf(live: Live, ids: seq<Id>): (r: seq<Doc>)
    requires forall id | id in ids :: id in live
    ensures |r| == |ids| && forall i | 0 <= i < |r| :: r[i] == live[ids[i]]
  {
    seq(|ids|, i requires 0 <= i < |ids| => live[ids[i]])
  }

  /** The exact answer over a live set. */
  function Best(ask: Ask, live: Live): seq<Hit> {
    TopK(ask, DocsOf(live, SortedIds(live.Keys)))
  }

  // ------------------------------------------------------------ the answer is determined by the set of hits

  ghost function HitSet(ask: Ask, live: Live): set<Hit> {
    set id | id in live && ask.accepts(live[id]) :: HitOf(ask, live[id])
  }

  ghost predicate OnePerId(hits: set<Hit>) {
    forall a, b | a in hits && b in hits :: a.id == b.id ==> a == b
  }

  lemma BetterIsStrict(hits: set<Hit>)
    requires OnePerId(hits)
    ensures Strict(Better, hits)
  {
    forall a, b | a in hits && b in hits ensures !Better(a, a) && (a == b || Better(a, b) || Better(b, a)) {
      IdLessTotal(a.id, b.id);
      IdLessTotal(a.id, a.id);
    }
    forall a, b, c | a in hits && b in hits && c in hits && Better(a, b) && Better(b, c) ensures Better(a, c) {
      if a.score == b.score == c.score {
        IdLessTransitive(a.id, b.id, c.id);
      }
    }
  }

  lemma {:induction false} HitsAre(ask: Ask, docs: seq<Doc>, x: Hit)
    ensures x in HitsOf(ask, docs) <==> exists i :: 0 <= i < |docs| && ask.accepts(docs[i]) && HitOf(ask, docs[i]) == x
    decreases |docs|
  {
    if docs != [] {
      HitsAre(ask, docs[1..], x);
      if x in HitsOf(ask, docs[1..]) {
        var i :| 0 <= i < |docs[1..]| && ask.accepts(docs[1..][i]) && HitOf(ask, docs[1..][i]) == x;
        assert docs[i + 1] == docs[1..][i];
      }
      if i :| 0 <= i < |docs| && ask.accepts(docs[i]) && HitOf(ask, docs[i]) == x {
        assert i > 0 ==> docs[1..][i - 1] == docs[i];
      }
    }
  }

  lemma {:induction false} HitsDistinct(ask: Ask, docs: seq<Doc>)
    requires DistinctIds(docs)
    ensures Distinct(HitsOf(ask, docs))
    decreases |docs|
  {
    if docs != [] {
      HitsDistinct(ask, docs[1..]);
      var rest := HitsOf(ask, docs[1..]);
      forall j | 0 <= j < |rest| ensures rest[j].id != docs[0].id {
        HitsAre(ask, docs[1..], rest[j]);
        var i :| 0 <= i < |docs[1..]| && HitOf(ask, docs[1..][i]) == rest[j];
        assert docs[i + 1] == docs[1..][i];
      }
    }
  }

  /** `docs` lists a live set, in whatever order a map yields it. */
  ghost predicate Lists(docs: seq<Doc>, live: Live) {
    && DistinctIds(docs)
    && (forall i | 0 <= i < |docs| :: docs[i].id in live && live[docs[i].id] == docs[i])
    && (forall id | id in live :: live[id] in docs)
  }

  lemma ListedHits(ask: Ask, docs: seq<Doc>, live: Live)
    requires Keyed(live) && Lists(docs, live)
    ensures Members(HitsOf(ask, docs)) == HitSet(ask, live) && Distinct(HitsOf(ask, docs))
  {
    HitsDistinct(ask, docs);
    forall x ensures x in HitsOf(ask, docs) <==> x in HitSet(ask, live) {
      HitsAre(ask, docs, x);
      if x in HitSet(ask, live) {
        var id :| id in live && ask.accepts(live[id]) && HitOf(ask, live[id]) == x;
        var i :| 0 <= i < |docs| && docs[i] == live[id];
      }
    }
  }

  lemma ByIdLists(live: Live)
    requires Keyed(live)
    ensures Lists(DocsOf(live, SortedIds(live.Keys)), live)
  {
    var ids := SortedIds(live.Keys);
    var docs := DocsOf(live, ids);
    AscendingDistinct(ids);
    hide Ascending;
    forall i | 0 <= i < |docs| ensures docs[i].id == ids[i] && ids[i] in live {
      assert ids[i] in ids;
    }
    forall id | id in live ensures live[id] in docs {
      var i :| 0 <= i < |ids| && ids[i] == id;
      assert docs[i] == live[id];
    }
  }

  lemma HitSetOnePerId(ask: Ask, live: Live)
    requires Keyed(live)
    ensures OnePerId(HitSet(ask, live))
  {
  }

  /** Any list of exactly the hits of a live set sorts and truncates to the same answer. */
  lemma BestOfHits(ask: Ask, live: Live, hits: seq<Hit>)
    requires Keyed(live) && Distinct(hits) && Members(hits) == HitSet(ask, live)
    ensures Take(ask.k, Sort(Better, hits)) == Best(ask, live)
  {
    hide HitSet, Sort, HitsOf, Better, Lists;
    HitSetOnePerId(ask, live);
    BetterIsStrict(HitSet(ask, live));
    ByIdLists(live);
    var docs := DocsOf(live, SortedIds(live.Keys));
    ListedHits(ask, docs, live);
    SortIgnoresArrival(Better, hits, HitsOf(ask, docs));
  }

  // ------------------------------------------------------------ the answer, told by scores and ids

  /** Every entry is a document that `ask` accepts, with its own score and attributes. */
  ghost predicate TrueHits(ask: Ask, live: Live, page: seq<Hit>) {
    forall i | 0 <= i < |page| ::
      && page[i].id in live && ask.accepts(live[page[i].id])
      && page[i].score == ask.score(live[page[i].id]) && page[i].attrs == ask.project(live[page[i].id].attrs)
  }

  /** Higher scores come first, and equal scores by id, so no id comes twice. */
  ghost predicate HighestFirst(page: seq<Hit>) {
    forall i, j | 0 <= i < j < |page| ::
      page[i].score > page[j].score || (page[i].score == page[j].score && IdLess(page[i].id, page[j].id))
  }

  ghost predicate Shows(page: seq<Hit>, id: Id) {
    exists i :: 0 <= i < |page| && page[i].id == id
  }

  /** No accepted document left off the page scores higher than one on it, or as high with a smaller id. */
  ghost predicate NoneBetterOff(ask: Ask, live: Live, page: seq<Hit>) {
    forall i, id | 0 <= i < |page| && id in live && ask.accepts(live[id]) && !Shows(page, id) ::
      page[i].score > ask.score(live[id]) || (page[i].score == ask.score(live[id]) && IdLess(page[i].id, id))
  }

  ghost function AcceptedOf(ask: Ask, live: Live): set<Id> {
    set id | id in live && ask.accepts(live[id])
  }

  /** `page` is the answer to `ask`: the accepted documents as they are, highest scores first, as many as there
      are up to `k`, and none left off that belongs on. */
  ghost predicate IsPage(ask: Ask, live: Live, page: seq<Hit>) {
    TrueHits(ask, live, page) && HighestFirst(page) && NoneBetterOff(ask, live, page) &&
    |page| == AtMost(ask.k, |AcceptedOf(ask, live)|)
  }

  lemma HitCount(ask: Ask, live: Live)
    requires Keyed(live)
    ensures |HitSet(ask, live)| == |AcceptedOf(ask, live)|
  {
    var f := (id: Id) => HitOf(ask, if id in live then live[id] else Doc(id, [], map[]));
    ImageSize(AcceptedOf(ask, live), f);
    var image := Image(AcceptedOf(ask, live), f);
    forall x ensures x in HitSet(ask, live) <==> x in image {
      if x in HitSet(ask, live) {
        var id :| id in live && ask.accepts(live[id]) && HitOf(ask, live[id]) == x;
        assert f(id) == x;
      }
      if x in image {
        var id :| id in AcceptedOf(ask, live) && f(id) == x;
        assert HitOf(ask, live[id]) == x;
      }
    }
    assert HitSet(ask, live) == image;
  }

  lemma HitOn(ask: Ask, live: Live, page: seq<Hit>, id: Id)
    requires Keyed(live) && Members(page) <= HitSet(ask, live) && id in live
    ensures HitOf(ask, live[id]) in page <==> Shows(page, id)
  {
    if Shows(page, id) {
      var i :| 0 <= i < |page| && page[i].id == id;
      assert page[i] in Members(page);
    }
    if HitOf(ask, live[id]) in page {
      var i :| 0 <= i < |page| && page[i] == HitOf(ask, live[id]);
    }
  }

  lemma TrueHitsAre(ask: Ask, live: Live, page: seq<Hit>)
    requires Keyed(live)
    ensures TrueHits(ask, live, page) <==> Members(page) <= HitSet(ask, live)
  {
    if Members(page) <= HitSet(ask, live) {
      forall i | 0 <= i < |page|
        ensures page[i].id in live && ask.accepts(live[page[i].id]) && page[i] == HitOf(ask, live[page[i].id])
      {
        assert page[i] in Members(page);
      }
    }
    if TrueHits(ask, live, page) {
      forall x | x in Members(page) ensures x in HitSet(ask, live) {
        var i :| 0 <= i < |page| && page[i] == x;
        assert x == HitOf(ask, live[x.id]);
      }
    }
  }

  lemma PageIsTop(ask: Ask, live: Live, page: seq<Hit>)
    requires Keyed(live)
    ensures IsPage(ask, live, page) <==> IsTop(Better, HitSet(ask, live), ask.k, page)
  {
    TrueHitsAre(ask, live, page);
    HitCount(ask, live);
    var hits := HitSet(ask, live);
    if IsPage(ask, live, page) {
      forall y, x | y in page && x in hits && x !in page ensures Better(y, x) {
        var i :| 0 <= i < |page| && page[i] == y;
        var id :| id in live && ask.accepts(live[id]) && HitOf(ask, live[id]) == x;
        HitOn(ask, live, page, id);
      }
    }
    if IsTop(Better, hits, ask.k, page) {
      forall i, id | 0 <= i < |page| && id in live && ask.accepts(live[id]) && !Shows(page, id)
        ensures page[i].score > ask.score(live[id]) || (page[i].score == ask.score(live[id]) && IdLess(page[i].id, id))
      {
        HitOn(ask, live, page, id);
        assert HitOf(ask, live[id]) in hits && Better(page[i], HitOf(ask, live[id]));
      }
    }
  }

  /** The answer is the one list that is. */
  lemma BestIsThePage(ask: Ask, live: Live, page: seq<Hit>)
    requires Keyed(live)
    ensures page == Best(ask, live) <==> IsPage(ask, live, page)
  {
    hide HitSet, Sort, HitsOf, Better, Lists, IsPage, Strict, IsTop;
    var docs, hits := DocsOf(live, SortedIds(live.Keys)), HitSet(ask, live);
    HitSetOnePerId(ask, live);
    BetterIsStrict(hits);
    ByIdLists(live);
    ListedHits(ask, docs, live);
    SortedIsTop(Better, HitsOf(ask, docs), ask.k);
    PageIsTop(ask, live, page);
    if IsPage(ask, live, page) {
      OneTop(Better, hits, ask.k, page, Best(ask, live));
    }
  }

  /** The map is walked in whatever order it yields its documents; the answer does not show it. */
  method RankLive(ask: Ask, live: Live) returns (hits: seq<Hit>)
    requires Keyed(live)
    ensures hits == Best(ask, live) && IsPage(ask, live, hits)
  {
    hide IsPage;
    var todo, docs := live.Keys, [];
    while todo != {}
      invariant todo <= live.Keys && DistinctIds(docs)
      invariant forall i | 0 <= i < |docs| :: docs[i].id in live && docs[i].id !in todo && live[docs[i].id] == docs[i]
      invariant forall id | id in live.Keys - todo :: live[id] in docs
    {
      var id :| id in todo;
      docs, todo := docs + [live[id]], todo - {id};
    }
    ListedHits(ask, docs, live);
    BestOfHits(ask, live, HitsOf(ask, docs));
    BestIsThePage(ask, live, Best(ask, live));
    return TopK(ask, docs);
  }

  // ------------------------------------------------------------ one pass per shard, then a merge

  /** The part of the tail one resident shard sees. */
  function TailFor(hash: Id -> nat, tail: seq<Record>, shards: nat, resident: nat, number: nat): seq<Record> {
    if shards <= 1 || resident <= 1 then tail else Slice(hash, tail, shards, number)
  }

  /** `parts[i]` is what shard `i`'s segments hold. The count is the schema's, or a single shard holds all. */
  ghost predicate Sharded(hash: Id -> nat, base: Live, parts: seq<Live>, shards: nat) {
    || parts == [base]
    || (|parts| == shards && shards > 1 && forall i | 0 <= i < |parts| :: parts[i] == ShardPart(hash, base, shards, i))
  }

  function ShardLive(hash: Id -> nat, parts: seq<Live>, shards: nat, tail: seq<Record>, i: nat): Live
    requires i < |parts|
  {
    Replay(parts[i], TailFor(hash, tail, shards, |parts|, i))
  }

  /** Each shard's documents are its part of the whole live set: every document in one shard only. */
  lemma ShardsPartition(hash: Id -> nat, base: Live, parts: seq<Live>, shards: nat, tail: seq<Record>, i: nat)
    requires Sharded(hash, base, parts, shards) && i < |parts|
    ensures ShardLive(hash, parts, shards, tail, i) ==
            if |parts| == 1 then Replay(base, tail) else ShardPart(hash, Replay(base, tail), shards, i)
  {
    if |parts| > 1 {
      ShardPartReplays(hash, base, tail, shards, i);
    }
  }

  /** Two requests that agree on the documents of a live set rank it alike. */
  ghost predicate Agree(a: Ask, b: Ask, live: Live) {
    a.k == b.k && forall id | id in live ::
      (a.accepts(live[id]) <==> b.accepts(live[id])) && HitOf(a, live[id]) == HitOf(b, live[id])
  }

  lemma AgreeHitSet(a: Ask, b: Ask, live: Live)
    requires Agree(a, b, live)
    ensures HitSet(a, live) == HitSet(b, live)
  {
    forall x ensures x in HitSet(a, live) <==> x in HitSet(b, live) {
      if x in HitSet(a, live) {
        var id :| id in live && a.accepts(live[id]) && HitOf(a, live[id]) == x;
        assert HitOf(b, live[id]) == x;
      }
      if x in HitSet(b, live) {
        var id :| id in live && b.accepts(live[id]) && HitOf(b, live[id]) == x;
        assert HitOf(a, live[id]) == x;
      }
    }
  }

  ghost function ListOf(ask: Ask, live: Live): (r: seq<Hit>)
    requires Keyed(live)
    ensures Distinct(r) && Members(r) == HitSet(ask, live)
  {
    var docs := DocsOf(live, SortedIds(live.Keys));
    ByIdLists(live);
    ListedHits(ask, docs, live);
    HitsOf(ask, docs)
  }

  /** The shards' own answers, each to its own form of the request. */
  ghost predicate ShardAnswers(ask: Ask, asks: seq<Ask>, lives: seq<Live>, outcomes: seq<seq<Hit>>) {
    && |asks| == |lives| == |outcomes|
    && forall i | 0 <= i < |lives| ::
         Keyed(lives[i]) && Agree(asks[i], ask, lives[i]) && outcomes[i] == Best(asks[i], lives[i])
  }

  /** `lives` cut `live` into pieces. */
  ghost predicate Cut(live: Live, lives: seq<Live>) {
    && Keyed(live)
    && (forall i, id | 0 <= i < |lives| && id in lives[i] :: id in live && lives[i][id] == live[id])
    && (forall id | id in live :: exists i :: 0 <= i < |lives| && id in lives[i])
    && (forall i, j, id | 0 <= i < j < |lives| && id in lives[i] :: id !in lives[j])
  }

  lemma CutHits(ask: Ask, live: Live, lives: seq<Live>, lists: seq<seq<Hit>>)
    requires Cut(live, lives) && |lists| == |lives|
    requires forall i | 0 <= i < |lists| ::
      Keyed(lives[i]) && Distinct(lists[i]) && Members(lists[i]) == HitSet(ask, lives[i])
    ensures Apart(lists) && Members(Flatten(lists)) == HitSet(ask, live)
  {
    hide Flatten, Distinct;
    forall i, j | 0 <= i < j < |lists| ensures Members(lists[i]) !! Members(lists[j]) {
      forall x | x in Members(lists[i]) ensures x !in Members(lists[j]) {
        assert x.id in lives[i];
        assert x.id !in lives[j];
      }
    }
    forall x ensures x in Flatten(lists) <==> x in HitSet(ask, live) {
      FlattenMembers(lists, x);
      if x in Flatten(lists) {
        var i :| 0 <= i < |lists| && x in lists[i];
        assert x in Members(lists[i]);
        var id :| id in lives[i] && ask.accepts(lives[i][id]) && HitOf(ask, lives[i][id]) == x;
        assert id in live && live[id] == lives[i][id];
      }
      if x in HitSet(ask, live) {
        var id :| id in live && ask.accepts(live[id]) && HitOf(ask, live[id]) == x;
        var i :| 0 <= i < |lives| && id in lives[i];
        assert x in HitSet(ask, lives[i]);
        assert x in Members(lists[i]);
      }
    }
  }

  lemma TopOfList(ask: Ask, shardAsk: Ask, live: Live)
    requires Keyed(live) && Agree(shardAsk, ask, live)
    ensures Best(shardAsk, live) == Take(ask.k, Sort(Better, ListOf(ask, live)))
  {
    hide Sort, Best, HitSet;
    AgreeHitSet(shardAsk, ask, live);
    BestOfHits(shardAsk, live, ListOf(ask, live));
  }

  lemma PartStrict(hits: set<Hit>, part: set<Hit>)
    requires OnePerId(hits) && part <= hits
    ensures Strict(Better, part)
  {
    BetterIsStrict(part);
  }

  /** Merging the truncated answers of the pieces gives the best of the whole. */
  lemma MergedIsGlobal(ask: Ask, asks: seq<Ask>, live: Live, lives: seq<Live>, outcomes: seq<seq<Hit>>)
    requires Cut(live, lives) && ShardAnswers(ask, asks, lives, outcomes)
    ensures Take(ask.k, Sort(Better, Flatten(outcomes))) == Best(ask, live)
  {
    hide Sort, Flatten, Best, HitSet, Better, Strict, Distinct, Cut;
    var lists := seq(|lives|, i requires 0 <= i < |lives| => ListOf(ask, lives[i]));
    CutHits(ask, live, lives, lists);
    HitSetOnePerId(ask, live) by {
      CutIsKeyed(live, lives);
    }
    forall i | 0 <= i < |lists|
      ensures Strict(Better, Members(lists[i])) && outcomes[i] == Take(ask.k, Sort(Better, lists[i]))
    {
      forall x | x in lists[i] ensures x in HitSet(ask, live) {
        FlattenMembers(lists, x);
        assert x in Members(Flatten(lists));
      }
      PartStrict(HitSet(ask, live), Members(lists[i]));
      TopOfList(ask, asks[i], lives[i]);
    }
    BetterIsStrict(HitSet(ask, live));
    TopsApart(Better, lists, outcomes, ask.k);
    FlattenDistinct(lists);
    FlattenDistinct(outcomes);
    MergedTop(Better, lists, outcomes, ask.k);
    CutIsKeyed(live, lives);
    BestOfHits(ask, live, Flatten(lists));
  }

  lemma CutIsKeyed(live: Live, lives: seq<Live>)
    requires Cut(live, lives)
    ensures Keyed(live)
  {
  }

  lemma ShardsCut(hash: Id -> nat, base: Live, parts: seq<Live>, shards: nat, tail: seq<Record>, lives: seq<Live>)
    requires Keyed(base) && Sharded(hash, base, parts, shards) && |lives| == |parts|
    requires forall i | 0 <= i < |parts| :: lives[i] == ShardLive(hash, parts, shards, tail, i)
    ensures Cut(Replay(base, tail), lives) && forall i | 0 <= i < |lives| :: Keyed(lives[i])
  {
    hide ShardLive, Replay;
    var live := Replay(base, tail);
    ReplayKeyed(base, tail);
    forall i | 0 <= i < |lives| ensures lives[i] == if |parts| == 1 then live else ShardPart(hash, live, shards, i) {
      ShardsPartition(hash, base, parts, shards, tail, i);
    }
    forall id | id in live ensures exists i :: 0 <= i < |lives| && id in lives[i] {
      if |parts| == 1 {
        assert id in lives[0];
      } else {
        ShardInRange(hash, id, shards);
        assert id in lives[ShardOf(hash, id, shards)];
      }
    }
  }

  /** A ranked query over the shards, each answering exactly for its own documents, is the ranked query
      over the whole live set: for any tail, any assignment of ids to shards, and scores that may differ
      from shard to shard as long as each shard's agrees with `ask` on its own documents. */
  lemma ShardedIsGlobal(hash: Id -> nat, ask: Ask, asks: seq<Ask>, base: Live, parts: seq<Live>, shards: nat,
                        tail: seq<Record>, outcomes: seq<seq<Hit>>)
    requires Keyed(base) && Sharded(hash, base, parts, shards) && |asks| == |parts| == |outcomes|
    requires forall i | 0 <= i < |parts| :: var live := ShardLive(hash, parts, shards, tail, i);
      Agree(asks[i], ask, live) && outcomes[i] == Best(asks[i], live)
    ensures Take(ask.k, Sort(Better, Flatten(outcomes))) == Best(ask, Replay(base, tail))
  {
    hide Sort, Flatten, Best, Sharded, ShardLive, Agree, Cut;
    var lives := seq(|parts|, i requires 0 <= i < |parts| => ShardLive(hash, parts, shards, tail, i));
    ShardsCut(hash, base, parts, shards, tail, lives);
    MergedIsGlobal(ask, asks, Replay(base, tail), lives, outcomes);
  }

  lemma OneShard(hash: Id -> nat, base: Live, shards: nat)
    ensures Sharded(hash, base, [base], shards)
  {
  }
}
