/** Indexed answers with the unindexed tail laid over them: text and sparse ranking, and the prefilter
    (src/store.rs). */
module Tails {
  import opened Wrappers
  import opened Records
  import opened Segments
  import opened Sorting
  import opened Ranking

  predicate TouchedBy(id: Id, tail: seq<Record>) {
    exists i | 0 <= i < |tail| :: tail[i].Id() == id
  }

  lemma {:induction false} UntouchedStays(doc: Option<Doc>, id: Id, tail: seq<Record>)
    requires !TouchedBy(id, tail)
    ensures History(doc, id, tail) == doc
    decreases |tail|
  {
    if tail != [] {
      assert tail[0].Id() != id;
      forall i | 0 <= i < |tail[1..]| ensures tail[1..][i].Id() != id {
        assert tail[1..][i] == tail[i + 1];
      }
      UntouchedStays(doc, id, tail[1..]);
    }
  }

  /** A document the tail does not mention is as the segment has it. */
  lemma UntouchedIsStored(docs: seq<Doc>, tail: seq<Record>, id: Id)
    requires !TouchedBy(id, tail)
    ensures At(Replay(LiveDocs(docs), tail), id) == At(LiveDocs(docs), id)
  {
    ReplayAt(LiveDocs(docs), id, tail);
    UntouchedStays(At(LiveDocs(docs), id), id, tail);
  }

  // ------------------------------------------------------------ ranking by postings

  /** What an index returns: the ordinals that score, each once, with their score. */
  ghost predicate Posts(posted: seq<(nat, real)>, docs: seq<Doc>, measure: Doc -> real) {
    && (forall i | 0 <= i < |posted| :: posted[i].0 < |docs| && posted[i].1 == measure(docs[posted[i].0]) != 0.0)
    && (forall i, j | 0 <= i < j < |posted| :: posted[i].0 != posted[j].0)
    && (forall o | 0 <= o < |docs| && measure(docs[o]) != 0.0 :: exists i :: 0 <= i < |posted| && posted[i].0 == o)
  }

  /** The same request, for documents that score at all. */
  function Scoring(ask: Ask): Ask {
    ask.(accepts := d => ask.score(d) != 0.0 && ask.accepts(d))
  }

  ghost function HitsAmong(ask: Ask, live: Live, ids: set<Id>): set<Hit> {
    set id | id in live && id in ids && ask.accepts(live[id]) :: HitOf(ask, live[id])
  }

  ghost predicate Collected(ask: Ask, live: Live, hits: seq<Hit>, ids: set<Id>) {
    Distinct(hits) && Members(hits) == HitsAmong(ask, live, ids)
  }

  lemma CollectOne(ask: Ask, live: Live, hits: seq<Hit>, ids: set<Id>, id: Id)
    requires Keyed(live) && Collected(ask, live, hits, ids) && id !in ids
    ensures Collected(ask, live, if id in live && ask.accepts(live[id]) then hits + [HitOf(ask, live[id])]
      else hits, ids + {id})
  {
    var more := HitsAmong(ask, live, ids + {id});
    if id in live && ask.accepts(live[id]) {
      var x := HitOf(ask, live[id]);
      assert x !in hits by {
        assert x !in HitsAmong(ask, live, ids);
        assert x in hits ==> x in Members(hits);
      }
      forall y ensures y in more <==> y == x || y in HitsAmong(ask, live, ids) {
        if y == x {
          assert id in ids + {id};
        }
      }
      MembersConcat(hits, [x]);
    } else {
      assert more == HitsAmong(ask, live, ids);
    }
  }

  lemma CollectedAll(ask: Ask, live: Live, hits: seq<Hit>, ids: set<Id>)
    requires Keyed(live) && Collected(ask, live, hits, ids)
    requires forall id | id in live && ask.accepts(live[id]) :: id in ids
    ensures Take(ask.k, Sort(Better, hits)) == Best(ask, live)
  {
    hide Best, Sort, Distinct;
    assert HitsAmong(ask, live, ids) == HitSet(ask, live);
    BestOfHits(ask, live, hits);
  }

  function IdsIn(tail: seq<Record>): set<Id> {
    set i | 0 <= i < |tail| :: tail[i].Id()
  }

  /** Score the untouched documents from the postings. */
  method FromPostings(ask: Ask, docs: seq<Doc>, tail: seq<Record>, live: Live, posted: seq<(nat, real)>)
    returns (hits: seq<Hit>, ghost ids: set<Id>)
    requires DistinctIds(docs) && live == Replay(LiveDocs(docs), tail) && Keyed(live) && Posts(posted, docs, ask.score)
    ensures Collected(Scoring(ask), live, hits, ids) && ids !! IdsIn(tail)
    ensures forall id | id in live && id !in IdsIn(tail) && ask.score(live[id]) != 0.0 :: id in ids
  {
    hide Collected, HitsAmong, Replay;
    var touched := IdsIn(tail);
    hits, ids := [], {};
    assert Collected(Scoring(ask), live, hits, ids) by {
      CollectedNone(Scoring(ask), live);
    }
    for i := 0 to |posted|
      invariant Collected(Scoring(ask), live, hits, ids) && ids !! touched
      invariant forall id | id in ids :: exists j :: 0 <= j < i && docs[posted[j].0].id == id
      invariant forall j | 0 <= j < i :: docs[posted[j].0].id in ids + touched
    {
      var (ordinal, score) := posted[i];
      var id := docs[ordinal].id;
      if id !in touched {
        assert !TouchedBy(id, tail);
        UntouchedIsStored(docs, tail, id);
        LiveDocAt(docs, ordinal);
        forall j | 0 <= j < i ensures docs[posted[j].0].id != id {
          assert posted[j].0 != ordinal;
        }
        CollectOne(Scoring(ask), live, hits, ids, id);
        if ask.accepts(live[id]) {
          hits := hits + [Hit(id, score, ask.project(live[id].attrs))];
        }
        ids := ids + {id};
      }
    }
    forall id | id in live && id !in IdsIn(tail) && ask.score(live[id]) != 0.0 ensures id in ids {
      assert !TouchedBy(id, tail);
      UntouchedIsStored(docs, tail, id);
      LiveDocsAre(docs, id);
      var o :| 0 <= o < |docs| && docs[o].id == id;
      var j :| 0 <= j < |posted| && posted[j].0 == o;
    }
  }

  lemma CollectedNone(ask: Ask, live: Live)
    ensures Collected(ask, live, [], {})
  {
    assert Members<Hit>([]) == HitsAmong(ask, live, {});
  }

  /** Postings for what the tail left alone, current values for what it touched: every live document that
      scores is ranked once, by its current value, and no deleted one is. */
  method RankOverlay(ask: Ask, docs: seq<Doc>, tail: seq<Record>, posted: seq<(nat, real)>) returns (r: seq<Hit>)
    requires DistinctIds(docs) && Posts(posted, docs, ask.score)
    ensures r == Best(Scoring(ask), Replay(LiveDocs(docs), tail))
  {
    hide Collected, Posts, Best, Sort, Replay, LiveDocs;
    var overlay := new LiveSet();
    overlay.MutateAll(Upserts(docs));
    overlay.MutateAll(tail);
    var live := overlay.docs;
    LiveDocsIs(docs);
    LiveDocsKeyed(docs);
    ReplayKeyed(LiveDocs(docs), tail);
    var hits; ghost var ids;
    hits, ids := FromPostings(ask, docs, tail, live, posted);
    var todo := IdsIn(tail);
    while todo != {}
      invariant todo <= IdsIn(tail) && ids !! todo
      invariant Collected(Scoring(ask), live, hits, ids)
      invariant forall id | id in IdsIn(tail) :: id in ids + todo
      invariant forall id | id in live && id !in IdsIn(tail) && ask.score(live[id]) != 0.0 :: id in ids
    {
      var id :| id in todo;
      todo := todo - {id};
      CollectOne(Scoring(ask), live, hits, ids, id);
      ids := ids + {id};
      if id in live {
        var score := ask.score(live[id]);
        if score != 0.0 && ask.accepts(live[id]) {
          hits := hits + [Hit(live[id].id, score, ask.project(live[id].attrs))];
        }
      }
    }
    CollectedAll(Scoring(ask), live, hits, ids);
    return Take(ask.k, Sort(Better, hits));
  }

  lemma LiveDocsIs(docs: seq<Doc>)
    ensures Replay(map[], Upserts(docs)) == LiveDocs(docs)
  {
  }

  // ------------------------------------------------------------ the prefilter

  predicate Selected(docs: seq<Doc>, chosen: set<nat>, id: Id) {
    exists o | 0 <= o < |docs| :: o in chosen && docs[o].id == id
  }

  /** The segment restricted to the ordinals an index selected. */
  function Chosen(docs: seq<Doc>, chosen: set<nat>): Live {
    map id | id in LiveDocs(docs) && Selected(docs, chosen, id) :: LiveDocs(docs)[id]
  }

  /** What a candidate map holds for one id after the tail: the truth, unless the document was left out
      and the tail only patches it; then nothing. */
  lemma CandidateAt(docs: seq<Doc>, chosen: set<nat>, tail: seq<Record>, id: Id)
    ensures At(Replay(Chosen(docs, chosen), tail), id) ==
            if id in LiveDocs(docs) && !Selected(docs, chosen, id) && !Decides(id, tail) then None
            else At(Replay(LiveDocs(docs), tail), id)
  {
    hide LiveDocs;
    ReplayAt(Chosen(docs, chosen), id, tail);
    ReplayAt(LiveDocs(docs), id, tail);
    var x, y := At(Chosen(docs, chosen), id), At(LiveDocs(docs), id);
    if id in LiveDocs(docs) && !Selected(docs, chosen, id) {
      if Decides(id, tail) {
        DecidedForgets(x, y, id, tail);
      } else {
        UndecidedIsOnePatch(x, id, tail);
      }
    }
  }

  /** A document the prefilter cannot see: left out by the index, only patched by the tail, and accepted
      as the patches leave it. */
  ghost predicate PatchedIn(ask: Ask, docs: seq<Doc>, chosen: set<nat>, tail: seq<Record>, id: Id) {
    && id in LiveDocs(docs) && !Selected(docs, chosen, id) && !Decides(id, tail)
    && ask.accepts(LiveDocs(docs)[id].(attrs := MergeAttrs(LiveDocs(docs)[id].attrs, NetPatch(id, tail))))
  }

  lemma PatchedInIsLive(ask: Ask, docs: seq<Doc>, chosen: set<nat>, tail: seq<Record>, id: Id)
    requires id in LiveDocs(docs) && !Decides(id, tail)
    ensures var live := Replay(LiveDocs(docs), tail);
      && id in live && live[id] ==
          LiveDocs(docs)[id].(attrs := MergeAttrs(LiveDocs(docs)[id].attrs, NetPatch(id, tail)))
  {
    hide LiveDocs;
    ReplayAt(LiveDocs(docs), id, tail);
    UndecidedIsOnePatch(At(LiveDocs(docs), id), id, tail);
  }

  /** Whatever the prefilter returns is a live document, with its current attributes and score, that the
      filter accepts. */
  lemma PrefilterIsSound(ask: Ask, docs: seq<Doc>, chosen: set<nat>, tail: seq<Record>, x: Hit)
    requires x in HitSet(ask, Replay(Chosen(docs, chosen), tail))
    ensures x in HitSet(ask, Replay(LiveDocs(docs), tail))
  {
    hide LiveDocs, Chosen, Replay, Selected, Decides;
    var candidates, live := Replay(Chosen(docs, chosen), tail), Replay(LiveDocs(docs), tail);
    var id :| id in candidates && ask.accepts(candidates[id]) && HitOf(ask, candidates[id]) == x;
    CandidateAt(docs, chosen, tail, id);
    assert At(candidates, id) == At(live, id);
    assert id in live && live[id] == candidates[id];
  }

  lemma SameHits(ask: Ask, docs: seq<Doc>, chosen: set<nat>, tail: seq<Record>)
    requires forall id :: !PatchedIn(ask, docs, chosen, tail, id)
    ensures HitSet(ask, Replay(Chosen(docs, chosen), tail)) == HitSet(ask, Replay(LiveDocs(docs), tail))
  {
    hide LiveDocs, Chosen, Replay, Selected, Decides, NetPatch;
    var candidates, live := Replay(Chosen(docs, chosen), tail), Replay(LiveDocs(docs), tail);
    forall x ensures x in HitSet(ask, candidates) <==> x in HitSet(ask, live) {
      if x in HitSet(ask, candidates) {
        PrefilterIsSound(ask, docs, chosen, tail, x);
      }
      if x in HitSet(ask, live) {
        var id :| id in live && ask.accepts(live[id]) && HitOf(ask, live[id]) == x;
        CandidateAt(docs, chosen, tail, id);
        assert !PatchedIn(ask, docs, chosen, tail, id);
        if id in LiveDocs(docs) && !Selected(docs, chosen, id) && !Decides(id, tail) {
          PatchedInIsLive(ask, docs, chosen, tail, id);
          assert false;
        }
        assert At(candidates, id) == At(live, id);
        assert HitOf(ask, candidates[id]) == x;
      }
    }
  }

  lemma ChosenKeyed(docs: seq<Doc>, chosen: set<nat>, tail: seq<Record>)
    ensures Keyed(Replay(Chosen(docs, chosen), tail)) && Keyed(Replay(LiveDocs(docs), tail))
  {
    LiveDocsKeyed(docs);
    ReplayKeyed(Chosen(docs, chosen), tail);
    ReplayKeyed(LiveDocs(docs), tail);
  }

  function Limit(ask: Ask, k: nat): Ask { ask.(k := k) }

  lemma LimitSameHits(ask: Ask, k: nat, live: Live)
    ensures HitSet(Limit(ask, k), live) == HitSet(ask, live)
  {
    assert forall d :: HitOf(Limit(ask, k), d) == HitOf(ask, d);
    forall x ensures x in HitSet(Limit(ask, k), live) <==> x in HitSet(ask, live) {
      if x in HitSet(ask, live) {
        var id :| id in live && ask.accepts(live[id]) && HitOf(ask, live[id]) == x;
        assert HitOf(Limit(ask, k), live[id]) == x;
      }
      if x in HitSet(Limit(ask, k), live) {
        var id :| id in live && ask.accepts(live[id]) && HitOf(Limit(ask, k), live[id]) == x;
        assert HitOf(ask, live[id]) == x;
      }
    }
  }

  lemma SameHitsSameBest(ask: Ask, k: nat, a: Live, b: Live)
    requires Keyed(a) && Keyed(b) && HitSet(ask, a) == HitSet(ask, b)
    ensures Best(Limit(ask, k), a) == Best(Limit(ask, k), b)
  {
    hide HitSet, Best, Sort;
    LimitSameHits(ask, k, a);
    LimitSameHits(ask, k, b);
    var list := ListOf(Limit(ask, k), a);
    BestOfHits(Limit(ask, k), a, list);
    BestOfHits(Limit(ask, k), b, list);
  }

  /** A long enough page lists every hit. */
  lemma WholePage(ask: Ask, live: Live) returns (k: nat)
    requires Keyed(live)
    ensures forall k' | k' >= k :: Members(Best(Limit(ask, k'), live)) == HitSet(ask, live)
  {
    hide HitSet, Best, Sort;
    var list := ListOf(ask, live);
    k := |list|;
    forall k' | k' >= k ensures Members(Best(Limit(ask, k'), live)) == HitSet(ask, live) {
      LimitSameHits(ask, k', live);
      BestOfHits(Limit(ask, k'), live, list);
      SortMembers(Better, list);
    }
  }

  /** The prefiltered answer equals the exact one for every page size if and only if no document left
      out by the index is patched into the match set by a tail that neither upserts nor deletes it. */
  lemma PrefilterIsExact(ask: Ask, docs: seq<Doc>, chosen: set<nat>, tail: seq<Record>)
    ensures (forall k: nat ::
               Best(Limit(ask, k), Replay(Chosen(docs, chosen), tail)) ==
               Best(Limit(ask, k), Replay(LiveDocs(docs), tail)))
            <==> (forall id :: !PatchedIn(ask, docs, chosen, tail, id))
  {
    hide Chosen, Replay, Best, HitSet, LiveDocs, PatchedIn;
    var candidates, live := Replay(Chosen(docs, chosen), tail), Replay(LiveDocs(docs), tail);
    ChosenKeyed(docs, chosen, tail);
    if forall id :: !PatchedIn(ask, docs, chosen, tail, id) {
      SameHits(ask, docs, chosen, tail);
      forall k: nat ensures Best(Limit(ask, k), candidates) == Best(Limit(ask, k), live) {
        SameHitsSameBest(ask, k, candidates, live);
      }
    } else {
      var id :| PatchedIn(ask, docs, chosen, tail, id);
      MissedHit(ask, docs, chosen, tail, id);
      var i := WholePage(ask, candidates);
      var j := WholePage(ask, live);
      assert Best(Limit(ask, i + j), candidates) != Best(Limit(ask, i + j), live);
    }
  }

  lemma MissedHit(ask: Ask, docs: seq<Doc>, chosen: set<nat>, tail: seq<Record>, id: Id)
    requires PatchedIn(ask, docs, chosen, tail, id)
    ensures HitSet(ask, Replay(Chosen(docs, chosen), tail)) != HitSet(ask, Replay(LiveDocs(docs), tail))
  {
    hide Chosen, Replay, LiveDocs, Selected, Decides, NetPatch;
    var candidates, live := Replay(Chosen(docs, chosen), tail), Replay(LiveDocs(docs), tail);
    CandidateAt(docs, chosen, tail, id);
    PatchedInIsLive(ask, docs, chosen, tail, id);
    ChosenKeyed(docs, chosen, tail);
    assert At(candidates, id) == None;
    assert HitOf(ask, live[id]) in HitSet(ask, live);
    forall other | other in candidates ensures HitOf(ask, candidates[other]).id != id {
      assert candidates[other].id == other;
    }
  }

  /** Enough for an exact answer: the index missed no match, and every segment document the tail patches
      was selected, or is upserted or deleted by the tail as well. */
  lemma SelectedOrDecidedIsEnough(ask: Ask, docs: seq<Doc>, chosen: set<nat>, tail: seq<Record>, id: Id)
    requires DistinctIds(docs) && forall o | 0 <= o < |docs| && ask.accepts(docs[o]) :: o in chosen
    requires forall o | 0 <= o < |docs| && TouchedBy(docs[o].id, tail) :: o in chosen || Decides(docs[o].id, tail)
    ensures !PatchedIn(ask, docs, chosen, tail, id)
  {
    if PatchedIn(ask, docs, chosen, tail, id) {
      LiveDocsAre(docs, id);
      var o :| 0 <= o < |docs| && docs[o].id == id;
      PatchedInIsLive(ask, docs, chosen, tail, id);
      UntouchedIsStored(docs, tail, id);
      assert At(Replay(LiveDocs(docs), tail), id) == At(LiveDocs(docs), id);
    }
  }

  /** The loop of the source: gather the selected documents, let the tail override, rank. */
  method RankPrefiltered(ask: Ask, docs: seq<Doc>, chosen: set<nat>, tail: seq<Record>) returns (hits: seq<Hit>)
    requires DistinctIds(docs)
    ensures hits == Best(ask, Replay(Chosen(docs, chosen), tail))
  {
    hide LiveDocs, Replay, Best, Chosen, IsPage;
    var candidates: Live := map[];
    var todo := chosen;
    NoneChosen(docs, chosen - todo);
    while todo != {}
      invariant todo <= chosen
      invariant candidates == Chosen(docs, chosen - todo)
    {
      var o :| o in todo;
      ghost var done := chosen - todo;
      todo := todo - {o};
      if o < |docs| {
        candidates := candidates[docs[o].id := docs[o]];
      }
      OneMoreChosen(docs, done, o);
      assert chosen - todo == done + {o};
    }
    assert chosen - {} == chosen;
    var overlay := new LiveSet.From(candidates);
    overlay.MutateAll(tail);
    ChosenKeyed(docs, chosen, tail);
    hits := RankLive(ask, overlay.docs);
  }

  lemma NoneChosen(docs: seq<Doc>, chosen: set<nat>)
    requires chosen == {}
    ensures Chosen(docs, chosen) == map[]
  {
    hide LiveDocs;
  }

  lemma OneMoreChosen(docs: seq<Doc>, chosen: set<nat>, o: nat)
    requires DistinctIds(docs)
    ensures Chosen(docs, chosen + {o}) ==
            if o < |docs| then Chosen(docs, chosen)[docs[o].id := docs[o]] else Chosen(docs, chosen)
  {
    hide LiveDocs;
    if o < |docs| {
      LiveDocAt(docs, o);
    }
    forall id
      ensures Selected(docs, chosen + {o}, id) <==> Selected(docs, chosen, id) || (o < |docs| && docs[o].id == id)
    {
    }
  }
}
