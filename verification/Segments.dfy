/** A segment as the query paths see it: documents by ordinal, one per id. */
module Segments {
  import opened Records
  import Sorting

  predicate DistinctIds(docs: seq<Doc>) {
    forall i, j | 0 <= i < j < |docs| :: docs[i].id != docs[j].id
  }

  function Upserts(docs: seq<Doc>): (r: seq<Record>)
    ensures |r| == |docs|
  {
    seq(|docs|, i requires 0 <= i < |docs| => Upsert(docs[i]))
  }

  /** The segment read back. */
  function LiveDocs(docs: seq<Doc>): Live {
    Replay(map[], Upserts(docs))
  }

  lemma {:induction false} LiveDocsKeyed(docs: seq<Doc>)
    ensures Keyed(LiveDocs(docs))
  {
    ReplayKeyed(map[], Upserts(docs));
  }

  lemma {:induction false} LiveDocsAre(docs: seq<Doc>, id: Id)
    requires DistinctIds(docs)
    ensures id in LiveDocs(docs) <==> exists i :: 0 <= i < |docs| && docs[i].id == id
    ensures forall i | 0 <= i < |docs| && docs[i].id == id :: LiveDocs(docs)[id] == docs[i]
    decreases |docs|
  {
    if docs != [] {
      var front, last := docs[..|docs| - 1], docs[|docs| - 1];
      LiveDocsAre(front, id);
      assert Upserts(docs) == Upserts(front) + [Upsert(last)];
      ReplayConcat(map[], Upserts(front), [Upsert(last)]);
      assert LiveDocs(docs) == LiveDocs(front)[last.id := last];
      if id in LiveDocs(front) {
        var i :| 0 <= i < |front| && front[i].id == id;
        assert docs[i] == front[i];
      }
    }
  }

  lemma LiveDocAt(docs: seq<Doc>, i: nat)
    requires DistinctIds(docs) && i < |docs|
    ensures docs[i].id in LiveDocs(docs) && LiveDocs(docs)[docs[i].id] == docs[i]
  {
    LiveDocsAre(docs, docs[i].id);
  }

  /** The documents of a segment, by ordinal. */
  function DocsIn(records: seq<Record>): seq<Doc> {
    if records == [] then []
    else (if records[0].Upsert? then [records[0].doc] else []) + DocsIn(records[1..])
  }

  lemma {:induction false} DocsOfUpserts(docs: seq<Doc>)
    ensures DocsIn(Upserts(docs)) == docs
    decreases |docs|
  {
    if docs != [] {
      assert Upserts(docs)[1..] == Upserts(docs[1..]);
      DocsOfUpserts(docs[1..]);
      assert [docs[0]] + docs[1..] == docs;
    }
  }

  /** Documents that one index cannot cluster: their vectors differ in length. */
  predicate Uneven(docs: seq<Doc>) {
    exists i | 0 <= i < |docs| :: |docs[i].vector| != |docs[0].vector|
  }

  // ------------------------------------------------------------ ids

  lemma IdLessIsStrict(ids: set<Id>)
    ensures Sorting.Strict(IdLess, ids)
  {
    forall a, b | a in ids && b in ids ensures a == b || IdLess(a, b) || IdLess(b, a) {
      IdLessTotal(a, b);
    }
    forall a | a in ids ensures !IdLess(a, a) {
      IdLessTotal(a, a);
    }
    forall a, b, c | a in ids && b in ids && c in ids && IdLess(a, b) && IdLess(b, c) ensures IdLess(a, c) {
      IdLessTransitive(a, b, c);
    }
  }

  /** Sorting distinct ids, however collected, lists their set in order. */
  lemma SortedIsSortedIds(ids: seq<Id>)
    requires Sorting.Distinct(ids)
    ensures Sorting.Sort(IdLess, ids) == SortedIds(Sorting.Members(ids))
  {
    var s := Sorting.Members(ids);
    IdLessIsStrict(s);
    Sorting.SortAscends(IdLess, ids);
    assert Sorting.Members(SortedIds(s)) == s;
    assert Sorting.Ascends(IdLess, SortedIds(s));
    Sorting.OneArrangement(IdLess, SortedIds(s), Sorting.Sort(IdLess, ids));
  }
}
