/** Nested filters over attribute indexes, against the scan (src/attrindex.rs, src/store.rs). */
module Planner {
  import opened Wrappers
  import opened Values
  import opened Records
  import opened Schemas
  import opened Filters
  import opened AttrIndex
  import opened Segments
  import Sorting

  // ------------------------------------------------------------ whole filters

  function Join(before: Option<Selection>, last: Option<Selection>): Option<Selection> {
    if last.None? then before
    else if before.None? then last
    else Some(Selection(before.value.ordinals * last.value.ordinals, before.value.exact && last.value.exact))
  }

  /** Intersect what can be answered; an operand that cannot drops out. */
  function Meet(rs: seq<Option<Selection>>): Option<Selection>
    decreases |rs|
  {
    if rs == [] then None else Join(Meet(rs[..|rs| - 1]), rs[|rs| - 1])
  }

  predicate Exact(r: Option<Selection>) { r.Some? && r.value.exact }

  function AndOf(rs: seq<Option<Selection>>): Option<Selection> {
    var met :- Meet(rs);
    Some(Selection(met.ordinals, met.exact && forall i | 0 <= i < |rs| :: Exact(rs[i])))
  }

  /** One operand that cannot be answered poisons the union. */
  function OrOf(rs: seq<Option<Selection>>): Option<Selection>
    decreases |rs|
  {
    if rs == [] then Some(Selection({}, true))
    else
      var before :- OrOf(rs[..|rs| - 1]);
      var last :- rs[|rs| - 1];
      Some(Selection(before.ordinals + last.ordinals, before.exact && last.exact))
  }

  function UpTo(total: nat): (r: set<nat>)
    ensures forall o :: o in r <==> 0 <= o < total
  {
    if total == 0 then {} else UpTo(total - 1) + {total - 1}
  }

  /** The complement means something only of an exact set. */
  function NotOf(r: Option<Selection>, total: nat): Option<Selection> {
    var s :- r;
    if s.exact then Some(Selection(UpTo(total) - s.ordinals, true)) else None
  }

  function Evaluate(h: Host, f: Filter, indexes: map<string, Index>, total: nat): Option<Selection> {
    match f
    case Cmp(key, op, value) => if key in indexes then Select(h, indexes[key], op, value) else None
    case And(parts) => AndOf(seq(|parts|, i requires 0 <= i < |parts| => Evaluate(h, parts[i], indexes, total)))
    case Or(parts) => OrOf(seq(|parts|, i requires 0 <= i < |parts| => Evaluate(h, parts[i], indexes, total)))
    case Not(inner) => NotOf(Evaluate(h, inner, indexes, total), total)
  }

  /** What the operands of a filter are answered. */
  function Answers(h: Host, f: Filter, indexes: map<string, Index>, total: nat): (rs: seq<Option<Selection>>)
    requires f.And? || f.Or?
    ensures |rs| == |f.parts|
  {
    seq(|f.parts|, i requires 0 <= i < |f.parts| => Evaluate(h, f.parts[i], indexes, total))
  }

  lemma NextAnswer(rs: seq<Option<Selection>>, i: nat)
    requires i < |rs|
    ensures Meet(rs[..i + 1]) == Join(Meet(rs[..i]), rs[i])
    ensures OrOf(rs[..i]).Some? && rs[i].Some? ==>
      OrOf(rs[..i + 1]) == Some(Selection(OrOf(rs[..i]).value.ordinals + rs[i].value.ordinals,
          OrOf(rs[..i]).value.exact && rs[i].value.exact))
  {
    assert rs[..i + 1][..i] == rs[..i];
  }

  method EvaluateAnd(h: Host, f: Filter, indexes: map<string, Index>, total: nat) returns (r: Option<Selection>)
    requires f.And?
    ensures r == AndOf(Answers(h, f, indexes, total))
    decreases f, 0
  {
    hide Meet, Join;
    ghost var rs := Answers(h, f, indexes, total);
    var acc, exact := None, true;
    assert Meet([]) == acc by {
      MeetNothing();
    }
    for i := 0 to |f.parts|
      invariant acc == Meet(rs[..i]) && (exact <==> forall j | 0 <= j < i :: Exact(rs[j]))
    {
      NextAnswer(rs, i);
      var s := EvaluateFilter(h, f.parts[i], indexes, total);
      exact := exact && Exact(s);
      acc := Join(acc, s);
    }
    assert rs[..|f.parts|] == rs;
    return if acc.None? then None else Some(Selection(acc.value.ordinals, acc.value.exact && exact));
  }

  lemma MeetNothing()
    ensures Meet([]) == None
  {
  }

  method EvaluateOr(h: Host, f: Filter, indexes: map<string, Index>, total: nat) returns (r: Option<Selection>)
    requires f.Or?
    ensures r == OrOf(Answers(h, f, indexes, total))
    decreases f, 0
  {
    ghost var rs := Answers(h, f, indexes, total);
    var ordinals, exact := {}, true;
    for i := 0 to |f.parts|
      invariant OrOf(rs[..i]) == Some(Selection(ordinals, exact))
    {
      NextAnswer(rs, i);
      var s := EvaluateFilter(h, f.parts[i], indexes, total);
      if s.None? {
        PoisonedFrom(rs, i);
        return None;
      }
      ordinals, exact := ordinals + s.value.ordinals, exact && s.value.exact;
    }
    assert rs[..|f.parts|] == rs;
    return Some(Selection(ordinals, exact));
  }

  /** The recursion of the source, with its accumulators. */
  method EvaluateFilter(h: Host, f: Filter, indexes: map<string, Index>, total: nat) returns (r: Option<Selection>)
    ensures r == Evaluate(h, f, indexes, total)
    decreases f, 1
  {
    match f {
      case Cmp(key, op, value) =>
        r := if key in indexes then Select(h, indexes[key], op, value) else None;
      case Not(inner) =>
        var s := EvaluateFilter(h, inner, indexes, total);
        r := NotOf(s, total);
      case And(_) =>
        r := EvaluateAnd(h, f, indexes, total);
      case Or(_) =>
        r := EvaluateOr(h, f, indexes, total);
    }
  }

  lemma {:induction false} PoisonedFrom(rs: seq<Option<Selection>>, i: nat)
    requires i < |rs| && rs[i].None?
    ensures OrOf(rs).None?
    decreases |rs|
  {
    if i < |rs| - 1 {
      PoisonedFrom(rs[..|rs| - 1], i);
    }
  }

  // ------------------------------------------------------------ the index against the scan

  function Column(docs: seq<Attrs>, key: string): (r: seq<Value>)
    ensures |r| == |docs| && forall o | 0 <= o < |docs| :: r[o] == Attribute(docs[o], key)
  {
    seq(|docs|, o requires 0 <= o < |docs| => Attribute(docs[o], key))
  }

  /** Every index at hand is a stored index of these documents. */
  ghost predicate Stored(h: Host, types: map<string, Type>, indexes: map<string, Index>, docs: seq<Attrs>) {
    forall key | key in indexes :: key in types && Serves(h, types[key], indexes[key], Column(docs, key))
  }

  /** Every comparison of an indexed attribute is one the index answers honestly. */
  ghost predicate AllFaithful(h: Host, types: map<string, Type>, f: Filter) {
    match f
    case And(parts) => forall i | 0 <= i < |parts| :: AllFaithful(h, types, parts[i])
    case Or(parts) => forall i | 0 <= i < |parts| :: AllFaithful(h, types, parts[i])
    case Not(inner) => AllFaithful(h, types, inner)
    case Cmp(key, op, v) => key in types ==> Faithful(h, types[key], op, v)
  }

  /** The ordinals of the documents the scan accepts. */
  ghost function Accepted(h: Host, fts: map<string, FtsConfig>, f: Filter, docs: seq<Attrs>): set<nat> {
    set o | 0 <= o < |docs| && Matches(h, fts, f, docs[o])
  }

  lemma {:induction false} MeetIsHonest(rs: seq<Option<Selection>>, hits: seq<set<nat>>, all: set<nat>)
    requires |rs| == |hits| && forall i | 0 <= i < |rs| :: Honest(rs[i], hits[i]) && all <= hits[i]
    ensures var r := Meet(rs);
      && (r.Some? ==> all <= r.value.ordinals)
      && (r.Some? && (forall i | 0 <= i < |rs| :: Exact(rs[i])) ==> forall o :: o in r.value.ordinals <==>
          forall i | 0 <= i < |rs| :: o in hits[i])
      && (r.None? ==> forall i | 0 <= i < |rs| :: rs[i].None?)
    decreases |rs|
  {
    if rs != [] {
      MeetIsHonest(rs[..|rs| - 1], hits[..|rs| - 1], all);
    }
  }

  lemma {:induction false} OrIsHonest(rs: seq<Option<Selection>>, hits: seq<set<nat>>)
    requires |rs| == |hits| && forall i | 0 <= i < |rs| :: Honest(rs[i], hits[i])
    ensures var r := OrOf(rs);
      && (r.Some? ==> forall i | 0 <= i < |rs| :: hits[i] <= r.value.ordinals)
      && (r.Some? && r.value.exact ==> forall o :: o in r.value.ordinals <==> exists i | 0 <= i < |rs| :: o in hits[i])
    decreases |rs|
  {
    if rs != [] {
      OrIsHonest(rs[..|rs| - 1], hits[..|rs| - 1]);
    }
  }

  /** Exactness carries: a negation is answered exactly if its inner filter is, and a connective if every part is. */
  lemma ExactnessCarries(h: Host, f: Filter, indexes: map<string, Index>, total: nat)
    ensures f.Not? ==> (Exact(Evaluate(h, f, indexes, total)) <==> Exact(Evaluate(h, f.inner, indexes, total)))
    ensures (f.And? && f.parts != []) || f.Or? ==>
      (Exact(Evaluate(h, f, indexes, total)) <==>
         forall i | 0 <= i < |f.parts| :: Exact(Evaluate(h, f.parts[i], indexes, total)))
  {
    if f.And? || f.Or? {
      var rs := Answers(h, f, indexes, total);
      assert forall i | 0 <= i < |f.parts| :: rs[i] == Evaluate(h, f.parts[i], indexes, total);
      MeetExact(rs);
      OrExact(rs);
      match f
      case And(_) => assert Evaluate(h, f, indexes, total) == AndOf(rs);
      case Or(_) => assert Evaluate(h, f, indexes, total) == OrOf(rs);
    }
  }

  lemma {:induction false} MeetExact(rs: seq<Option<Selection>>)
    ensures rs != [] && (forall i | 0 <= i < |rs| :: Exact(rs[i])) ==> Exact(Meet(rs))
    decreases |rs|
  {
    if rs != [] {
      var front := rs[..|rs| - 1];
      MeetExact(front);
      assert forall i | 0 <= i < |front| :: front[i] == rs[i];
    }
  }

  lemma {:induction false} OrExact(rs: seq<Option<Selection>>)
    ensures Exact(OrOf(rs)) <==> forall i | 0 <= i < |rs| :: Exact(rs[i])
    decreases |rs|
  {
    if rs != [] {
      var front := rs[..|rs| - 1];
      OrExact(front);
      assert forall i | 0 <= i < |front| :: front[i] == rs[i];
    }
  }

  /** For every nested filter of faithful comparisons the index answers nothing, or a superset of the
      scan; and exactly the scan where it says so. */
  lemma {:induction false} EvaluateIsHonest(h: Host, fts: map<string, FtsConfig>, types: map<string, Type>, f: Filter,
      indexes: map<string, Index>, docs: seq<Attrs>)
    requires Stored(h, types, indexes, docs) && AllSettled(types, f) && AllFaithful(h, types, f)
    ensures Honest(Evaluate(h, f, indexes, |docs|), Accepted(h, fts, f, docs))
    decreases f
  {
    match f {
      case Cmp(key, op, value) =>
        if key in indexes {
          CmpIsHonest(h, fts, types, key, op, value, indexes, docs);
        }
      case Not(inner) =>
        EvaluateIsHonest(h, fts, types, inner, indexes, docs);
      case And(parts) =>
        forall i | 0 <= i < |parts|
          ensures Honest(Evaluate(h, parts[i], indexes, |docs|), Accepted(h, fts, parts[i], docs))
        {
          EvaluateIsHonest(h, fts, types, parts[i], indexes, docs);
        }
        AndIsHonest(h, fts, f, indexes, docs);
      case Or(parts) =>
        forall i | 0 <= i < |parts|
          ensures Honest(Evaluate(h, parts[i], indexes, |docs|), Accepted(h, fts, parts[i], docs))
        {
          EvaluateIsHonest(h, fts, types, parts[i], indexes, docs);
        }
        UnionIsHonest(h, fts, f, indexes, docs);
    }
  }

  lemma CmpIsHonest(h: Host, fts: map<string, FtsConfig>, types: map<string, Type>, key: string, op: Op, value: Value,
                    indexes: map<string, Index>, docs: seq<Attrs>)
    requires Stored(h, types, indexes, docs) && key in indexes
    requires Settled(op, types[key], value) && Faithful(h, types[key], op, value)
    ensures Honest(Select(h, indexes[key], op, value), Accepted(h, fts, Cmp(key, op, value), docs))
  {
    hide Faithful, Serves, Eval, EvalFullText;
    if !op.IsFullText() {
      FaithfulIsHonest(h, types[key], indexes[key], Column(docs, key), op, value);
      assert Accepted(h, fts, Cmp(key, op, value), docs) == Hits(h, Column(docs, key), op, value);
    }
  }

  lemma AndIsHonest(h: Host, fts: map<string, FtsConfig>, f: Filter, indexes: map<string, Index>, docs: seq<Attrs>)
    requires f.And? && forall i | 0 <= i < |f.parts| ::
      Honest(Evaluate(h, f.parts[i], indexes, |docs|), Accepted(h, fts, f.parts[i], docs))
    ensures Honest(Evaluate(h, f, indexes, |docs|), Accepted(h, fts, f, docs))
  {
    var n := |f.parts|;
    var rs := seq(n, i requires 0 <= i < n => Evaluate(h, f.parts[i], indexes, |docs|));
    var hits := seq(n, i requires 0 <= i < n => Accepted(h, fts, f.parts[i], docs));
    MeetIsHonest(rs, hits, Accepted(h, fts, f, docs));
    forall o ensures o in Accepted(h, fts, f, docs) <==> 0 <= o < |docs| && forall i | 0 <= i < n :: o in hits[i] {
      if 0 <= o < |docs| {
        forall i | 0 <= i < n ensures o in hits[i] <==> Matches(h, fts, f.parts[i], docs[o]) {
        }
      }
    }
    assert AndOf(rs).Some? ==> rs != [] && forall o | o in hits[0] :: 0 <= o < |docs|;
  }

  lemma UnionIsHonest(h: Host, fts: map<string, FtsConfig>, f: Filter, indexes: map<string, Index>, docs: seq<Attrs>)
    requires f.Or? && forall i | 0 <= i < |f.parts| ::
      Honest(Evaluate(h, f.parts[i], indexes, |docs|), Accepted(h, fts, f.parts[i], docs))
    ensures Honest(Evaluate(h, f, indexes, |docs|), Accepted(h, fts, f, docs))
  {
    var n := |f.parts|;
    var rs := seq(n, i requires 0 <= i < n => Evaluate(h, f.parts[i], indexes, |docs|));
    var hits := seq(n, i requires 0 <= i < n => Accepted(h, fts, f.parts[i], docs));
    OrIsHonest(rs, hits);
    forall o ensures o in Accepted(h, fts, f, docs) <==> exists i | 0 <= i < n :: o in hits[i] {
      if o in Accepted(h, fts, f, docs) {
        var i :| 0 <= i < n && Matches(h, fts, f.parts[i], docs[o]);
        assert o in hits[i];
      }
      if i :| 0 <= i < n && o in hits[i] {
        assert Matches(h, fts, f.parts[i], docs[o]);
      }
    }
  }

  // ------------------------------------------------------------ the ids a filter matches

  /** A compacted shard: its documents by ordinal, and its attribute indexes if they were built. */
  datatype Part = Part(docs: seq<Doc>, indexes: Option<map<string, Index>>)

  function AttrsOf(docs: seq<Doc>): (r: seq<Attrs>)
    ensures |r| == |docs| && forall i | 0 <= i < |docs| :: r[i] == docs[i].attrs
  {
    seq(|docs|, i requires 0 <= i < |docs| => docs[i].attrs)
  }

  function AllDocs(parts: seq<Part>): seq<Doc>
    decreases |parts|
  {
    if parts == [] then [] else AllDocs(parts[..|parts| - 1]) + parts[|parts| - 1].docs
  }

  ghost predicate Compacted(h: Host, types: map<string, Type>, parts: seq<Part>) {
    && DistinctIds(AllDocs(parts))
    && forall i | 0 <= i < |parts| && parts[i].indexes.Some? ::
        Stored(h, types, parts[i].indexes.value, AttrsOf(parts[i].docs))
  }

  predicate Accepts(h: Host, fts: map<string, FtsConfig>, f: Filter, d: Doc) {
    Matches(h, fts, f, d.attrs)
  }

  function Matching(h: Host, fts: map<string, FtsConfig>, f: Filter, live: Live): set<Id> {
    set id | id in live && Accepts(h, fts, f, live[id])
  }

  /** The ids of the accepted documents, in order of ordinal. */
  function AcceptedIds(h: Host, fts: map<string, FtsConfig>, f: Filter, docs: seq<Doc>): seq<Id>
    decreases |docs|
  {
    if docs == [] then []
    else AcceptedIds(h, fts, f, docs[..|docs| - 1]) + var d := docs[|docs| - 1]; if Accepts(h, fts, f, d) then [d.id]
        else []
  }

  lemma {:induction false} AcceptedIdsAre(h: Host, fts: map<string, FtsConfig>, f: Filter, docs: seq<Doc>)
    requires DistinctIds(docs)
    ensures var ids := AcceptedIds(h, fts, f, docs);
      && Sorting.Distinct(ids)
      && (forall id :: id in ids <==> exists i :: 0 <= i < |docs| && docs[i].id == id && Accepts(h, fts, f, docs[i]))
    decreases |docs|
  {
    if docs != [] {
      var front := docs[..|docs| - 1];
      AcceptedIdsAre(h, fts, f, front);
      assert docs[|docs| - 1].id !in AcceptedIds(h, fts, f, front) by {
        forall i | 0 <= i < |front| ensures front[i].id != docs[|docs| - 1].id {
          assert front[i] == docs[i];
        }
      }
      forall id
        ensures id in AcceptedIds(h, fts, f, docs) <==>
          exists i :: 0 <= i < |docs| && docs[i].id == id && Accepts(h, fts, f, docs[i])
      {
        if id in AcceptedIds(h, fts, f, front) {
          var i :| 0 <= i < |front| && front[i].id == id && Accepts(h, fts, f, front[i]);
          assert docs[i] == front[i];
        }
      }
    }
  }

  lemma AcceptedIdsMatch(h: Host, fts: map<string, FtsConfig>, f: Filter, docs: seq<Doc>)
    requires DistinctIds(docs)
    ensures Sorting.Sort(IdLess, AcceptedIds(h, fts, f, docs)) == SortedIds(Matching(h, fts, f, LiveDocs(docs)))
  {
    hide LiveDocs, Accepts;
    var ids := AcceptedIds(h, fts, f, docs);
    AcceptedIdsAre(h, fts, f, docs);
    SortedIsSortedIds(ids);
    forall id ensures id in ids <==> id in Matching(h, fts, f, LiveDocs(docs)) {
      LiveDocsAre(docs, id);
    }
    assert Sorting.Members(ids) == Matching(h, fts, f, LiveDocs(docs));
  }

  lemma {:induction false} AcceptedIdsConcat(h: Host, fts: map<string, FtsConfig>, f: Filter, a: seq<Doc>, b: seq<Doc>)
    ensures AcceptedIds(h, fts, f, a + b) == AcceptedIds(h, fts, f, a) + AcceptedIds(h, fts, f, b)
    decreases |b|
  {
    if b == [] {
      assert a + b == a;
    } else {
      assert (a + b)[..|a + b| - 1] == a + b[..|b| - 1];
      AcceptedIdsConcat(h, fts, f, a, b[..|b| - 1]);
    }
  }

  /** Resolve ordinals to ids. */
  method Resolve(h: Host, fts: map<string, FtsConfig>, f: Filter, docs: seq<Doc>, ordinals: set<nat>)
    returns (ids: seq<Id>)
    requires ordinals == Accepted(h, fts, f, AttrsOf(docs))
    ensures ids == AcceptedIds(h, fts, f, docs)
  {
    ids := [];
    for o := 0 to |docs|
      invariant ids == AcceptedIds(h, fts, f, docs[..o])
    {
      assert docs[..o + 1][..o] == docs[..o];
      assert o in ordinals <==> Accepts(h, fts, f, docs[o]);
      if o in ordinals {
        ids := ids + [docs[o].id];
      }
    }
    assert docs[..|docs|] == docs;
  }

  /** The fast path: every shard must answer exactly, else `None`. */
  method FromIndexes(h: Host, fts: map<string, FtsConfig>, ghost types: map<string, Type>, f: Filter, parts: seq<Part>)
    returns (r: Option<seq<Id>>)
    requires Compacted(h, types, parts) && AllSettled(types, f) && AllFaithful(h, types, f)
    requires forall i | 0 <= i < |parts| :: parts[i].indexes.Some?
    ensures r.Some? ==> r.value == AcceptedIds(h, fts, f, AllDocs(parts))
  {
    hide AllSettled, AllFaithful, Stored, Accepted;
    var ids := [];
    for i := 0 to |parts|
      invariant ids == AcceptedIds(h, fts, f, AllDocs(parts[..i]))
    {
      var docs, indexes := parts[i].docs, parts[i].indexes.value;
      var s := EvaluateFilter(h, f, indexes, |docs|);
      if !Exact(s) {
        return None;
      }
      EvaluateIsHonest(h, fts, types, f, indexes, AttrsOf(docs));
      var more := Resolve(h, fts, f, docs, s.value.ordinals);
      assert parts[..i + 1][..i] == parts[..i];
      AcceptedIdsConcat(h, fts, f, AllDocs(parts[..i]), docs);
      ids := ids + more;
    }
    assert parts[..|parts|] == parts;
    return Some(ids);
  }

  /** The ids matching a filter, capped, and whether more remain: the same by the indexes as by the scan
      of the live set. */
  method IdsMatching(h: Host, fts: map<string, FtsConfig>, ghost types: map<string, Type>, f: Filter, parts: seq<Part>,
                     wal: seq<Record>, cap: nat)
    returns (ids: seq<Id>, remaining: bool)
    requires Compacted(h, types, parts) && AllSettled(types, f) && AllFaithful(h, types, f)
    ensures var matching := Matching(h, fts, f, Replay(LiveDocs(AllDocs(parts)), wal));
      ids == Sorting.Take(cap, SortedIds(matching)) && remaining == (|matching| > cap)
  {
    hide AllSettled, AllFaithful, Compacted, Matching;
    var docs := AllDocs(parts);
    if wal == [] && parts != [] && forall i | 0 <= i < |parts| :: parts[i].indexes.Some? {
      var r := FromIndexes(h, fts, types, f, parts);
      if r.Some? {
        assert DistinctIds(docs) by {
          IdsAreDistinct(h, types, parts);
        }
        AcceptedIdsMatch(h, fts, f, docs);
        var matched := Sorting.Sort(IdLess, r.value);
        return Sorting.Take(cap, matched), |matched| > cap;
      }
    }
    var live := new LiveSet();
    live.MutateAll(Upserts(docs) + wal);
    ReplayConcat(map[], Upserts(docs), wal);
    var matched := SortedIds(Matching(h, fts, f, live.docs));
    return Sorting.Take(cap, matched), |matched| > cap;
  }

  lemma IdsAreDistinct(h: Host, types: map<string, Type>, parts: seq<Part>)
    requires Compacted(h, types, parts)
    ensures DistinctIds(AllDocs(parts))
  {
  }
}
