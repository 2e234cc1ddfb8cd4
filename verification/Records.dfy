/** Documents, mutations, and what a list of mutations means (src/doc.rs, src/store.rs). */
module Records {
  import opened Wrappers
  import opened Values

  datatype Id = UintId(u: u64) | UuidId(id: Uuid) | StringId(s: string)

  type Attrs = map<string, Value>

  datatype Doc = Doc(id: Id, vector: seq<F32>, attrs: Attrs)

  datatype Record =
    | Upsert(doc: Doc)
    | Patch(target: Id, attrs: Attrs)
    | Delete(target: Id)
  {
    function Id(): Id {
      if Upsert? then doc.id else target
    }
  }

  type Live = map<Id, Doc>

  /** Every document is filed under its own id. */
  ghost predicate Keyed(live: Live) {
    forall id | id in live :: live[id].id == id
  }

  // ------------------------------------------------------------ mutation semantics

  /** A null in a patch removes the attribute; every other value replaces it. */
  function MergeAttrs(attrs: Attrs, patch: Attrs): Attrs {
    map k | k in attrs.Keys + patch.Keys && (k in patch ==> !patch[k].Null?)
      :: if k in patch then patch[k] else attrs[k]
  }

  function Apply(live: Live, r: Record): Live {
    match r
    case Upsert(d) => live[d.id := d]
    case Delete(id) => live - {id}
    case Patch(id, attrs) =>
      if id in live then live[id := live[id].(attrs := MergeAttrs(live[id].attrs, attrs))] else live
  }

  /** The live set after applying `records` in order. */
  function Replay(live: Live, records: seq<Record>): Live
    decreases |records|
  {
    if records == [] then live else Replay(Apply(live, records[0]), records[1..])
  }

  lemma {:induction false} ReplayConcat(live: Live, a: seq<Record>, b: seq<Record>)
    ensures Replay(live, a + b) == Replay(Replay(live, a), b)
    decreases |a|
  {
    if a == [] {
      assert a + b == b;
    } else {
      assert (a + b)[0] == a[0] && (a + b)[1..] == a[1..] + b;
      ReplayConcat(Apply(live, a[0]), a[1..], b);
    }
  }

  lemma {:induction false} ReplayKeyed(live: Live, records: seq<Record>)
    requires Keyed(live)
    ensures Keyed(Replay(live, records))
    decreases |records|
  {
    if records != [] {
      ReplayKeyed(Apply(live, records[0]), records[1..]);
    }
  }

  // ------------------------------------------------------------ one document at a time

  function At(live: Live, id: Id): Option<Doc> {
    if id in live then Some(live[id]) else None
  }

  /** What one record does to the document `id`, which may be absent. */
  function Touch(doc: Option<Doc>, id: Id, r: Record): Option<Doc> {
    if r.Id() != id then doc
    else match r
      case Upsert(d) => Some(d)
      case Delete(_) => None
      case Patch(_, attrs) =>
        if doc.None? then None else Some(doc.value.(attrs := MergeAttrs(doc.value.attrs, attrs)))
  }

  function History(doc: Option<Doc>, id: Id, records: seq<Record>): Option<Doc>
    decreases |records|
  {
    if records == [] then doc else History(Touch(doc, id, records[0]), id, records[1..])
  }

  /** Documents never interact: a replay is determined one id at a time. */
  lemma {:induction false} ReplayAt(live: Live, id: Id, records: seq<Record>)
    ensures At(Replay(live, records), id) == History(At(live, id), id, records)
    decreases |records|
  {
    if records != [] {
      ReplayAt(Apply(live, records[0]), id, records[1..]);
    }
  }

  lemma SameEverywhere(a: Live, b: Live)
    requires forall id :: At(a, id) == At(b, id)
    ensures a == b
  {
    forall id ensures id in a <==> id in b {
      assert At(a, id) == At(b, id);
    }
    forall id | id in a ensures a[id] == b[id] {
      assert At(a, id) == At(b, id);
    }
  }

  // ------------------------------------------------------------ the last word on each attribute

  /** Record `i` is the last one that upserts or deletes `id`. */
  predicate LastDecision(records: seq<Record>, id: Id, i: int) {
    && 0 <= i < |records| && records[i].Id() == id && !records[i].Patch?
    && forall j | i < j < |records| && records[j].Id() == id :: records[j].Patch?
  }

  /** The record says what the document `id` has under `k`: it upserts the document, or patches `k`. */
  predicate Speaks(r: Record, id: Id, k: string) {
    r.Id() == id && (r.Upsert? || (r.Patch? && k in r.attrs))
  }

  /** Record `i` is the last one that says so. */
  predicate LastWord(records: seq<Record>, id: Id, k: string, i: int) {
    && 0 <= i < |records| && Speaks(records[i], id, k)
    && forall j | i < j < |records| :: !Speaks(records[j], id, k)
  }

  predicate SameAt(a: Attrs, b: Attrs, k: string) {
    (k in a <==> k in b) && (k in a ==> a[k] == b[k])
  }

  /** A document is live exactly if the last record that upserts or deletes it upserts it, or none does and it was;
      its vector is the one it was upserted with. */
  lemma {:induction false} LiveIsLastDecision(live: Live, records: seq<Record>, id: Id)
    ensures forall i | LastDecision(records, id, i) ::
      && (id in Replay(live, records) <==> records[i].Upsert?)
      && (records[i].Upsert? ==> Replay(live, records)[id].vector == records[i].doc.vector)
    ensures (exists i :: LastDecision(records, id, i)) ||
            forall i | 0 <= i < |records| && records[i].Id() == id :: records[i].Patch?
    ensures (forall i | 0 <= i < |records| && records[i].Id() == id :: records[i].Patch?) ==>
      && (id in Replay(live, records) <==> id in live)
      && (id in live ==> Replay(live, records)[id].vector == live[id].vector)
    decreases |records|
  {
    if records != [] {
      var init, last := records[..|records| - 1], records[|records| - 1];
      assert records == init + [last];
      ReplayConcat(live, init, [last]);
      assert Replay(Replay(live, init), [last]) == Apply(Replay(live, init), last) by { assert [last][1..] == []; }
      LiveIsLastDecision(live, init, id);
      forall i | LastDecision(records, id, i) && i < |init| ensures LastDecision(init, id, i) {
      }
      if last.Id() == id && !last.Patch? {
        assert LastDecision(records, id, |init|);
      } else if i :| LastDecision(init, id, i) {
        assert LastDecision(records, id, i);
      }
    }
  }

  /** What a replay leaves under one key of a live document is the last word on it: what the last upsert holds, or
      what a later patch gives it, null removing the key; and what was there before if no record says. */
  lemma {:induction false} AttributeIsLastWord(live: Live, records: seq<Record>, id: Id, k: string)
    requires id in Replay(live, records)
    ensures var attrs := Replay(live, records)[id].attrs;
      && (forall i | LastWord(records, id, k, i) && records[i].Upsert? :: SameAt(attrs, records[i].doc.attrs, k))
      && (forall i | LastWord(records, id, k, i) && records[i].Patch? ::
            if records[i].attrs[k].Null? then k !in attrs else k in attrs && attrs[k] == records[i].attrs[k])
      && ((forall i | 0 <= i < |records| :: !Speaks(records[i], id, k)) ==>
            id in live && SameAt(attrs, live[id].attrs, k))
    decreases |records|
  {
    if records != [] {
      var init, last := records[..|records| - 1], records[|records| - 1];
      assert records == init + [last];
      ReplayConcat(live, init, [last]);
      assert Replay(Replay(live, init), [last]) == Apply(Replay(live, init), last) by { assert [last][1..] == []; }
      if last.Id() == id && last.Upsert? {
        assert Speaks(last, id, k);
      } else {
        AttributeIsLastWord(live, init, id, k);
        forall i | LastWord(records, id, k, i) && i < |init| ensures LastWord(init, id, k, i) {
        }
        assert last.Id() == id && last.Patch? && k in last.attrs ==> Speaks(last, id, k);
      }
    }
  }

  // ------------------------------------------------------------ replaying twice is replaying once

  /** Some record decides `id` outright, whatever was there before. */
  predicate Decides(id: Id, records: seq<Record>) {
    exists i | 0 <= i < |records| :: records[i].Id() == id && !records[i].Patch?
  }

  lemma {:induction false} DecidedForgets(x: Option<Doc>, y: Option<Doc>, id: Id, records: seq<Record>)
    requires Decides(id, records)
    ensures History(x, id, records) == History(y, id, records)
    decreases |records|
  {
    if records[0].Id() != id || records[0].Patch? {
      var i :| 0 <= i < |records| && records[i].Id() == id && !records[i].Patch?;
      assert records[1..][i - 1] == records[i];
      DecidedForgets(Touch(x, id, records[0]), Touch(y, id, records[0]), id, records[1..]);
    }
  }

  /** All patches to `id` folded into one: later keys win, nulls are kept. */
  function NetPatch(id: Id, records: seq<Record>): Attrs {
    if records == [] then map[]
    else if records[0].Patch? && records[0].target == id then
      records[0].attrs + NetPatch(id, records[1..])
    else NetPatch(id, records[1..])
  }

  lemma MergeTwice(attrs: Attrs, p: Attrs, q: Attrs)
    ensures MergeAttrs(MergeAttrs(attrs, p), q) == MergeAttrs(attrs, p + q)
  {
  }

  lemma {:induction false} UndecidedIsOnePatch(x: Option<Doc>, id: Id, records: seq<Record>)
    requires !Decides(id, records)
    ensures History(x, id, records) ==
            if x.None? then None
            else Some(x.value.(attrs := MergeAttrs(x.value.attrs, NetPatch(id, records))))
    decreases |records|
  {
    if records == [] {
      if x.Some? {
        assert MergeAttrs(x.value.attrs, map[]) == x.value.attrs;
      }
    } else {
      var r, rest := records[0], records[1..];
      assert !Decides(id, rest) by {
        forall i | 0 <= i < |rest| ensures !(rest[i].Id() == id && !rest[i].Patch?) {
          assert rest[i] == records[i + 1];
        }
      }
      assert r.Id() == id ==> r.Patch?;
      UndecidedIsOnePatch(Touch(x, id, r), id, rest);
      if x.Some? && r.Id() == id {
        MergeTwice(x.value.attrs, r.attrs, NetPatch(id, rest));
      }
    }
  }

  /** Replaying a batch over its own result changes nothing, for every starting live set and every
      batch: patches on absent documents and null removals included. */
  lemma ReplayTwice(live: Live, records: seq<Record>)
    ensures Replay(Replay(live, records), records) == Replay(live, records)
  {
    forall id ensures At(Replay(Replay(live, records), records), id) == At(Replay(live, records), id) {
      var x, y := At(live, id), History(At(live, id), id, records);
      ReplayAt(live, id, records);
      ReplayAt(Replay(live, records), id, records);
      if Decides(id, records) {
        DecidedForgets(y, x, id, records);
      } else {
        UndecidedIsOnePatch(x, id, records);
        UndecidedIsOnePatch(y, id, records);
        if x.Some? {
          var net := NetPatch(id, records);
          MergeTwice(x.value.attrs, net, net);
          assert net + net == net;
        }
      }
    }
    SameEverywhere(Replay(Replay(live, records), records), Replay(live, records));
  }

  /** Records both folded into a segment and kept in the log behind it are harmless. */
  lemma ReplayOverlap(live: Live, folded: seq<Record>, later: seq<Record>)
    ensures Replay(Replay(live, folded), folded + later) == Replay(live, folded + later)
  {
    ReplayConcat(Replay(live, folded), folded, later);
    ReplayTwice(live, folded);
    ReplayConcat(live, folded, later);
  }

  // ------------------------------------------------------------ ids in order

  function IdRank(id: Id): nat {
    match id
    case UintId(_) => 0
    case UuidId(_) => 1
    case StringId(_) => 2
  }

  /** The derived order of the source's enum: by variant, then by payload. */
  function CmpId(a: Id, b: Id): Ordering {
    match (a, b)
    case (UintId(x), UintId(y)) => CmpInt(x, y)
    case (UuidId(x), UuidId(y)) => Lex<int>(x, y, CmpInt)
    case (StringId(x), StringId(y)) => CmpString(x, y)
    case _ => CmpInt(IdRank(a), IdRank(b))
  }

  lemma IdOrder()
    ensures IsOrder(CmpId)
  {
    StringOrder();
    forall a: Id, b: Id ensures (CmpId(a, b) == Equal <==> a == b) && CmpId(b, a) == CmpId(a, b).Flip() {
      match (a, b)
      case (UuidId(x), UuidId(y)) => LexEqual<int>(x, y, CmpInt); LexFlip<int>(x, y, CmpInt);
      case (StringId(x), StringId(y)) => LexEqual(x, y, CmpChar); LexFlip(x, y, CmpChar);
      case _ =>
    }
    forall a: Id, b: Id, c: Id | CmpId(a, b) == Less && CmpId(b, c) == Less ensures CmpId(a, c) == Less {
      match (a, b, c)
      case (UuidId(x), UuidId(y), UuidId(z)) => LexTransitive<int>(x, y, z, CmpInt);
      case (StringId(x), StringId(y), StringId(z)) => LexTransitive(x, y, z, CmpChar);
      case _ =>
    }
  }

  predicate IdLess(a: Id, b: Id) { CmpId(a, b) == Less }

  /** Numbers before uuids before text; numbers by size, the others in dictionary order. */
  lemma IdLessMeans(a: Id, b: Id)
    ensures IdLess(a, b) <==>
            || (a.UintId? && !b.UintId?) || (a.UuidId? && b.StringId?)
            || (a.UintId? && b.UintId? && a.u < b.u)
            || (a.UuidId? && b.UuidId? && ComesBefore<int>(a.id, b.id, INT_LESS))
            || (a.StringId? && b.StringId? && StringBefore(a.s, b.s))
  {
    hide ComesBefore, Lex;
    match (a, b)
    case (UuidId(x), UuidId(y)) => LexIsDictionary<int>(x, y, CmpInt, INT_LESS);
    case (StringId(x), StringId(y)) => LexIsDictionary(x, y, CmpChar, CHAR_LESS);
    case _ =>
  }

  lemma IdLessTotal(a: Id, b: Id)
    ensures a == b || IdLess(a, b) || IdLess(b, a)
    ensures !(IdLess(a, b) && IdLess(b, a)) && !IdLess(a, a)
  {
    IdOrder();
    assert CmpId(b, a) == CmpId(a, b).Flip();
  }

  lemma IdLessTransitive(a: Id, b: Id, c: Id)
    requires IdLess(a, b) && IdLess(b, c)
    ensures IdLess(a, c)
  {
    IdOrder();
  }

  predicate LeastId(m: Id, ids: set<Id>) {
    m in ids && forall x | x in ids && x != m :: IdLess(m, x)
  }

  lemma {:induction false} LeastIdExists(ids: set<Id>)
    requires ids != {}
    ensures exists m :: LeastId(m, ids)
    decreases |ids|
  {
    var a :| a in ids;
    var rest := ids - {a};
    if rest == {} {
      assert forall x | x in ids :: x == a || x in rest;
      assert LeastId(a, ids);
    } else {
      LeastIdExists(rest);
      var m :| LeastId(m, rest);
      IdLessTotal(a, m);
      var least := if IdLess(a, m) then a else m;
      forall x | x in ids && x != least ensures IdLess(least, x) {
        if least == a && x != m {
          IdLessTransitive(a, m, x);
        }
      }
      assert LeastId(least, ids);
    }
  }

  lemma LeastIdUnique(ids: set<Id>)
    ensures forall a, b | LeastId(a, ids) && LeastId(b, ids) :: a == b
  {
    forall a, b | LeastId(a, ids) && LeastId(b, ids) ensures a == b {
      IdLessTotal(a, b);
    }
  }

  ghost predicate Ascending(ids: seq<Id>) {
    forall i, j | 0 <= i < j < |ids| :: IdLess(ids[i], ids[j])
  }

  /** The members of `ids`, each once, ascending: the order compaction writes documents in. */
  function SortedIds(ids: set<Id>): (r: seq<Id>)
    ensures |r| == |ids|
    ensures forall x :: x in r <==> x in ids
    ensures Ascending(r)
  {
    if ids == {} then []
    else
      LeastIdExists(ids);
      LeastIdUnique(ids);
      var m :| m in ids && LeastId(m, ids);
      [m] + SortedIds(ids - {m})
  }

  lemma AscendingDistinct(ids: seq<Id>)
    requires Ascending(ids)
    ensures forall i, j | 0 <= i < j < |ids| :: ids[i] != ids[j]
  {
    forall i, j | 0 <= i < j < |ids| ensures ids[i] != ids[j] {
      IdLessTotal(ids[i], ids[j]);
    }
  }

  /** One upsert per id, in the order given. */
  function UpsertsOf(live: Live, ids: seq<Id>): (r: seq<Record>)
    requires forall id | id in ids :: id in live
    ensures |r| == |ids|
    ensures forall i | 0 <= i < |r| :: r[i] == Upsert(live[ids[i]])
  {
    seq(|ids|, i requires 0 <= i < |ids| => Upsert(live[ids[i]]))
  }

  lemma {:induction false} UpsertsRestore(base: Live, live: Live, ids: seq<Id>, id: Id)
    requires Keyed(live) && forall x | x in ids :: x in live
    ensures At(Replay(base, UpsertsOf(live, ids)), id) == if id in ids then At(live, id) else At(base, id)
    decreases |ids|
  {
    if ids != [] {
      var rs := UpsertsOf(live, ids);
      assert rs[0] == Upsert(live[ids[0]]);
      assert rs[1..] == UpsertsOf(live, ids[1..]);
      UpsertsRestore(Apply(base, rs[0]), live, ids[1..], id);
    }
  }

  // ------------------------------------------------------------ shards

  /** The shard of a document; `hash` stands for the persisted hash of the id. */
  function ShardOf(hash: Id -> nat, id: Id, shards: nat): nat {
    if shards <= 1 then 0 else hash(id) % shards
  }

  lemma ShardInRange(hash: Id -> nat, id: Id, shards: nat)
    requires shards >= 1
    ensures ShardOf(hash, id, shards) < shards
  {
  }

  /** The part of a live set that belongs to one shard. */
  function ShardPart(hash: Id -> nat, live: Live, shards: nat, number: nat): Live {
    map id | id in live && ShardOf(hash, id, shards) == number :: live[id]
  }

  /** The records of a tail that belong to one shard, in order. */
  function Slice(hash: Id -> nat, records: seq<Record>, shards: nat, number: nat): seq<Record> {
    if records == [] then []
    else
      var rest := Slice(hash, records[1..], shards, number);
      if ShardOf(hash, records[0].Id(), shards) == number then [records[0]] + rest else rest
  }

  /** The segment of one shard: its documents, ascending by id. */
  function Bucket(hash: Id -> nat, live: Live, shards: nat, number: nat): seq<Record> {
    UpsertsOf(live, SortedIds(ShardPart(hash, live, shards, number).Keys))
  }

  /** The first `count` segments back to back. */
  function Buckets(hash: Id -> nat, live: Live, shards: nat, count: nat): seq<Record> {
    if count == 0 then [] else Buckets(hash, live, shards, count - 1) + Bucket(hash, live, shards, count - 1)
  }

  lemma BucketAdds(hash: Id -> nat, base: Live, live: Live, shards: nat, number: nat, id: Id)
    requires Keyed(live)
    ensures At(Replay(base, Bucket(hash, live, shards, number)), id) ==
            if id in live && ShardOf(hash, id, shards) == number then At(live, id) else At(base, id)
  {
    hide Replay, Ascending;
    var part := ShardPart(hash, live, shards, number);
    UpsertsRestore(base, live, SortedIds(part.Keys), id);
    assert id in part <==> id in live && ShardOf(hash, id, shards) == number;
  }

  lemma {:induction false} BucketsRestore(hash: Id -> nat, live: Live, shards: nat, count: nat, id: Id)
    requires Keyed(live)
    ensures At(Replay(map[], Buckets(hash, live, shards, count)), id) ==
            if id in live && ShardOf(hash, id, shards) < count then At(live, id) else None
    decreases count
  {
    hide Bucket, ShardOf;
    if count > 0 {
      var before := Buckets(hash, live, shards, count - 1);
      BucketsRestore(hash, live, shards, count - 1, id);
      ReplayConcat(map[], before, Bucket(hash, live, shards, count - 1));
      BucketAdds(hash, Replay(map[], before), live, shards, count - 1, id);
    }
  }

  /** Splitting a live set into shard segments and reading them all back is the identity. */
  lemma BucketsMaterialize(hash: Id -> nat, live: Live, shards: nat)
    requires Keyed(live) && shards >= 1
    ensures Replay(map[], Buckets(hash, live, shards, shards)) == live
  {
    forall id ensures At(Replay(map[], Buckets(hash, live, shards, shards)), id) == At(live, id) {
      BucketsRestore(hash, live, shards, shards, id);
      ShardInRange(hash, id, shards);
    }
    SameEverywhere(Replay(map[], Buckets(hash, live, shards, shards)), live);
  }

  lemma {:induction false} SliceHistory(hash: Id -> nat, doc: Option<Doc>, id: Id, records: seq<Record>, shards: nat,
                                        number: nat)
    ensures History(doc, id, Slice(hash, records, shards, number)) ==
            if ShardOf(hash, id, shards) == number then History(doc, id, records) else doc
    decreases |records|
  {
    if records != [] {
      var rest := Slice(hash, records[1..], shards, number);
      var next := Touch(doc, id, records[0]);
      SliceHistory(hash, next, id, records[1..], shards, number);
      SliceHistory(hash, doc, id, records[1..], shards, number);
      if ShardOf(hash, records[0].Id(), shards) == number {
        assert ([records[0]] + rest)[1..] == rest;
      }
    }
  }

  /** Replaying one shard's slice of the tail over its part of the segments gives exactly its part
      of the whole live set: the shards partition the answer. */
  lemma ShardPartReplays(hash: Id -> nat, live: Live, tail: seq<Record>, shards: nat, number: nat)
    ensures Replay(ShardPart(hash, live, shards, number), Slice(hash, tail, shards, number)) ==
            ShardPart(hash, Replay(live, tail), shards, number)
  {
    var part, slice := ShardPart(hash, live, shards, number), Slice(hash, tail, shards, number);
    forall id ensures At(Replay(part, slice), id) == At(ShardPart(hash, Replay(live, tail), shards, number), id) {
      ReplayAt(part, id, slice);
      ReplayAt(live, id, tail);
      SliceHistory(hash, At(part, id), id, tail, shards, number);
    }
    SameEverywhere(Replay(part, slice), ShardPart(hash, Replay(live, tail), shards, number));
  }

  // ------------------------------------------------------------ the live set, updated in place

  /** The map that compaction and the query overlay mutate record by record. */
  class LiveSet {
    var docs: Live

    constructor ()
      ensures docs == map[]
    {
      docs := map[];
    }

    constructor From(live: Live)
      ensures docs == live
    {
      docs := live;
    }

    /** One record, attribute by attribute, on the stored document. */
    method Mutate(r: Record)
      modifies this
      ensures docs == Apply(old(docs), r)
    {
      match r
      case Upsert(d) => docs := docs[d.id := d];
      case Delete(id) => docs := docs - {id};
      case Patch(id, attrs) =>
        if id in docs {
          var todo := attrs.Keys;
          assert MergeAttrs(docs[id].attrs, attrs - todo) == docs[id].attrs;
          while todo != {}
            invariant todo <= attrs.Keys && docs.Keys == old(docs).Keys
            invariant docs == old(docs)[id := old(docs)[id].(attrs :=
              MergeAttrs(old(docs)[id].attrs, attrs - todo))]
            decreases todo
          {
            var k :| k in todo;
            todo := todo - {k};
            var doc := docs[id];
            var next := if attrs[k].Null? then doc.attrs - {k} else doc.attrs[k := attrs[k]];
            assert next == MergeAttrs(old(docs)[id].attrs, attrs - todo);
            docs := docs[id := doc.(attrs := next)];
          }
          assert attrs - {} == attrs;
        }
    }

    method MutateAll(records: seq<Record>)
      modifies this
      ensures docs == Replay(old(docs), records)
    {
      for i := 0 to |records|
        invariant Replay(docs, records[i..]) == Replay(old(docs), records)
      {
        assert records[i..][0] == records[i] && records[i..][1..] == records[i + 1..];
        Mutate(records[i]);
      }
    }
  }
}
