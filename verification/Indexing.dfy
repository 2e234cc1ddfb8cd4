/** When an indexing compaction cannot succeed: which shards of a reachable state have vectors that cannot be
    clustered together (src/doc.rs, src/index.rs, src/store.rs). */
module Indexing {
  import opened Wrappers
  import opened Values
  import opened Records
  import opened Schemas
  import opened Protocol
  import opened Safety
  import opened Runs
  import opened Typing
  import opened Segments
  import opened Overlap
  import opened Truncation
  import opened Maintenance

  /** One shard holds both a document without a vector and one with. */
  ghost predicate Mixed(hash: Id -> nat, live: Live, shards: nat, number: nat) {
    exists x, y :: MixedPair(hash, live, shards, number, x, y)
  }

  predicate MixedPair(hash: Id -> nat, live: Live, shards: nat, number: nat, x: Id, y: Id) {
    && x in live && y in live && ShardOf(hash, x, shards) == ShardOf(hash, y, shards) == number
    && live[x].vector == [] && live[y].vector != []
  }

  /** The documents of a bucket are the live documents of its shard. */
  lemma BucketHas(hash: Id -> nat, live: Live, shards: nat, number: nat, d: Doc)
    requires Keyed(live)
    ensures d in DocsIn(Records.Bucket(hash, live, shards, number)) <==>
            d.id in live && live[d.id] == d && ShardOf(hash, d.id, shards) == number
  {
    var part := ShardPart(hash, live, shards, number);
    var ids := SortedIds(part.Keys);
    var docs := seq(|ids|, i requires 0 <= i < |ids| => (assert ids[i] in ids; part[ids[i]]));
    assert Records.Bucket(hash, live, shards, number) == Upserts(docs) by {
      forall i | 0 <= i < |ids| ensures Upserts(docs)[i] == UpsertsOf(live, ids)[i] {
        assert ids[i] in ids;
      }
    }
    DocsOfUpserts(docs);
    if d.id in live && live[d.id] == d && ShardOf(hash, d.id, shards) == number {
      assert d.id in part.Keys;
      assert d.id in ids;
      var i :| 0 <= i < |ids| && ids[i] == d.id;
      assert docs[i] == d;
    }
    if d in docs {
      var i :| 0 <= i < |docs| && docs[i] == d;
      assert ids[i] in ids;
    }
  }

  /** Of typed documents the only vectors of different lengths are none at all and one of the namespace's. */
  lemma TypedUneven(schema: Schema, docs: seq<Doc>)
    requires forall d | d in docs :: TypedVector(schema, d.vector)
    ensures Uneven(docs) <==> exists x, y :: x in docs && y in docs && x.vector == [] && y.vector != []
  {
    if Uneven(docs) {
      var i :| 0 <= i < |docs| && |docs[i].vector| != |docs[0].vector|;
      assert docs[i] in docs && docs[0] in docs;
      if docs[i].vector == [] {
        assert docs[0].vector != [];
      } else {
        assert docs[0].vector == [];
      }
    }
    if x, y :| x in docs && y in docs && x.vector == [] && y.vector != [] {
      var i :| 0 <= i < |docs| && docs[i] == x;
      var j :| 0 <= j < |docs| && docs[j] == y;
      assert |docs[i].vector| != |docs[0].vector| || |docs[j].vector| != |docs[0].vector|;
    }
  }

  lemma BucketUneven(hash: Id -> nat, schema: Schema, live: Live, shards: nat, number: nat)
    requires Keyed(live) && TypedLive(schema, live)
    ensures Uneven(DocsIn(Records.Bucket(hash, live, shards, number))) <==> Mixed(hash, live, shards, number)
  {
    hide Records.Bucket, DocsIn, Uneven, ShardOf;
    var docs := DocsIn(Records.Bucket(hash, live, shards, number));
    forall d ensures d in docs <==> d.id in live && live[d.id] == d && ShardOf(hash, d.id, shards) == number {
      BucketHas(hash, live, shards, number, d);
    }
    forall d | d in docs ensures TypedVector(schema, d.vector) {
      assert TypedDoc(schema, live[d.id]);
    }
    TypedUneven(schema, docs);
    if x, y :| x in docs && y in docs && x.vector == [] && y.vector != [] {
      assert MixedPair(hash, live, shards, number, x.id, y.id);
    }
    if x, y :| MixedPair(hash, live, shards, number, x, y) {
      assert live[x] in docs && live[y] in docs;
    }
  }

  /** In every reachable state an indexing job is bound to be refused if and only if, among the documents it read,
      some shard holds one without a vector beside one with. */
  lemma RefusedExactly(p: Params, events: seq<Event>, a: Actor)
    requires GuardedRun(p, INIT, events)
    requires a in Run(p, INIT, events).actors && Run(p, INIT, events).actors[a].CompactBuilding?
    ensures var job := Run(p, INIT, events).actors[a].job;
      CannotIndex(p, job) <==>
      job.build && exists number :: 0 <= number < job.base.schema.Shards() &&
                                    Mixed(p.hash, job.live, job.base.schema.Shards(), number)
  {
    hide Inv, Run, GuardedRun, TypedLive, Mixed, Uneven, DocsIn, Records.Bucket;
    var s := Run(p, INIT, events);
    var job := s.actors[a].job;
    JobIsTyped(p, events, a);
    forall number: nat
      ensures UnevenBucket(p, job, number) <==> Mixed(p.hash, job.live, job.base.schema.Shards(), number)
    {
      BucketUneven(p.hash, HeadSchema(s), job.live, job.base.schema.Shards(), number);
    }
  }

  lemma JobIsTyped(p: Params, events: seq<Event>, a: Actor)
    requires GuardedRun(p, INIT, events)
    requires a in Run(p, INIT, events).actors && Run(p, INIT, events).actors[a].CompactBuilding?
    ensures var s := Run(p, INIT, events);
      Keyed(s.actors[a].job.live) && TypedLive(HeadSchema(s), s.actors[a].job.live)
  {
    hide Inv, Step, Run, GuardedRun, Truth, TypedLive, TypedBatch, Shape, JobOk;
    var s := Run(p, INIT, events);
    InitInv(p);
    RunKeeps(p, INIT, events);
    PhaseFact(p, s, a);
    StoredDataIsTyped(p, events);
    JobReads(p, s, a, s.actors[a].job);
    PrefixIsTyped(HeadSchema(s), s.log, s.actors[a].job.upTo);
  }

  lemma JobReads(p: Params, s: State, a: Actor, job: Job)
    requires JobOk(p, s, a, job)
    ensures job.upTo <= |s.log| && job.live == Truth(s.log[..job.upTo])
  {
    hide BaseOk, Truth;
  }

  /** What the first commits mean is typed if all commits are. */
  lemma PrefixIsTyped(schema: Schema, log: seq<Commit>, n: nat)
    requires n <= |log| && TypedBatch(schema, Flat(log))
    ensures TypedLive(schema, Truth(log[..n])) && Keyed(Truth(log[..n]))
  {
    hide Flat, TypedLive, TypedBatch;
    var front, rest := log[..n], log[n..];
    assert front + rest == log;
    FlatConcat(front, rest);
    TypedFront(schema, Flat(front), Flat(rest));
    NothingTyped(schema);
    ReplayTyped(schema, map[], Flat(front));
    ReplayKeyed(map[], Flat(front));
  }

  lemma TypedFront(schema: Schema, front: seq<Record>, rest: seq<Record>)
    requires TypedBatch(schema, front + rest)
    ensures TypedBatch(schema, front)
  {
    forall i | 0 <= i < |front| ensures TypedRecord(schema, front[i]) {
      assert (front + rest)[i] == front[i];
    }
  }

  lemma NothingTyped(schema: Schema)
    ensures TypedLive(schema, map[])
  {
  }

  // ------------------------------------------------------------ it happens

  const VECTOR_ID: Id := UintId(9)
  const VECTOR_DOC: Doc := Doc(VECTOR_ID, [0], map[])
  const VECTOR_SCHEMA: Schema := EMPTY_SCHEMA.(idType := Some(IdUint), dim := Some(1))
  const MIXED_LIVE: Live := map[THE_ID := THE_DOC, VECTOR_ID := VECTOR_DOC]

  lemma VectorPrepares(p: Params, head: Option<Versioned>)
    requires head.Some? && head.value.manifest.schema == PlainSchema()
    ensures PrepareCall(p, head, NextCall(Upsert(VECTOR_DOC))) == Ok((VECTOR_SCHEMA, [Upsert(VECTOR_DOC)]))
  {
    var s, r := PlainSchema(), Upsert(VECTOR_DOC);
    DeclaresShards(s, None, head.value.manifest.HasData());
    assert EMPTY_CONFIG.(numShards := None) == EMPTY_CONFIG;
    assert Coerced(p.host, map[], map[]) == map[] && Inferred(s.attributes, map[]) == s.attributes;
    assert IsFinite(0);
    assert AbsorbRecord(p.host, s, r) == Ok((VECTOR_SCHEMA, r));
    assert [r][1..] == [] && [r] + [] == [r];
    assert Absorb(p.host, VECTOR_SCHEMA, [r][1..]) == Ok((VECTOR_SCHEMA, []));
  }

  /** A document without a vector, then the first one with. */
  lemma TwoWrites(p: Params) returns (events: seq<Event>, s: State)
    ensures NoCompactCas(events) && s == Run(p, INIT, events) && 4 !in s.actors && UpToDate(s) && 0 in s.snapshots
    ensures var m := ManifestOf(s.head);
      && s.head.Some? && m.shards == [] && m.schema == VECTOR_SCHEMA && WalNames(m.wal) == [1, 3]
    ensures 1 in s.objects && s.objects[1].records == [Upsert(THE_DOC)]
    ensures 3 in s.objects && s.objects[3].records == [Upsert(VECTOR_DOC)]
    ensures s.log == [Commit(1, 1, [Upsert(THE_DOC)]), Commit(3, 3, [Upsert(VECTOR_DOC)])]
  {
    hide Step, PrepareCall, Run, Absorb;
    var first, second := NextCall(Upsert(THE_DOC)), NextCall(Upsert(VECTOR_DOC));
    PlainPrepares(p, None, Upsert(THE_DOC));
    var s1 := WriteRun(p, INIT, 1, first, 1, 1, PlainSchema(), [Upsert(THE_DOC)]);
    VectorPrepares(p, s1.head);
    s := WriteRun(p, s1, 3, second, 3, 3, VECTOR_SCHEMA, [Upsert(VECTOR_DOC)]);
    events := WriteEvents(1, first, 1, 1) + WriteEvents(3, second, 3, 3);
    RunConcat(p, INIT, WriteEvents(1, first, 1, 1), WriteEvents(3, second, 3, 3));
  }

  lemma MixedReads(s: State)
    requires s.log == [Commit(1, 1, [Upsert(THE_DOC)]), Commit(3, 3, [Upsert(VECTOR_DOC)])]
    requires ManifestOf(s.head).shards == [] && WalNames(ManifestOf(s.head).wal) == [1, 3]
    requires 1 in s.objects && s.objects[1].records == [Upsert(THE_DOC)]
    requires 3 in s.objects && s.objects[3].records == [Upsert(VECTOR_DOC)]
    ensures Truth(s.log) == MIXED_LIVE && LiveOf(s.objects, ManifestOf(s.head)) == MIXED_LIVE
    ensures var m := ManifestOf(s.head); Holds(s.objects, SegmentNames(m.shards)) && Holds(s.objects, WalNames(m.wal))
  {
    hide Replay, Flat, LiveOf;
    var a, b := Commit(1, 1, [Upsert(THE_DOC)]), Commit(3, 3, [Upsert(VECTOR_DOC)]);
    OneFlat(a);
    OneFlat(b);
    FlatConcat([a], [b]);
    assert s.log == [a] + [b];
    EmptyBaseReads(s.objects, ManifestOf(s.head), 0, [1, 3]);
    ReadsTo(s.objects, ManifestOf(s.head), [Upsert(THE_DOC)] + [Upsert(VECTOR_DOC)]);
    ReplayOne(map[], Upsert(THE_DOC));
    ReplayOne(map[THE_ID := THE_DOC], Upsert(VECTOR_DOC));
    ReplayConcat(map[], [Upsert(THE_DOC)], [Upsert(VECTOR_DOC)]);
    TruthOf(s.log, [Upsert(THE_DOC)] + [Upsert(VECTOR_DOC)]);
  }

  lemma IndexingBegins(p: Params, s: State) returns (t: State)
    requires 4 !in s.actors && s.head.Some? && ManifestOf(s.head).shards == []
    requires var m := ManifestOf(s.head); Holds(s.objects, SegmentNames(m.shards)) && Holds(s.objects, WalNames(m.wal))
    ensures t == Run(p, s, [BeginCompact(4, 0, true), CompactRead(4)]) && t.log == s.log
    ensures 4 in t.actors && t.actors[4].CompactBuilding?
    ensures var job := t.actors[4].job;
      job.build && job.live == LiveOf(s.objects, ManifestOf(s.head)) && job.base == ManifestOf(s.head)
  {
    hide LiveOf, Holds;
    RunTwo(p, s, BeginCompact(4, 0, true), CompactRead(4));
    t := DoCompactRead(DoBeginCompact(s, 4, 0, true), 4);
  }

  /** A document without a vector, written before the first one with: an indexing compaction of their shard is
      refused, and will be as long as both are live. */
  lemma MixedStops(p: Params) returns (events: seq<Event>, s: State)
    ensures GuardedRun(p, INIT, events) && s == Run(p, INIT, events) && Truth(s.log) == MIXED_LIVE
    ensures 4 in s.actors && s.actors[4].CompactBuilding? && s.actors[4].job.live == MIXED_LIVE
    ensures CannotIndex(p, s.actors[4].job)
  {
    hide Step, Run, GuardedRun, LiveOf, Replay, Flat, Holds, CannotIndex, Mixed;
    var e1, s1 := TwoWrites(p);
    MixedReads(s1);
    s := IndexingBegins(p, s1);
    var e2 := [BeginCompact(4, 0, true), CompactRead(4)];
    events := e1 + e2;
    RunConcat(p, INIT, e1, e2);
    PlainIsGuarded(p, INIT, events);
    MixedLive(p);
    assert s.actors[4].job.base.schema.Shards() == 1;
    RefusedExactly(p, events, 4);
  }

  lemma MixedLive(p: Params)
    ensures Mixed(p.hash, MIXED_LIVE, 1, 0)
  {
    assert MixedPair(p.hash, MIXED_LIVE, 1, 0, THE_ID, VECTOR_ID);
  }
}
