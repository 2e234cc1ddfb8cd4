/** Aggregation over the states the protocol reaches: exact when the shard list has its proper length, and a
    reachable state where it is not (src/store.rs). */
module Totals {
  import opened Wrappers
  import opened Values
  import opened Records
  import opened Schemas
  import opened Protocol
  import opened Safety
  import opened Runs
  import opened Typing
  import opened Reads
  import opened Ranking
  import opened Overlap
  import opened Layout
  import opened Aggregates
  import opened Groups
  import Filters

  /** Minima and maxima of attributes that are not sparse vectors can be asked of whatever is stored. */
  lemma TypedIsAskable(schema: Schema, live: Live, q: Request)
    requires TypedLive(schema, live)
    requires forall l | l in q.aggs && (q.aggs[l].Min? || q.aggs[l].Max?) :: q.aggs[l].attr in schema.attributes ==>
      Ordered(schema.attributes[q.aggs[l].attr])
    ensures AllAskable(q, live)
  {
    forall l | l in q.aggs ensures Askable(q.aggs[l], live) {
      var agg := q.aggs[l];
      if agg.Min? || agg.Max? {
        var ty := if agg.attr in schema.attributes then schema.attributes[agg.attr] else TBool;
        forall id | id in live ensures Fits(Filters.Attribute(live[id].attrs, agg.attr), ty) {
          assert TypedDoc(schema, live[id]);
        }
        assert Ordered(ty);
      }
    }
  }

  /** Whatever is stored can be grouped by: a declared attribute has its type, any other is null. */
  lemma TypedIsGroupable(schema: Schema, live: Live, groupBy: seq<GroupKey>)
    requires TypedLive(schema, live)
    ensures Groupable(groupBy, live)
  {
    forall i | 0 <= i < |groupBy| ensures OneType(live, groupBy[i].attr) {
      var attr := groupBy[i].attr;
      var ty := if attr in schema.attributes then schema.attributes[attr] else TBool;
      forall id | id in live ensures Fits(Filters.Attribute(live[id].attrs, attr), ty) {
        assert TypedDoc(schema, live[id]);
      }
      assert AllFit(live, attr, ty);
    }
  }

  /** In every reachable state whose shard list is empty or as long as the schema says, the streamed
      aggregation is the aggregation of the accepted documents of the fold of the log. */
  method AggregateNamespace(p: Params, ghost events: seq<Event>, s: State, q: Request, accepts: Doc -> bool)
    returns (ok: bool, all: map<string, Final>, rows: map<Key, map<string, Final>>)
    requires GuardedRun(p, INIT, events) && s == Run(p, INIT, events)
    requires var m := ManifestOf(s.head); m.shards == [] || |m.shards| == m.schema.Shards()
    requires forall l | l in q.aggs && (q.aggs[l].Min? || q.aggs[l].Max?) ::
      q.aggs[l].attr in HeadSchema(s).attributes ==> Ordered(HeadSchema(s).attributes[q.aggs[l].attr])
    ensures ok ==> AnswersFor(q, Matching(accepts, Truth(s.log)), all, rows)
    ensures ok <==> NoneRefused(q, accepts, Truth(s.log))
  {
    hide Inv, Run, GuardedRun, AllLaid, Typed, AnswersFor, Sharded, LaidOut, Backed, Truth, Refused, AllAskable,
        Groupable, Fed, TypedBatch;
    var m := ManifestOf(s.head);
    RankFacts(p, events, s);
    StoredDataIsTyped(p, events);
    TypedIsAskable(HeadSchema(s), Truth(s.log), q);
    TypedIsGroupable(HeadSchema(s), Truth(s.log), q.groupBy);
    var parts: seq<Live> := [];
    for i := 0 to |m.shards|
      invariant |parts| == i && forall j | 0 <= j < i :: parts[j] == ShardLives(s, m.shards)[j]
    {
      var live := new LiveSet();
      live.MutateAll(ReadObjects(s.stored, m.shards[i].segments));
      parts := parts + [live.docs];
    }
    assert parts == ShardLives(s, m.shards);
    forall i | 0 <= i < |parts| ensures Keyed(parts[i]) {
      ReplayKeyed(map[], ReadObjects(s.stored, m.shards[i].segments));
    }
    var tail := ReadObjects(s.stored, WalNames(m.wal));
    FedIsWhole(p.hash, SegmentLive(s, m), parts, m.schema.Shards(), tail);
    ok, all, rows := AggregateShards(q, p.hash, parts, m.schema.Shards(), tail, accepts, SegmentLive(s, m));
  }

  // ------------------------------------------------------------ one shard under a schema that names more

  /** In a reachable state with one resident shard, aggregation reaches exactly the replay of the log if and only if
      the tail's records for the schema's other shards change nothing. */
  lemma OneShardReaches(p: Params, events: seq<Event>, s: State)
    requires GuardedRun(p, INIT, events) && s == Run(p, INIT, events) && |ManifestOf(s.head).shards| == 1
    ensures var m := ManifestOf(s.head); var tail := ReadObjects(s.stored, WalNames(m.wal));
      Reached(p.hash, SegmentLive(s, m), ShardLives(s, m.shards), m.schema.Shards(), tail) == Truth(s.log) <==>
      Replay(SegmentLive(s, m), Elsewhere(p.hash, tail, m.schema.Shards())) == SegmentLive(s, m)
  {
    hide Inv, Run, GuardedRun, LaidOut, Truth, Fed, Replay, ReadObjects, Elsewhere;
    var m := ManifestOf(s.head);
    RankFacts(p, events, s);
    OneShardUndercounts(p.hash, SegmentLive(s, m), m.schema.Shards(), ReadObjects(s.stored, WalNames(m.wal)));
  }

  function LateCall(shards: nat): Call {
    Call(0, [Upsert(THE_DOC)], EMPTY_CONFIG.(numShards := Some(shards)))
  }

  const EARLY: seq<Event> :=
      [BeginCompact(1, 0, false), CompactRead(1), CompactPut(1, 0, []), CompactReload(1), CompactCas(1, 1),
      CasReply(1, false)]

  function EarlyJob(built: seq<Shard>): Job {
    Job(0, false, EMPTY_MANIFEST, 1, map[], 0, built, None, 1)
  }

  function EarlyAt(phase: Phase): State {
    INIT.(actors := map[1 := phase])
  }

  lemma EarlyBegins()
    ensures DoBeginCompact(INIT, 1, 0, false) == EarlyAt(CompactBased(0, false, EMPTY_MANIFEST, 1))
    ensures DoCompactRead(EarlyAt(CompactBased(0, false, EMPTY_MANIFEST, 1)), 1) ==
      EarlyAt(CompactBuilding(EarlyJob([])))
  {
    var s1 := EarlyAt(CompactBased(0, false, EMPTY_MANIFEST, 1));
    assert DoBeginCompact(INIT, 1, 0, false).actors == s1.actors;
    assert LiveOf(s1.objects, EMPTY_MANIFEST) == map[];
    assert DoCompactRead(s1, 1).actors == EarlyAt(CompactBuilding(EarlyJob([]))).actors;
  }

  lemma EarlyBuilds(p: Params)
    ensures DoCompactPut(p, EarlyAt(CompactBuilding(EarlyJob([]))), 1, 0, []) ==
      EarlyAt(CompactBuilding(EarlyJob([EMPTY_SHARD])))
    ensures DoCompactReload(EarlyAt(CompactBuilding(EarlyJob([EMPTY_SHARD]))), 1) ==
      EarlyAt(CompactReloaded(EarlyJob([EMPTY_SHARD]), None))
  {
    var s2, s3 := EarlyAt(CompactBuilding(EarlyJob([]))), EarlyAt(CompactBuilding(EarlyJob([EMPTY_SHARD])));
    OneEmptyPut(p, s2, 1, 0, EarlyJob([]));
    assert EarlyJob([]).(built := [] + [EMPTY_SHARD]) == EarlyJob([EMPTY_SHARD]);
    assert s2.actors[1 := CompactBuilding(EarlyJob([EMPTY_SHARD]))] == s3.actors;
    assert DoCompactReload(s3, 1).actors == EarlyAt(CompactReloaded(EarlyJob([EMPTY_SHARD]), None)).actors;
  }

  lemma EarlyCommits(p: Params) returns (s: State)
    ensures s == DoCasReply(DoCompactCas(p, EarlyAt(CompactReloaded(EarlyJob([EMPTY_SHARD]), None)), 1, 1), 1, false)
    ensures s.head == Some(Versioned(EMPTY_MANIFEST.(shards := [EMPTY_SHARD]), 1)) && UpToDate(s)
    ensures 2 !in s.actors && s.stored == s.objects == map[] && s.seen.Keys == {1} && s.log == []
  {
    assert Folded(EMPTY_MANIFEST, EarlyJob([EMPTY_SHARD])) == EMPTY_MANIFEST.(shards := [EMPTY_SHARD]);
    s := DoCasReply(DoCompactCas(p, EarlyAt(CompactReloaded(EarlyJob([EMPTY_SHARD]), None)), 1, 1), 1, false);
  }

  /** A namespace compacted before its first write keeps a single, empty shard. */
  lemma EarlyCompaction(p: Params) returns (s: State)
    ensures s == Run(p, INIT, EARLY) && GuardedRun(p, INIT, EARLY)
    ensures s.head == Some(Versioned(EMPTY_MANIFEST.(shards := [EMPTY_SHARD]), 1)) && UpToDate(s)
    ensures 2 !in s.actors && s.stored == s.objects == map[] && s.seen.Keys == {1} && s.log == []
  {
    hide Run, GuardedRun, UpToDate, EarlyAt, DoCompactCas, DoCasReply;
    s := EarlyCommits(p);
    EarlyRuns(p);
    var s2, s4 := EarlyAt(CompactBuilding(EarlyJob([]))), EarlyAt(CompactReloaded(EarlyJob([EMPTY_SHARD]), None));
    assert EARLY == BEGIN + (BUILD + COMMIT);
    RunConcat(p, s2, BUILD, COMMIT);
    RunConcat(p, INIT, BEGIN, BUILD + COMMIT);
    PlainIsGuarded(p, INIT, BEGIN);
    PlainIsGuarded(p, s2, BUILD);
    CasIsGuarded(p);
    GuardedConcat(p, s2, BUILD, COMMIT);
    GuardedConcat(p, INIT, BEGIN, BUILD + COMMIT);
  }

  const BEGIN: seq<Event> := [BeginCompact(1, 0, false), CompactRead(1)]
  const BUILD: seq<Event> := [CompactPut(1, 0, []), CompactReload(1)]
  const COMMIT: seq<Event> := [CompactCas(1, 1), CasReply(1, false)]

  lemma EarlyRuns(p: Params)
    ensures Run(p, INIT, BEGIN) == EarlyAt(CompactBuilding(EarlyJob([])))
    ensures Run(p, EarlyAt(CompactBuilding(EarlyJob([]))), BUILD) ==
      EarlyAt(CompactReloaded(EarlyJob([EMPTY_SHARD]), None))
    ensures Run(p, EarlyAt(CompactReloaded(EarlyJob([EMPTY_SHARD]), None)), COMMIT) ==
            DoCasReply(DoCompactCas(p, EarlyAt(CompactReloaded(EarlyJob([EMPTY_SHARD]), None)), 1, 1), 1, false)
  {
    hide DoCasReply, DoBeginCompact, DoCompactRead, DoCompactPut, DoCompactReload, DoCompactCas, EarlyAt;
    EarlyBegins();
    EarlyBuilds(p);
    RunTwo(p, INIT, BeginCompact(1, 0, false), CompactRead(1));
    RunTwo(p, EarlyAt(CompactBuilding(EarlyJob([]))), CompactPut(1, 0, []), CompactReload(1));
    RunTwo(p, EarlyAt(CompactReloaded(EarlyJob([EMPTY_SHARD]), None)), CompactCas(1, 1), CasReply(1, false));
  }

  lemma CasIsGuarded(p: Params)
    ensures GuardedRun(p, EarlyAt(CompactReloaded(EarlyJob([EMPTY_SHARD]), None)), COMMIT)
  {
    hide DoCompactCas;
    var s := EarlyAt(CompactReloaded(EarlyJob([EMPTY_SHARD]), None));
    assert COMMIT[1..] == [CasReply(1, false)];
    PlainIsGuarded(p, Step(p, s, CompactCas(1, 1)), [CasReply(1, false)]);
  }

  /** So a later first write can fix a shard count the shard list does not have; and then aggregation
      misses the document if its id belongs to any shard but the first. */
  lemma AggregationMissesDocuments(p: Params, shards: nat) returns (events: seq<Event>, s: State)
    requires 2 <= shards <= 256 && ShardOf(p.hash, THE_ID, shards) != 0
    ensures GuardedRun(p, INIT, events) && s == Run(p, INIT, events)
    ensures var m := ManifestOf(s.head);
      && |m.shards| == 1 && m.schema.Shards() == shards && Truth(s.log) == map[THE_ID := THE_DOC]
      && Reached(p.hash, SegmentLive(s, m), ShardLives(s, m.shards), shards, ReadObjects(s.stored, WalNames(m.wal))) ==
          map[]
  {
    hide Step, PrepareCall, GuardedRun;
    var early := EarlyCompaction(p);
    LatePrepares(p, early.head, shards);
    s := WriteRun(p, early, 2, LateCall(shards), 1, 2, EMPTY_SCHEMA.(idType := Some(IdUint), numShards := Some(shards)),
        [Upsert(THE_DOC)]);
    events := EARLY + WriteEvents(2, LateCall(shards), 1, 2);
    RunConcat(p, INIT, EARLY, WriteEvents(2, LateCall(shards), 1, 2));
    GuardedConcat(p, INIT, EARLY, WriteEvents(2, LateCall(shards), 1, 2));
    var m := ManifestOf(s.head);
    assert WalNames(m.wal) == [1];
    ReadOne(s.stored, 1);
    var tail := [Upsert(THE_DOC)];
    assert s.log == [Commit(2, 1, tail)];
    assert Flat(s.log) == tail + Flat(s.log[1..]);
    assert tail + [] == tail;
    ReplayOne(map[], Upsert(THE_DOC));
    assert SegmentNames(m.shards) == [] + SegmentNames(m.shards[1..]);
    assert SegmentLive(s, m) == map[];
    assert Slice(p.hash, tail, shards, 0) == [] by {
      assert tail[1..] == [];
    }
  }

  lemma LatePrepares(p: Params, head: Option<Versioned>, shards: nat)
    requires 1 <= shards <= 256 && head.Some? && head.value.manifest == EMPTY_MANIFEST.(shards := [EMPTY_SHARD])
    ensures PrepareCall(p, head, LateCall(shards)) ==
            Ok((EMPTY_SCHEMA.(idType := Some(IdUint), numShards := Some(shards)), [Upsert(THE_DOC)]))
  {
    assert !head.value.manifest.HasData();
    DeclaresShards(EMPTY_SCHEMA, Some(shards), false);
    AbsorbsOne(p.host, EMPTY_SCHEMA.(numShards := Some(shards)), Upsert(THE_DOC));
  }
}
