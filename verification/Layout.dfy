/** Which documents each compacted shard holds, in every reachable state; and so what a query that ranks
    shard by shard answers (src/store.rs). */
module Layout {
  import opened Wrappers
  import opened Records
  import opened Protocol
  import opened Safety
  import opened Runs
  import opened Typing
  import opened Reads
  import opened Ranking

  /** A shard's segments hold one bucket of a live set split `n` ways. */
  predicate ShardIs(p: Params, s: State, live: Live, n: nat, i: nat, shard: Shard) {
    Holds(s.stored, shard.segments) && ReadObjects(s.stored, shard.segments) == Bucket(p.hash, live, n, i)
  }

  predicate Laid(p: Params, s: State, shards: seq<Shard>, live: Live, n: nat) {
    forall i | 0 <= i < |shards| :: ShardIs(p, s, live, n, i, shards[i])
  }

  ghost predicate LaidOut(p: Params, s: State, shards: seq<Shard>) {
    shards == [] || exists live :: Keyed(live) && Laid(p, s, shards, live, |shards|)
  }

  predicate PhaseLaid(p: Params, s: State, phase: Phase) {
    match phase
    case CompactBuilding(job) => Laid(p, s, job.built, job.live, job.base.schema.Shards())
    case CompactReloaded(job, _) => Laid(p, s, job.built, job.live, job.base.schema.Shards())
    case _ => true
  }

  ghost predicate AllLaid(p: Params, s: State) {
    && (forall k | k in s.seen :: LaidOut(p, s, s.seen[k].shards))
    && (forall a | a in s.actors :: PhaseLaid(p, s, s.actors[a]))
  }

  lemma LaidLater(p: Params, s: State, t: State, shards: seq<Shard>, live: Live, n: nat)
    requires Laid(p, s, shards, live, n) && Later(s, t)
    ensures Laid(p, t, shards, live, n)
  {
    hide Bucket;
    forall i | 0 <= i < |shards| ensures ShardIs(p, t, live, n, i, shards[i]) {
      assert ShardIs(p, s, live, n, i, shards[i]);
      ReadSame(s.stored, t.stored, shards[i].segments);
    }
  }

  lemma LaidOutLater(p: Params, s: State, t: State, shards: seq<Shard>)
    requires LaidOut(p, s, shards) && Later(s, t)
    ensures LaidOut(p, t, shards)
  {
    hide Laid, Later;
    if shards != [] {
      var live :| Keyed(live) && Laid(p, s, shards, live, |shards|);
      LaidLater(p, s, t, shards, live, |shards|);
    }
  }

  lemma PhaseLaidLater(p: Params, s: State, t: State, phase: Phase)
    requires PhaseLaid(p, s, phase) && Later(s, t)
    ensures PhaseLaid(p, t, phase)
  {
    hide Laid, Later;
    match phase
    case CompactBuilding(job) => LaidLater(p, s, t, job.built, job.live, job.base.schema.Shards());
    case CompactReloaded(job, _) => LaidLater(p, s, t, job.built, job.live, job.base.schema.Shards());
    case _ =>
  }

  /** A step moves one actor and publishes at most one manifest. */
  lemma StepsLaid(p: Params, s: State, t: State, a: Actor, published: Option<(Token, Manifest)>)
    requires AllLaid(p, s) && Later(s, t)
    requires t.seen == if published.Some? then s.seen[published.value.0 := published.value.1] else s.seen
    requires published.Some? ==> LaidOut(p, t, published.value.1.shards)
    requires forall b | b in t.actors && b != a :: b in s.actors && t.actors[b] == s.actors[b]
    requires a in t.actors ==> PhaseLaid(p, t, t.actors[a])
    ensures AllLaid(p, t)
  {
    hide LaidOut, PhaseLaid, Later;
    forall k | k in t.seen ensures LaidOut(p, t, t.seen[k].shards) {
      if published.None? || k != published.value.0 {
        LaidOutLater(p, s, t, s.seen[k].shards);
      }
    }
    forall b | b in t.actors ensures PhaseLaid(p, t, t.actors[b]) {
      if b != a {
        PhaseLaidLater(p, s, t, s.actors[b]);
      }
    }
  }

  lemma PhaseAt(p: Params, s: State, a: Actor)
    requires AllLaid(p, s) && a in s.actors
    ensures PhaseLaid(p, s, s.actors[a])
  {
  }

  lemma HeadLaid(p: Params, s: State)
    requires AllLaid(p, s) && Known(s, s.head)
    ensures LaidOut(p, s, ManifestOf(s.head).shards)
  {
  }

  lemma PutLaid(p: Params, s: State, a: Actor, segment: Name, index: seq<Name>)
    requires AllLaid(p, s)
    ensures AllLaid(p, DoCompactPut(p, s, a, segment, index))
  {
    hide AllLaid, Bucket, FreshNames, DoCompactPut, Later, Laid;
    var t := DoCompactPut(p, s, a, segment, index);
    if t != s {
      PutForms(p, s, a, segment, index);
      var job, built := s.actors[a].job, t.actors[a].job.built;
      StepLater(p, s, CompactPut(a, segment, index));
      PhaseAt(p, s, a);
      LaidLater(p, s, t, job.built, job.live, job.base.schema.Shards());
      OneMoreLaid(p, t, job.built, job.live, job.base.schema.Shards(), built[|job.built|]);
      StepsLaid(p, s, t, a, None);
    }
  }

  lemma OneMoreLaid(p: Params, t: State, built: seq<Shard>, live: Live, n: nat, shard: Shard)
    requires Laid(p, t, built, live, n) && ShardIs(p, t, live, n, |built|, shard)
    ensures Laid(p, t, built + [shard], live, n)
  {
    hide ShardIs;
  }

  /** A compactor's PUT adds one shard to its list, and that shard is the bucket it is due. */
  lemma PutForms(p: Params, s: State, a: Actor, segment: Name, index: seq<Name>)
    requires DoCompactPut(p, s, a, segment, index) != s
    ensures a in s.actors && s.actors[a].CompactBuilding?
    ensures var t, job := DoCompactPut(p, s, a, segment, index), s.actors[a].job;
      && t.seen == s.seen && (forall b | b in t.actors && b != a :: b in s.actors && t.actors[b] == s.actors[b])
      && a in t.actors && t.actors[a].CompactBuilding?
      && var next := t.actors[a].job;
         && next.live == job.live && next.base == job.base && |next.built| == |job.built| + 1
         && next.built == job.built + [next.built[|job.built|]]
         && ShardIs(p, t, job.live, job.base.schema.Shards(), |job.built|, next.built[|job.built|])
  {
    hide Bucket, FreshNames, ShardIs, ShardObjects;
    var job := s.actors[a].job;
    var t, bucket := DoCompactPut(p, s, a, segment, index), NextBucket(p, job);
    if bucket == [] {
      EmptyShardIs(p, t, job);
    } else {
      SegmentStored(s, t, a, bucket, segment, index);
      NewShardIs(p, t, job, Shard([segment], if job.build then Some(index) else None), segment);
    }
  }

  lemma EmptyShardIs(p: Params, t: State, job: Job)
    requires NextBucket(p, job) == []
    ensures ShardIs(p, t, job.live, job.base.schema.Shards(), |job.built|, EMPTY_SHARD)
  {
    hide Bucket;
  }

  lemma SegmentStored(s: State, t: State, a: Actor, bucket: seq<Record>, segment: Name, index: seq<Name>)
    requires t.stored == s.stored + ShardObjects(bucket, segment, index, s.clock, a)
    ensures segment in t.stored && t.stored[segment].records == bucket
  {
  }

  lemma NewShardIs(p: Params, t: State, job: Job, shard: Shard, segment: Name)
    requires shard.segments == [segment] && segment in t.stored && t.stored[segment].records == NextBucket(p, job)
    ensures ShardIs(p, t, job.live, job.base.schema.Shards(), |job.built|, shard)
  {
    hide Bucket;
    assert ReadObjects(t.stored, [segment]) == NextBucket(p, job) + ReadObjects(t.stored, [segment][1..]);
  }

  lemma CasForms(p: Params, s: State, a: Actor, token: Token)
    requires DoCompactCas(p, s, a, token) != s
    ensures a in s.actors && s.actors[a].CompactReloaded?
    ensures var t, ph := DoCompactCas(p, s, a, token), s.actors[a];
      && (forall b | b in t.actors && b != a :: b in s.actors && t.actors[b] == s.actors[b])
      && a in t.actors
      && (if Unchanged(s.head, ph.current)
          then t.seen == s.seen[token := Folded(ManifestOf(ph.current), ph.job)] && t.actors[a].CompactDecided?
          else
            && t.seen == s.seen
            && (t.actors[a].CompactDone? || t.actors[a] == CompactBuilding(ph.job.(attempt := ph.job.attempt + 1))))
  {
    hide Folded, DoCompactCas, Unchanged, TokenFits;
    CompactCasActs(p, s, a, token);
    CompactCasForms(p, s, a, token);
  }

  lemma CasLaid(p: Params, s: State, a: Actor, token: Token)
    requires Inv(p, s) && AllLaid(p, s)
    ensures AllLaid(p, DoCompactCas(p, s, a, token))
  {
    hide Inv, AllLaid, Later, Folded, JobOk, DoCompactCas, LaidOut, PhaseLaid, DoneStays, Unchanged;
    var t := DoCompactCas(p, s, a, token);
    if t != s {
      CasForms(p, s, a, token);
      StepLater(p, s, CompactCas(a, token));
      PhaseAt(p, s, a);
      var ph := s.actors[a];
      PhaseLaidLater(p, s, t, ph);
      if Unchanged(s.head, ph.current) {
        ReloadedFacts(p, s, a);
        LiveKeyed(p, s, a, ph.job);
        FoldedShards(ManifestOf(ph.current), ph.job);
        BuiltIsLaidOut(p, t, ph, t.actors[a]);
        StepsLaid(p, s, t, a, Some((token, Folded(ManifestOf(ph.current), ph.job))));
      } else {
        RetryIsLaid(p, t, ph, t.actors[a]);
        StepsLaid(p, s, t, a, None);
      }
    }
  }

  lemma BuiltIsLaidOut(p: Params, t: State, was: Phase, now: Phase)
    requires was.CompactReloaded? && now.CompactDecided? && PhaseLaid(p, t, was)
    requires Keyed(was.job.live) && |was.job.built| == was.job.base.schema.Shards()
    ensures LaidOut(p, t, was.job.built) && PhaseLaid(p, t, now)
  {
    hide Laid;
  }

  lemma RetryIsLaid(p: Params, t: State, was: Phase, now: Phase)
    requires was.CompactReloaded? && PhaseLaid(p, t, was)
    requires now.CompactDone? || now == CompactBuilding(was.job.(attempt := was.job.attempt + 1))
    ensures PhaseLaid(p, t, now)
  {
    hide Laid;
  }

  lemma FoldedShards(m: Manifest, job: Job)
    ensures Folded(m, job).shards == job.built
  {
  }

  lemma LiveKeyed(p: Params, s: State, a: Actor, job: Job)
    requires JobOk(p, s, a, job)
    ensures Keyed(job.live)
  {
    TruthKeyed(s.log[..job.upTo]);
  }

  lemma WriterCasForms(p: Params, s: State, a: Actor, token: Token)
    requires DoWriterCas(p, s, a, token) != s
    ensures a in s.actors && s.actors[a].WriteStored?
    ensures var t, ph := DoWriterCas(p, s, a, token), s.actors[a];
      && (forall b | b in t.actors && b != a :: b in s.actors && t.actors[b] == s.actors[b])
      && a in t.actors && t.actors[a].WriteDecided?
      && t.seen == if Unchanged(s.head, ph.base)
                   then s.seen[token := NextManifest(p, ManifestOf(ph.base), ph.name, ph.batch, ph.schema)] else s.seen
  {
    hide NextManifest;
  }

  lemma WriterCasLaid(p: Params, s: State, a: Actor, token: Token)
    requires Inv(p, s) && AllLaid(p, s)
    ensures AllLaid(p, DoWriterCas(p, s, a, token))
  {
    hide Inv, AllLaid, Later, LaidOut, LogOk, EpochsOk, StoreOk, SeenOk, PrepareCall, DoWriterCas;
    var t := DoWriterCas(p, s, a, token);
    if t != s {
      StepLater(p, s, WriterCas(a, token));
      WriterCasForms(p, s, a, token);
      var ph := s.actors[a];
      if Unchanged(s.head, ph.base) {
        StoredPhase(p, s, a);
        StoreFacts(p, s);
        SameHead(s, ph.base);
        HeadLaid(p, s);
        LaidOutLater(p, s, t, ManifestOf(s.head).shards);
        StepsLaid(p, s, t, a, Some((token, NextManifest(p, ManifestOf(ph.base), ph.name, ph.batch, ph.schema))));
      } else {
        StepsLaid(p, s, t, a, None);
      }
    }
  }

  lemma CompactorLaid(p: Params, s: State, a: Actor)
    requires AllLaid(p, s)
    ensures AllLaid(p, DoCompactRead(s, a)) && AllLaid(p, DoCompactReload(s, a))
  {
    hide AllLaid, Later, Laid, LiveOf, Holds, OneMoves;
    CompactorMoves(s, a, 0, false);
    StepLater(p, s, CompactRead(a));
    StepLater(p, s, CompactReload(a));
    if a in s.actors {
      PhaseAt(p, s, a);
    }
    NothingLaid(p, s);
    OneMovesLaid(p, s, DoCompactRead(s, a), a);
    OneMovesLaid(p, s, DoCompactReload(s, a), a);
  }

  lemma NothingLaid(p: Params, s: State)
    ensures forall live, n :: Laid(p, s, [], live, n)
  {
  }

  lemma OneMovesLaid(p: Params, s: State, t: State, a: Actor)
    requires AllLaid(p, s) && OneMoves(s, t, a) && Later(s, t) && (a in t.actors ==> PhaseLaid(p, s, t.actors[a]))
    ensures AllLaid(p, t)
  {
    hide AllLaid, Later, PhaseLaid;
    if a in t.actors {
      PhaseLaidLater(p, s, t, t.actors[a]);
    }
    StepsLaid(p, s, t, a, None);
  }

  lemma OtherLaid(p: Params, s: State, e: Event)
    requires AllLaid(p, s)
    requires !e.CompactCas? && !e.WriterCas? && !e.CompactPut? && !e.CompactRead? && !e.CompactReload? && !e.WriterPut?
    ensures AllLaid(p, Step(p, s, e))
  {
    hide AllLaid, Later, OneMoves, NothingToDo, Referenced, DoCasReply, DoCrash;
    StepLater(p, s, e);
    if e.CasReply? || e.Crash? {
      ReplyLaid(p, s, e);
    } else if e.Tick? || e.GcDelete? {
      WorldLaid(p, s, Step(p, s, e));
    } else if e.BeginCompact? {
      CompactorMoves(s, e.a, e.h, e.build);
      if Step(p, s, e) != s {
        OneMovesLaid(p, s, Step(p, s, e), e.a);
      }
    } else {
      MovesOneActor(p, s, e);
      if Step(p, s, e) != s {
        OneMovesLaid(p, s, Step(p, s, e), e.a);
      }
    }
  }

  lemma ReplyLaid(p: Params, s: State, e: Event)
    requires AllLaid(p, s) && (e.CasReply? || e.Crash?)
    ensures AllLaid(p, Step(p, s, e))
  {
    hide AllLaid, Later, OneMoves, Step;
    StepLater(p, s, e);
    MovesOneActor(p, s, e);
    ReplyEnds(p, s, e);
    if Step(p, s, e) != s {
      OneMovesLaid(p, s, Step(p, s, e), e.a);
    }
  }

  lemma WorldLaid(p: Params, s: State, t: State)
    requires AllLaid(p, s) && Later(s, t) && t.seen == s.seen && t.actors == s.actors
    ensures AllLaid(p, t)
  {
    hide Later, PhaseLaid, LaidOut;
    forall k | k in t.seen ensures LaidOut(p, t, t.seen[k].shards) {
      LaidOutLater(p, s, t, s.seen[k].shards);
    }
    forall b | b in t.actors ensures PhaseLaid(p, t, t.actors[b]) {
      PhaseLaidLater(p, s, t, s.actors[b]);
    }
  }

  lemma WriterPutLaid(p: Params, s: State, a: Actor, name: Name)
    requires AllLaid(p, s)
    ensures AllLaid(p, DoWriterPut(p, s, a, name))
  {
    hide AllLaid, Later, PrepareCall, DoWriterPut;
    var t := DoWriterPut(p, s, a, name);
    if t != s {
      StepLater(p, s, WriterPut(a, name));
      WriterPutForms(p, s, a, name);
      StepsLaid(p, s, t, a, None);
    }
  }

  lemma StepLaid(p: Params, s: State, e: Event)
    requires Inv(p, s) && AllLaid(p, s)
    ensures AllLaid(p, Step(p, s, e))
  {
    hide Inv, AllLaid, DoWriterPut, DoWriterCas, DoCompactRead, DoCompactPut, DoCompactReload, DoCompactCas;
    if e.WriterPut? {
      WriterPutLaid(p, s, e.a, e.name);
    } else if e.WriterCas? {
      WriterCasLaid(p, s, e.a, e.token);
    } else if e.CompactPut? {
      PutLaid(p, s, e.a, e.segment, e.index);
    } else if e.CompactCas? {
      CasLaid(p, s, e.a, e.token);
    } else if e.CompactRead? || e.CompactReload? {
      CompactorLaid(p, s, e.a);
    } else {
      OtherLaid(p, s, e);
    }
  }

  lemma {:induction false} RunLaid(p: Params, s: State, events: seq<Event>)
    requires Inv(p, s) && AllLaid(p, s) && GuardedRun(p, s, events)
    ensures AllLaid(p, Run(p, s, events))
    decreases |events|
  {
    hide Inv, AllLaid, Step, Guarded;
    if events != [] {
      StepKeeps(p, s, events[0]);
      StepLaid(p, s, events[0]);
      RunLaid(p, Step(p, s, events[0]), events[1..]);
    }
  }

  // ------------------------------------------------------------ queries over a reachable state

  /** What each resident shard's segments hold. */
  ghost function ShardLives(s: State, shards: seq<Shard>): (r: seq<Live>)
    ensures |r| == |shards|
  {
    seq(|shards|, i requires 0 <= i < |shards| => Replay(map[], ReadObjects(s.stored, shards[i].segments)))
  }

  lemma {:induction false} BucketIsPart(p: Params, live: Live, n: nat, i: nat)
    requires Keyed(live)
    ensures Replay(map[], Bucket(p.hash, live, n, i)) == ShardPart(p.hash, live, n, i)
  {
    var part := ShardPart(p.hash, live, n, i);
    forall id ensures At(Replay(map[], Bucket(p.hash, live, n, i)), id) == At(part, id) {
      UpsertsRestore(map[], part, SortedIds(part.Keys), id);
      assert UpsertsOf(part, SortedIds(part.Keys)) == Bucket(p.hash, live, n, i);
    }
    SameEverywhere(Replay(map[], Bucket(p.hash, live, n, i)), part);
  }

  lemma {:induction false} LaidIsBuckets(p: Params, s: State, shards: seq<Shard>, live: Live, n: nat)
    requires Laid(p, s, shards, live, n)
    ensures ReadObjects(s.stored, SegmentNames(shards)) == Buckets(p.hash, live, n, |shards|)
    decreases |shards|
  {
    hide Bucket;
    if shards != [] {
      var front, last := shards[..|shards| - 1], shards[|shards| - 1];
      assert shards == front + [last];
      forall i | 0 <= i < |front| ensures ShardIs(p, s, live, n, i, front[i]) {
        assert ShardIs(p, s, live, n, i, shards[i]);
      }
      LaidIsBuckets(p, s, front, live, n);
      SegmentNamesConcat(front, [last]);
      assert SegmentNames([last]) == last.segments + SegmentNames([last][1..]);
      assert last.segments + [] == last.segments;
      ReadConcat(s.stored, SegmentNames(front), last.segments);
      assert ShardIs(p, s, live, n, |front|, last);
    }
  }

  /** The shards of a manifest are the parts of what its segments hold together. */
  lemma ShardsArePieces(p: Params, s: State, m: Manifest)
    requires LaidOut(p, s, m.shards) && m.shards != [] && Shape(m)
    ensures Sharded(p.hash, SegmentLive(s, m), ShardLives(s, m.shards), m.schema.Shards())
    ensures Keyed(SegmentLive(s, m))
  {
    hide Bucket, Replay, ReadObjects;
    var n := |m.shards|;
    var live :| Keyed(live) && Laid(p, s, m.shards, live, n);
    LaidIsBuckets(p, s, m.shards, live, n);
    BucketsMaterialize(p.hash, live, n);
    var parts := ShardLives(s, m.shards);
    forall i | 0 <= i < n ensures parts[i] == ShardPart(p.hash, live, n, i) {
      assert ShardIs(p, s, live, n, i, m.shards[i]);
      BucketIsPart(p, live, n, i);
    }
    if n == 1 {
      assert ShardPart(p.hash, live, 1, 0) == live;
      assert parts == [live];
    }
  }

  lemma RankFacts(p: Params, events: seq<Event>, s: State)
    requires GuardedRun(p, INIT, events) && s == Run(p, INIT, events)
    ensures var m := ManifestOf(s.head);
      && Keyed(SegmentLive(s, m))
      && LaidOut(p, s, m.shards) && (m.shards == [] ==> SegmentLive(s, m) == map[])
      && (m.shards != [] ==> Sharded(p.hash, SegmentLive(s, m), ShardLives(s, m.shards), m.schema.Shards()))
      && Replay(SegmentLive(s, m), ReadObjects(s.stored, WalNames(m.wal))) == Truth(s.log)
  {
    hide Inv, Step, AllLaid, Typed, Sharded, LaidOut, Backed, Run, GuardedRun;
    var m := ManifestOf(s.head);
    InitInv(p);
    assert AllLaid(p, INIT) by {
      InitLaid(p);
    }
    RunKeeps(p, INIT, events);
    RunLaid(p, INIT, events);
    StoredDataIsTyped(p, events);
    HeadKnown(p, s);
    HeadLaid(p, s);
    if m.shards != [] {
      ShardsArePieces(p, s, m);
    } else {
      NoSegments(s, m);
    }
    StoreFacts(p, s);
    HeadBacked(p, s);
    WholeTail(p, s, m);
    assert m.wal[..|m.wal|] == m.wal && s.log[..|s.log|] == s.log;
  }

  lemma InitLaid(p: Params)
    ensures AllLaid(p, INIT)
  {
  }

  lemma NoSegments(s: State, m: Manifest)
    requires m.shards == []
    ensures SegmentLive(s, m) == map[] && Keyed(SegmentLive(s, m))
  {
  }

  /** In every reachable state a shard's segment holds upserts only, in ascending order of their ids, and with several
      shards every document is where the hash of its id says. */
  lemma PlacedByHash(p: Params, events: seq<Event>, s: State, i: nat, j: nat)
    requires GuardedRun(p, INIT, events) && s == Run(p, INIT, events) && i < |ManifestOf(s.head).shards|
    requires j < |ReadObjects(s.stored, ManifestOf(s.head).shards[i].segments)|
    ensures var shards := ManifestOf(s.head).shards; var records := ReadObjects(s.stored, shards[i].segments);
      && records[j].Upsert?
      && (|shards| > 1 ==> p.hash(records[j].doc.id) % |shards| == i)
      && (forall k | 0 <= k < j :: records[k].Upsert? && IdLess(records[k].doc.id, records[j].doc.id))
  {
    hide Run, GuardedRun, ReadObjects, Bucket, Replay, LaidOut, IdLess;
    RankFacts(p, events, s);
    var shards := ManifestOf(s.head).shards;
    var live := LaidLive(p, s, shards);
    assert ShardIs(p, s, live, |shards|, i, shards[i]);
    BucketPlaced(p.hash, live, |shards|, i, j);
    forall k | 0 <= k < j
      ensures var records := ReadObjects(s.stored, shards[i].segments);
        records[k].Upsert? && IdLess(records[k].doc.id, records[j].doc.id)
    {
      BucketAscends(p.hash, live, |shards|, i, k, j);
    }
  }

  lemma LaidLive(p: Params, s: State, shards: seq<Shard>) returns (live: Live)
    requires LaidOut(p, s, shards) && shards != []
    ensures Keyed(live) && Laid(p, s, shards, live, |shards|)
  {
    live :| Keyed(live) && Laid(p, s, shards, live, |shards|);
  }

  lemma BucketPlaced(hash: Id -> nat, live: Live, n: nat, i: nat, j: nat)
    requires Keyed(live) && j < |Bucket(hash, live, n, i)|
    ensures var r := Bucket(hash, live, n, i)[j]; r.Upsert? && (n > 1 ==> hash(r.doc.id) % n == i)
  {
    var ids := SortedIds(ShardPart(hash, live, n, i).Keys);
    assert ids[j] in ids;
  }

  lemma BucketAscends(hash: Id -> nat, live: Live, n: nat, i: nat, k: nat, j: nat)
    requires Keyed(live) && k < j < |Bucket(hash, live, n, i)|
    ensures var b := Bucket(hash, live, n, i);
      b[k].Upsert? && b[j].Upsert? && IdLess(b[k].doc.id, b[j].doc.id)
  {
    hide IdLess;
    var ids := SortedIds(ShardPart(hash, live, n, i).Keys);
    assert ids[j] in ids && ids[k] in ids;
  }
}
