/** The staleness check of a compaction compares shard lists. It is exact for a base that can occur
    only once, and unsound for a list of empty shards, which can come back (src/store.rs). */
module Overlap {
  import opened Wrappers
  import opened Values
  import opened Records
  import opened Schemas
  import opened Protocol
  import opened Safety
  import opened Runs

  // ------------------------------------------------------------ whole calls, run without interruption

  predicate NoCompactCas(events: seq<Event>) {
    forall i | 0 <= i < |events| :: !events[i].CompactCas?
  }

  lemma {:induction false} PlainIsGuarded(p: Params, s: State, events: seq<Event>)
    requires NoCompactCas(events)
    ensures GuardedRun(p, s, events)
    decreases |events|
  {
    hide Step;
    if events != [] {
      PlainIsGuarded(p, Step(p, s, events[0]), events[1..]);
    }
  }

  function WriteEvents(a: Actor, call: Call, name: Name, token: Token): seq<Event> {
    [BeginWrite(a, call), WriterLoad(a)] + ([WriterPut(a, name), WriterCas(a, token)] + [CasReply(a, false)])
  }

  /** Handle 0 remembers the current manifest. */
  predicate UpToDate(s: State) {
    0 in s.snapshots ==> s.head == Some(s.snapshots[0])
  }

  predicate Written(p: Params, s: State, t: State, a: Actor, call: Call, name: Name, token: Token, schema: Schema,
                    batch: seq<Record>) {
    var m := NextManifest(p, ManifestOf(s.head), name, batch, schema);
    var put := Object(batch, s.clock, a);
    t == s.(
      objects := s.objects[name := put], stored := s.stored[name := put],
      head := Some(Versioned(m, token)), seen := s.seen[token := m],
      snapshots := s.snapshots[0 := Versioned(m, token)],
      log := s.log + [Commit(a, name, batch)],
      actors := s.actors[a := WriteDone(call, Acked(ManifestOf(s.head).nextSeq), Some(ManifestOf(s.head).nextSeq))])
  }

  lemma WriteRun(p: Params, s: State, a: Actor, call: Call, name: Name, token: Token, schema: Schema,
                 batch: seq<Record>)
    returns (t: State)
    requires a !in s.actors && name !in s.stored && token !in s.seen && UpToDate(s) && call.handle == 0
    requires PrepareCall(p, s.head, call) == Ok((schema, batch))
    ensures t == Run(p, s, WriteEvents(a, call, name, token)) && GuardedRun(p, s, WriteEvents(a, call, name, token))
    ensures Written(p, s, t, a, call, name, token, schema, batch)
  {
    hide Step, Written, Sent, UpToDate, Run;
    PlainIsGuarded(p, s, WriteEvents(a, call, name, token));
    var begin, send := [BeginWrite(a, call), WriterLoad(a)], [WriterPut(a, name), WriterCas(a, token)];
    RunConcat(p, s, begin, send + [CasReply(a, false)]);
    WriteLoads(p, s, a, call);
    var loaded := Run(p, s, begin);
    RunConcat(p, loaded, send, [CasReply(a, false)]);
    var sent := WriteDecides(p, s, loaded, a, call, name, token, schema, batch);
    t := WriteLearns(p, s, sent, a, call, name, token, schema, batch);
  }

  lemma WriteLoads(p: Params, s: State, a: Actor, call: Call)
    requires a !in s.actors && UpToDate(s) && call.handle == 0
    ensures var t := Run(p, s, [BeginWrite(a, call), WriterLoad(a)]);
      && t == s.(snapshots := t.snapshots, actors := s.actors[a := WriteBased(call, 1, s.head)])
      && t.snapshots - {0} == s.snapshots - {0}
  {
    RunTwo(p, s, BeginWrite(a, call), WriterLoad(a));
    var s1 := DoBeginWrite(s, a, call);
    assert s1.actors[a := WriteBased(call, 1, s.head)] == s.actors[a := WriteBased(call, 1, s.head)];
  }

  /** The batch is published, and the writer has not heard of it yet. */
  predicate Sent(p: Params, s: State, u: State, a: Actor, call: Call, name: Name, token: Token, schema: Schema,
                 batch: seq<Record>) {
    var m := NextManifest(p, ManifestOf(s.head), name, batch, schema);
    var put := Object(batch, s.clock, a);
    u == s.(
      objects := s.objects[name := put], stored := s.stored[name := put],
      head := Some(Versioned(m, token)), seen := s.seen[token := m],
      snapshots := u.snapshots,
      log := s.log + [Commit(a, name, batch)],
      actors := s.actors[a := WriteDecided(call, 1, Some(Versioned(m, token)))])
  }

  lemma WriteDecides(p: Params, s: State, u: State, a: Actor, call: Call, name: Name, token: Token, schema: Schema,
                     batch: seq<Record>)
    returns (t: State)
    requires name !in s.stored && token !in s.seen
    requires PrepareCall(p, s.head, call) == Ok((schema, batch))
    requires u == s.(snapshots := u.snapshots, actors := s.actors[a := WriteBased(call, 1, s.head)])
    ensures t == Run(p, u, [WriterPut(a, name), WriterCas(a, token)]) && t.snapshots == u.snapshots
    ensures Sent(p, s, t, a, call, name, token, schema, batch)
  {
    hide PrepareCall, NextManifest;
    RunTwo(p, u, WriterPut(a, name), WriterCas(a, token));
    var put := DoWriterPut(p, u, a, name);
    assert put.actors[a] == WriteStored(call, 1, s.head, name, batch, schema);
    t := DoWriterCas(p, put, a, token);
    assert put.actors[a := t.actors[a]] == s.actors[a := t.actors[a]];
  }

  lemma WriteLearns(p: Params, s: State, u: State, a: Actor, call: Call, name: Name, token: Token, schema: Schema,
                    batch: seq<Record>)
    returns (t: State)
    requires Sent(p, s, u, a, call, name, token, schema, batch) && call.handle == 0
    requires u.snapshots - {0} == s.snapshots - {0}
    ensures t == Run(p, u, [CasReply(a, false)])
    ensures Written(p, s, t, a, call, name, token, schema, batch)
  {
    hide NextManifest;
    NextSeqIs(p, ManifestOf(s.head), name, batch, schema);
    RunOne(p, u, CasReply(a, false));
    t := DoCasReply(u, a, false);
    assert u.actors[a := t.actors[a]] == s.actors[a := t.actors[a]];
    var x, y := u.snapshots[0 := t.head.value], s.snapshots[0 := t.head.value];
    forall h | h in x ensures h in y && x[h] == y[h] {
      assert h != 0 ==> h in u.snapshots - {0};
    }
    forall h | h in y ensures h in x {
      assert h != 0 ==> h in s.snapshots - {0};
    }
    assert x == y;
  }

  lemma NextSeqIs(p: Params, m: Manifest, name: Name, batch: seq<Record>, schema: Schema)
    ensures NextManifest(p, m, name, batch, schema).nextSeq == m.nextSeq + 1
  {
  }

  function PutEvents(a: Actor, from: Name, count: nat): seq<Event>
    decreases count
  {
    if count == 0 then [] else [CompactPut(a, from, [])] + PutEvents(a, from + 1, count - 1)
  }

  lemma {:induction false} PutsArePlain(a: Actor, from: Name, count: nat)
    ensures NoCompactCas(PutEvents(a, from, count))
    decreases count
  {
    if count > 0 {
      PutsArePlain(a, from + 1, count - 1);
    }
  }

  /** Only the job of `a` and new names from `from` on. */
  predicate Building(s: State, t: State, a: Actor, from: Name, job: Job, next: Job) {
    && t == s.(objects := t.objects, stored := t.stored, actors := s.actors[a := CompactBuilding(next)])
    && next == job.(built := next.built, firstPut := next.firstPut)
    && (next.firstPut == job.firstPut || next.firstPut == Some(s.clock))
    && (forall n | n in t.stored && n < from :: n in s.stored)
    && t.objects == t.stored
    && (forall n | n in s.stored :: n in t.stored && t.stored[n] == s.stored[n])
  }

  lemma OnePut(p: Params, s: State, a: Actor, from: Name, job: Job) returns (next: Job)
    requires a in s.actors && s.actors[a] == CompactBuilding(job) && !job.build
    requires |job.built| < job.base.schema.Shards() && from !in s.stored && s.objects == s.stored
    ensures Building(s, DoCompactPut(p, s, a, from, []), a, from, job, next)
    ensures |next.built| == |job.built| + 1
    ensures NextBucket(p, job) == [] ==> next.built == job.built + [EMPTY_SHARD]
    ensures forall n | n in DoCompactPut(p, s, a, from, []).stored :: n in s.stored || n == from
  {
    hide NextBucket;
    next := DoCompactPut(p, s, a, from, []).actors[a].job;
  }

  lemma BuildingTransitive(s: State, u: State, t: State, a: Actor, from: Name, job: Job, mid: Job, next: Job)
    requires Building(s, u, a, from, job, mid) && Building(u, t, a, from + 1, mid, next)
    requires forall n | n in u.stored :: n in s.stored || n == from
    requires forall n | n in s.stored :: n < from
    ensures Building(s, t, a, from, job, next)
  {
    assert u.actors[a := CompactBuilding(next)] == s.actors[a := CompactBuilding(next)];
  }

  lemma NoBuilding(s: State, a: Actor, from: Name, job: Job)
    requires a in s.actors && s.actors[a] == CompactBuilding(job) && s.objects == s.stored
    ensures Building(s, s, a, from, job, job)
  {
    assert s.actors[a := CompactBuilding(job)] == s.actors;
  }

  lemma BuildingFacts(s: State, t: State, a: Actor, from: Name, job: Job, next: Job)
    requires Building(s, t, a, from, job, next)
    ensures a in t.actors && t.actors[a] == CompactBuilding(next) && t.objects == t.stored
    ensures next.build == job.build && next.base == job.base
  {
  }

  lemma {:induction false} PutsRun(p: Params, s: State, a: Actor, from: Name, count: nat, job: Job)
    returns (t: State, next: Job)
    requires a in s.actors && s.actors[a] == CompactBuilding(job) && !job.build
    requires |job.built| + count <= job.base.schema.Shards() && forall n | n in s.stored :: n < from
    requires s.objects == s.stored
    ensures t == Run(p, s, PutEvents(a, from, count)) && Building(s, t, a, from, job, next)
    ensures |next.built| == |job.built| + count
    decreases count
  {
    hide DoCompactPut, Building, DoWriterPut, DoWriterCas, DoCompactCas, DoCasReply, DoCrash;
    if count == 0 {
      t, next := s, job;
      NoBuilding(s, a, from, job);
    } else {
      var one := OnePut(p, s, a, from, job);
      var u := DoCompactPut(p, s, a, from, []);
      BuildingFacts(s, u, a, from, job, one);
      t, next := PutsRun(p, u, a, from + 1, count - 1, one);
      BuildingTransitive(s, u, t, a, from, job, one, next);
      assert PutEvents(a, from, count)[0] == CompactPut(a, from, []);
      assert PutEvents(a, from, count)[1..] == PutEvents(a, from + 1, count - 1);
    }
  }

  function EmptyShards(count: nat): (r: seq<Shard>)
    ensures |r| == count
  {
    if count == 0 then [] else EmptyShards(count - 1) + [EMPTY_SHARD]
  }

  lemma EmptyBucket(p: Params, job: Job)
    requires job.live == map[]
    ensures NextBucket(p, job) == []
  {
    assert ShardPart(p.hash, job.live, job.base.schema.Shards(), |job.built|) == map[];
  }

  lemma OneEmptyPut(p: Params, s: State, a: Actor, from: Name, job: Job)
    requires a in s.actors && s.actors[a] == CompactBuilding(job) && job.live == map[]
    requires |job.built| < job.base.schema.Shards()
    ensures DoCompactPut(p, s, a, from, []) == Become(s, a, CompactBuilding(job.(built := job.built + [EMPTY_SHARD])))
  {
    hide NextBucket;
    EmptyBucket(p, job);
  }

  /** Compacting an empty live set writes nothing but empty shards. */
  lemma {:induction false} EmptyPutsRun(p: Params, s: State, a: Actor, from: Name, count: nat, job: Job)
    requires a in s.actors && s.actors[a] == CompactBuilding(job) && job.live == map[]
    requires |job.built| + count <= job.base.schema.Shards() && job.built == EmptyShards(|job.built|)
    ensures Run(p, s, PutEvents(a, from, count)) ==
            Become(s, a, CompactBuilding(job.(built := EmptyShards(|job.built| + count))))
    decreases count
  {
    hide DoCompactPut;
    if count == 0 {
      assert s.actors[a := CompactBuilding(job)] == s.actors;
    } else {
      OneEmptyPut(p, s, a, from, job);
      var next := job.(built := job.built + [EMPTY_SHARD]);
      var u := Become(s, a, CompactBuilding(next));
      EmptyPutsRun(p, u, a, from + 1, count - 1, next);
      assert PutEvents(a, from, count)[0] == CompactPut(a, from, []);
      assert PutEvents(a, from, count)[1..] == PutEvents(a, from + 1, count - 1);
      var last := CompactBuilding(job.(built := EmptyShards(|job.built| + count)));
      assert u.actors[a := last] == s.actors[a := last];
    }
  }

  function LoadEvents(a: Actor): seq<Event> {
    [BeginCompact(a, 0, false), CompactRead(a)]
  }

  function NewJobOf(s: State): Job {
    var m := ManifestOf(s.head);
    Job(0, false, m, |s.epochs|, LiveOf(s.objects, m), |s.log|, [], None, 1)
  }

  lemma LoadRun(p: Params, s: State, a: Actor)
    requires a !in s.actors && s.head.Some? && ManifestOf(s.head).wal != [] && 0 in s.snapshots && UpToDate(s)
    requires Holds(s.objects, SegmentNames(ManifestOf(s.head).shards)) &&
      Holds(s.objects, WalNames(ManifestOf(s.head).wal))
    ensures Run(p, s, LoadEvents(a)) == Become(s, a, CompactBuilding(NewJobOf(s)))
  {
    hide LiveOf, Holds;
    RunTwo(p, s, BeginCompact(a, 0, false), CompactRead(a));
    var m := ManifestOf(s.head);
    assert !NothingToDo(m, false);
    var s1 := DoBeginCompact(s, a, 0, false);
    assert s1.snapshots == s.snapshots;
    assert s1 == Become(s, a, CompactBased(0, false, m, |s.epochs|));
    var t := DoCompactRead(s1, a);
    assert t.snapshots == s.snapshots;
    assert t.actors == s.actors[a := CompactBuilding(NewJobOf(s))];
  }

  function CommitEvents(a: Actor, token: Token): seq<Event> {
    [CompactReload(a), CompactCas(a, token)] + [CasReply(a, false)]
  }

  predicate CompactedBy(s: State, t: State, a: Actor, job: Job, token: Token) {
    var m := Folded(ManifestOf(s.head), job);
    t == s.(
      head := Some(Versioned(m, token)), seen := s.seen[token := m],
      snapshots := s.snapshots[0 := Versioned(m, token)],
      epochs := s.epochs + [Epoch(Some(a), m.shards, Start(m), job.upTo)],
      actors := s.actors[a := CompactDone(Compacted(|s.epochs|))])
  }

  lemma ReloadRun(p: Params, s: State, a: Actor, job: Job)
    requires a in s.actors && s.actors[a] == CompactBuilding(job) && job.handle == 0
    requires s.head.Some? && 0 in s.snapshots && UpToDate(s)
    requires |job.built| == job.base.schema.Shards() && ManifestOf(s.head).shards == job.base.shards
    ensures DoCompactReload(s, a) == Become(s, a, CompactReloaded(job, s.head))
  {
    assert Remember(s, 0, s.head).snapshots == s.snapshots;
  }

  /** The fold is published, and the compactor has not heard of it yet. */
  predicate FoldedBy(s: State, t: State, a: Actor, job: Job, token: Token) {
    var m := Folded(ManifestOf(s.head), job);
    t == s.(
      head := Some(Versioned(m, token)), seen := s.seen[token := m],
      epochs := s.epochs + [Epoch(Some(a), m.shards, Start(m), job.upTo)],
      actors := s.actors[a := CompactDecided(job.handle, Versioned(m, token), |s.epochs|)])
  }

  lemma FoldRun(p: Params, s: State, a: Actor, job: Job, token: Token) returns (t: State)
    requires a in s.actors && s.actors[a] == CompactBuilding(job) && job.handle == 0
    requires s.head.Some? && 0 in s.snapshots && UpToDate(s) && token !in s.seen
    requires |job.built| == job.base.schema.Shards() && ManifestOf(s.head).shards == job.base.shards
    requires job.firstPut.None? || job.firstPut == Some(s.clock)
    ensures t == Run(p, s, [CompactReload(a), CompactCas(a, token)]) && FoldedBy(s, t, a, job, token)
    ensures !Overlapped(s, job) ==> GuardedRun(p, s, [CompactReload(a), CompactCas(a, token)])
  {
    hide Folded, Anchored, Run, DoCompactReload;
    RunTwo(p, s, CompactReload(a), CompactCas(a, token));
    ReloadRun(p, s, a, job);
    var s1 := Become(s, a, CompactReloaded(job, s.head));
    t := DoCompactCas(p, s1, a, token);
    assert s1.actors[a := t.actors[a]] == s.actors[a := t.actors[a]];
    var events := [CompactReload(a), CompactCas(a, token)];
    assert events[1..] == [CompactCas(a, token)] && events[1..][1..] == [];
    if !Overlapped(s, job) {
      assert GuardedRun(p, t, []);
      assert GuardedRun(p, s1, events[1..]);
    }
  }

  lemma LearnFold(p: Params, s: State, u: State, a: Actor, job: Job, token: Token) returns (t: State)
    requires FoldedBy(s, u, a, job, token) && job.handle == 0
    ensures t == Run(p, u, [CasReply(a, false)]) && CompactedBy(s, t, a, job, token)
  {
    hide Folded;
    RunOne(p, u, CasReply(a, false));
    t := DoCasReply(u, a, false);
    assert u.actors[a := t.actors[a]] == s.actors[a := t.actors[a]];
  }

  lemma CommitRun(p: Params, s: State, a: Actor, job: Job, token: Token) returns (t: State)
    requires a in s.actors && s.actors[a] == CompactBuilding(job) && job.handle == 0
    requires s.head.Some? && 0 in s.snapshots && UpToDate(s) && token !in s.seen
    requires |job.built| == job.base.schema.Shards() && ManifestOf(s.head).shards == job.base.shards
    requires job.firstPut.None? || job.firstPut == Some(s.clock)
    ensures t == Run(p, s, CommitEvents(a, token)) && CompactedBy(s, t, a, job, token)
    ensures !Overlapped(s, job) ==> GuardedRun(p, s, CommitEvents(a, token))
  {
    hide Run, GuardedRun, Step, CompactedBy;
    var events := [CompactReload(a), CompactCas(a, token)];
    RunConcat(p, s, events, [CasReply(a, false)]);
    GuardedConcat(p, s, events, [CasReply(a, false)]);
    var decided := FoldRun(p, s, a, job, token);
    t := LearnFold(p, s, decided, a, job, token);
    PlainIsGuarded(p, decided, [CasReply(a, false)]);
  }

  // ------------------------------------------------------------ the run that resurrects a document

  const THE_ID: Id := UintId(7)
  const THE_DOC: Doc := Doc(THE_ID, [], map[])

  function FirstCall(shards: nat): Call {
    Call(0, [Delete(THE_ID)], EMPTY_CONFIG.(numShards := Some(shards)))
  }

  function NextCall(r: Record): Call {
    Call(0, [r], EMPTY_CONFIG)
  }

  function TheSchema(shards: nat): Schema {
    EMPTY_SCHEMA.(idType := Some(IdUint), numShards := Some(shards))
  }

  /** A record that declares nothing but a numeric id. */
  predicate Plain(r: Record) {
    r.Id().UintId? && (r.Delete? || (r.Upsert? && r.doc.vector == [] && r.doc.attrs == map[]))
  }

  lemma AbsorbsOne(h: Host, s: Schema, r: Record)
    requires Plain(r)
    requires s.idType.None? || s.idType == Some(IdUint)
    requires s.dim == None && s.attributes == map[]
    ensures Absorb(h, s, [r]) == Ok((s.(idType := Some(IdUint)), [r]))
  {
    var t := s.(idType := Some(IdUint));
    assert Coerced(h, map[], map[]) == map[];
    assert Inferred(s.attributes, map[]) == s.attributes;
    assert AbsorbRecord(h, s, r) == Ok((t, r));
    assert [r][1..] == [];
    assert Absorb(h, t, [r][1..]) == Ok((t, []));
    assert [r] + [] == [r];
  }

  lemma DeclaresShards(s: Schema, shards: Option<nat>, hasData: bool)
    requires shards.Some? ==> 1 <= shards.value <= 256 && s.numShards.None? && !hasData
    ensures Declare(s, EMPTY_CONFIG.(numShards := shards), hasData) ==
            Ok(if shards.Some? then s.(numShards := shards) else s)
  {
    var c := EMPTY_CONFIG.(numShards := shards);
    assert s.attributes + c.types == s.attributes && s.fts + c.fts == s.fts && s.embed + c.embed == s.embed;
    assert DeclareNames(s, c) == Ok(s);
  }

  lemma FirstPrepares(p: Params, shards: nat)
    requires 1 <= shards <= 256
    ensures PrepareCall(p, None, FirstCall(shards)) == Ok((TheSchema(shards), [Delete(THE_ID)]))
  {
    DeclaresShards(EMPTY_SCHEMA, Some(shards), false);
    AbsorbsOne(p.host, EMPTY_SCHEMA.(numShards := Some(shards)), Delete(THE_ID));
  }

  lemma NextPrepares(p: Params, head: Option<Versioned>, shards: nat, r: Record)
    requires head.Some? && head.value.manifest.schema == TheSchema(shards)
    requires Plain(r)
    ensures PrepareCall(p, head, NextCall(r)) == Ok((TheSchema(shards), [r]))
  {
    DeclaresShards(TheSchema(shards), None, head.value.manifest.HasData());
    assert EMPTY_CONFIG.(numShards := None) == EMPTY_CONFIG;
    AbsorbsOne(p.host, TheSchema(shards), r);
  }

  lemma {:induction false} EmptyShardsNameNothing(count: nat)
    ensures SegmentNames(EmptyShards(count)) == []
    ensures !exists i | 0 <= i < count :: EmptyShards(count)[i].segments != []
    decreases count
  {
    if count > 0 {
      EmptyShardsNameNothing(count - 1);
      SegmentNamesConcat(EmptyShards(count - 1), [EMPTY_SHARD]);
      forall i | 0 <= i < count ensures EmptyShards(count)[i].segments == [] {
        if i < count - 1 {
          assert EmptyShards(count)[i] == EmptyShards(count - 1)[i];
        }
      }
    }
  }

  /** What the state looks like between the calls of the run: handle 0 is current and nothing has
      been collected. */
  predicate Calm(s: State, shards: nat, logged: seq<Record>) {
    && s.head.Some? && 0 in s.snapshots && UpToDate(s) && s.objects == s.stored
    && ManifestOf(s.head).schema == TheSchema(shards)
    && Flat(s.log) == logged
  }

  lemma CalmWrite(p: Params, s: State, a: Actor, name: Name, token: Token, shards: nat, logged: seq<Record>, r: Record)
    returns (t: State)
    requires Calm(s, shards, logged) && (r == Delete(THE_ID) || r == Upsert(THE_DOC))
    requires a !in s.actors && name !in s.stored && token !in s.seen
    ensures t == Run(p, s, WriteEvents(a, NextCall(r), name, token)) &&
      GuardedRun(p, s, WriteEvents(a, NextCall(r), name, token))
    ensures Written(p, s, t, a, NextCall(r), name, token, TheSchema(shards), [r])
    ensures Calm(t, shards, logged + [r])
  {
    hide PrepareCall, Run, GuardedRun;
    NextPrepares(p, s.head, shards, r);
    t := WriteRun(p, s, a, NextCall(r), name, token, TheSchema(shards), [r]);
    FlatConcat(s.log, [Commit(a, name, [r])]);
    assert Flat([Commit(a, name, [r])]) == [r] + Flat([Commit(a, name, [r])][1..]);
  }

  function CompactEvents(a: Actor, shards: nat, token: Token): seq<Event> {
    LoadEvents(a) + PutEvents(a, 0, shards) + CommitEvents(a, token)
  }

  /** A whole compaction of an empty live set. */
  lemma CalmCompact(p: Params, s: State, a: Actor, token: Token, shards: nat, logged: seq<Record>) returns (t: State)
    requires Calm(s, shards, logged) && a !in s.actors && token !in s.seen && 1 <= shards
    requires ManifestOf(s.head).wal != []
    requires Holds(s.objects, SegmentNames(ManifestOf(s.head).shards)) &&
      Holds(s.objects, WalNames(ManifestOf(s.head).wal))
    requires LiveOf(s.objects, ManifestOf(s.head)) == map[]
    ensures t == Run(p, s, CompactEvents(a, shards, token)) && GuardedRun(p, s, CompactEvents(a, shards, token))
    ensures CompactedBy(s, t, a, NewJobOf(s).(built := EmptyShards(shards)), token)
    ensures Calm(t, shards, logged) && ManifestOf(t.head).shards == EmptyShards(shards)
  {
    hide LiveOf, Step, Holds, GuardedRun, Retain;
    var job := NewJobOf(s);
    LoadRun(p, s, a);
    var s1 := Become(s, a, CompactBuilding(job));
    EmptyPutsRun(p, s1, a, 0, shards, job);
    var done := job.(built := EmptyShards(shards));
    var s2 := Become(s, a, CompactBuilding(done));
    assert s1.actors[a := CompactBuilding(done)] == s2.actors;
    assert Run(p, s1, PutEvents(a, 0, shards)) == s2;
    t := CommitRun(p, s2, a, done, token);
    assert s2.actors[a := CompactDone(Compacted(|s.epochs|))] == s.actors[a := CompactDone(Compacted(|s.epochs|))];
    RunConcat(p, s, LoadEvents(a), PutEvents(a, 0, shards));
    RunConcat(p, s, LoadEvents(a) + PutEvents(a, 0, shards), CommitEvents(a, token));
    PutsArePlain(a, 0, shards);
    PlainIsGuarded(p, s, LoadEvents(a) + PutEvents(a, 0, shards));
    GuardedConcat(p, s, LoadEvents(a) + PutEvents(a, 0, shards), CommitEvents(a, token));
  }

  lemma ReadOne(objects: map<Name, Object>, name: Name)
    requires name in objects
    ensures ReadObjects(objects, [name]) == objects[name].records
  {
    assert ReadObjects(objects, [name]) == objects[name].records + ReadObjects(objects, [name][1..]);
    assert ReadObjects(objects, [name][1..]) == [];
  }

  lemma ReplayOne(live: Live, r: Record)
    ensures Replay(live, [r]) == Apply(live, r)
  {
    assert Replay(live, [r]) == Replay(Apply(live, r), [r][1..]);
  }

  /** A namespace whose compacted shards are all empty, with at most two WAL entries behind them. */
  lemma EmptyBaseReads(objects: map<Name, Object>, m: Manifest, shards: nat, a: seq<Name>)
    requires m.shards == [] || m.shards == EmptyShards(shards)
    requires WalNames(m.wal) == a && 1 <= |a| <= 2 && forall n | n in a :: n in objects
    ensures Holds(objects, SegmentNames(m.shards)) && Holds(objects, WalNames(m.wal))
    ensures AllRecords(objects, m) == objects[a[0]].records + if |a| == 1 then [] else objects[a[1]].records
  {
    EmptyShardsNameNothing(shards);
    if |a| == 1 {
      assert a == [a[0]];
      ReadOne(objects, a[0]);
    } else {
      assert a == [a[0]] + [a[1]];
      ReadConcat(objects, [a[0]], [a[1]]);
      ReadOne(objects, a[0]);
      ReadOne(objects, a[1]);
    }
  }

  lemma StoryMeans()
    ensures Replay(map[], [Delete(THE_ID)]) == map[]
    ensures Replay(map[], [Upsert(THE_DOC)] + [Delete(THE_ID)]) == map[]
    ensures Replay(map[], [Delete(THE_ID)] + [Upsert(THE_DOC)]) == map[THE_ID := THE_DOC]
    ensures Replay(map[], [Delete(THE_ID)] + [Upsert(THE_DOC)] + [Delete(THE_ID)]) == map[]
  {
    var d, u := Delete(THE_ID), Upsert(THE_DOC);
    ReplayOne(map[], d);
    ReplayOne(map[], u);
    ReplayOne(map[THE_ID := THE_DOC], d);
    ReplayConcat(map[], [u], [d]);
    ReplayConcat(map[], [d], [u]);
    ReplayConcat(map[], [d] + [u], [d]);
  }

  /** Act one: a write fixes the shard count, and a compaction of the empty live set leaves empty
      shards. */
  lemma ActOne(p: Params, shards: nat) returns (events: seq<Event>, s: State)
    requires 1 <= shards <= 256
    ensures s == Run(p, INIT, events) && GuardedRun(p, INIT, events)
    ensures Calm(s, shards, [Delete(THE_ID)]) && ManifestOf(s.head).shards == EmptyShards(shards) &&
      ManifestOf(s.head).wal == []
    ensures s.actors.Keys == {1, 2} && s.stored.Keys == {1} && s.seen.Keys == {1, 2} && |s.log| == 1
  {
    hide Step, LiveOf, PrepareCall;
    FirstPrepares(p, shards);
    StoryMeans();
    var e1, e2 := WriteEvents(1, FirstCall(shards), 1, 1), CompactEvents(2, shards, 2);
    var s1 := WriteRun(p, INIT, 1, FirstCall(shards), 1, 1, TheSchema(shards), [Delete(THE_ID)]);
    var m := ManifestOf(s1.head);
    assert Flat(s1.log) == [Delete(THE_ID)] by {
      assert Flat(s1.log) == s1.log[0].records + Flat(s1.log[1..]);
    }
    assert Calm(s1, shards, [Delete(THE_ID)]);
    EmptyBaseReads(s1.objects, m, shards, [1]);
    ReadsTo(s1.objects, m, [Delete(THE_ID)]);
    s := CalmCompact(p, s1, 2, 2, shards, [Delete(THE_ID)]);
    RetainNone(m.wal);
    events := e1 + e2;
    RunConcat(p, INIT, e1, e2);
    GuardedConcat(p, INIT, e1, e2);
  }

  lemma ReadsTo(objects: map<Name, Object>, m: Manifest, records: seq<Record>)
    requires AllRecords(objects, m) == records
    ensures LiveOf(objects, m) == Replay(map[], records)
  {
  }

  lemma RetainNone(wal: seq<WalEntry>)
    ensures Retain(wal, WalNames(wal)) == []
  {
    forall i | 0 <= i < |wal| ensures wal[i].name in WalNames(wal) {
      assert WalNames(wal)[i] == wal[i].name;
    }
    RetainSuffix(wal, [], WalNames(wal));
    assert wal + [] == wal;
  }

  /** Act two: a document arrives, and a compactor reads it and writes its segments, then pauses. */
  lemma ActTwo(p: Params, s: State, shards: nat) returns (events: seq<Event>, t: State, job: Job)
    requires 1 <= shards <= 256
    requires Calm(s, shards, [Delete(THE_ID)]) && ManifestOf(s.head).shards == EmptyShards(shards) &&
      ManifestOf(s.head).wal == []
    requires s.actors.Keys == {1, 2} && s.stored.Keys == {1} && s.seen.Keys == {1, 2} && |s.log| == 1
    ensures t == Run(p, s, events) && NoCompactCas(events)
    ensures Calm(t, shards, [Delete(THE_ID)] + [Upsert(THE_DOC)])
    ensures t.actors.Keys == {1, 2, 3, 4} && t.actors[4] == CompactBuilding(job)
    ensures |t.log| == 2 && job.upTo == 2 && job.handle == 0 && job.base == ManifestOf(t.head) && |job.built| == shards
    ensures job.firstPut.None? || job.firstPut == Some(t.clock)
    ensures job.base.shards == EmptyShards(shards) && WalNames(job.base.wal) == [3]
    ensures 3 in t.stored && t.stored[3].records == [Upsert(THE_DOC)] && 5 !in t.stored && t.seen.Keys == {1, 2, 3}
  {
    hide Calm, Run, EmptyShards, WalNames;
    var e1, s1 := Arrives(p, s, shards);
    var e2;
    e2, t, job := Pauses(p, s1, shards);
    events := e1 + e2;
    RunConcat(p, s, e1, e2);
  }

  lemma Arrives(p: Params, s: State, shards: nat) returns (events: seq<Event>, t: State)
    requires 1 <= shards <= 256
    requires Calm(s, shards, [Delete(THE_ID)]) && ManifestOf(s.head).shards == EmptyShards(shards) &&
      ManifestOf(s.head).wal == []
    requires s.actors.Keys == {1, 2} && s.stored.Keys == {1} && s.seen.Keys == {1, 2} && |s.log| == 1
    ensures t == Run(p, s, events) && NoCompactCas(events) && Calm(t, shards, [Delete(THE_ID)] + [Upsert(THE_DOC)])
    ensures t.actors.Keys == {1, 2, 3} && |t.log| == 2 && ManifestOf(t.head).shards == EmptyShards(shards)
    ensures WalNames(ManifestOf(t.head).wal) == [3] && t.stored.Keys == {1, 3} &&
      t.stored[3].records == [Upsert(THE_DOC)]
    ensures t.seen.Keys == {1, 2, 3}
  {
    hide Step, LiveOf, PrepareCall, GuardedRun, Run;
    events := WriteEvents(3, NextCall(Upsert(THE_DOC)), 3, 3);
    t := CalmWrite(p, s, 3, 3, 3, shards, [Delete(THE_ID)], Upsert(THE_DOC));
  }

  lemma Pauses(p: Params, s: State, shards: nat) returns (events: seq<Event>, t: State, job: Job)
    requires 1 <= shards <= 256 && Calm(s, shards, [Delete(THE_ID)] + [Upsert(THE_DOC)])
    requires s.actors.Keys == {1, 2, 3} && |s.log| == 2 && ManifestOf(s.head).shards == EmptyShards(shards)
    requires WalNames(ManifestOf(s.head).wal) == [3] && s.stored.Keys == {1, 3} &&
      s.stored[3].records == [Upsert(THE_DOC)]
    requires s.seen.Keys == {1, 2, 3}
    ensures t == Run(p, s, events) && NoCompactCas(events)
    ensures Calm(t, shards, [Delete(THE_ID)] + [Upsert(THE_DOC)])
    ensures t.actors.Keys == {1, 2, 3, 4} && t.actors[4] == CompactBuilding(job)
    ensures |t.log| == 2 && job.upTo == 2 && job.handle == 0 && job.base == ManifestOf(t.head) && |job.built| == shards
    ensures job.firstPut.None? || job.firstPut == Some(t.clock)
    ensures job.base.shards == EmptyShards(shards) && WalNames(job.base.wal) == [3]
    ensures 3 in t.stored && t.stored[3].records == [Upsert(THE_DOC)] && 5 !in t.stored && t.seen.Keys == {1, 2, 3}
  {
    hide Step, LiveOf, PrepareCall, GuardedRun, Run;
    EmptyBaseReads(s.objects, ManifestOf(s.head), shards, [3]);
    LoadRun(p, s, 4);
    var s2 := Become(s, 4, CompactBuilding(NewJobOf(s)));
    t, job := PutsRun(p, s2, 4, 10, shards, NewJobOf(s));
    events := LoadEvents(4) + PutEvents(4, 10, shards);
    RunConcat(p, s, LoadEvents(4), PutEvents(4, 10, shards));
    PutsArePlain(4, 10, shards);
  }

  /** Act three: the document is deleted, and another compaction commits empty shards again. */
  lemma ActThree(p: Params, s: State, shards: nat, job: Job) returns (events: seq<Event>, t: State)
    requires 1 <= shards <= 256
    requires Calm(s, shards, [Delete(THE_ID)] + [Upsert(THE_DOC)])
    requires s.actors.Keys == {1, 2, 3, 4} && s.actors[4] == CompactBuilding(job) && job.base == ManifestOf(s.head)
    requires job.base.shards == EmptyShards(shards) && WalNames(job.base.wal) == [3]
    requires 3 in s.stored && s.stored[3].records == [Upsert(THE_DOC)] && 5 !in s.stored && s.seen.Keys == {1, 2, 3}
    requires |s.log| == 2
    ensures t == Run(p, s, events) && GuardedRun(p, s, events)
    ensures Calm(t, shards, [Delete(THE_ID)] + [Upsert(THE_DOC)] + [Delete(THE_ID)])
    ensures ManifestOf(t.head).shards == EmptyShards(shards) && ManifestOf(t.head).wal == []
    ensures 4 in t.actors && t.actors[4] == CompactBuilding(job) && t.clock == s.clock
    ensures |t.log| >= 2 && t.log[..2] == s.log && 7 !in t.seen
  {
    hide Step, LiveOf, PrepareCall, GuardedRun, Run, Replay, EmptyShards, Flat, Retain, Holds;
    var told := [Delete(THE_ID)] + [Upsert(THE_DOC)];
    var e1, e2 := WriteEvents(5, NextCall(Delete(THE_ID)), 5, 5), CompactEvents(6, shards, 6);
    var s1 := CalmWrite(p, s, 5, 5, 5, shards, told, Delete(THE_ID));
    var m := ManifestOf(s1.head);
    assert WalNames(m.wal) == [3, 5] by {
      assert m.wal == job.base.wal + [WalEntry(5, p.blobLen([Delete(THE_ID)]), 1)];
      assert WalNames(job.base.wal)[0] == job.base.wal[0].name;
    }
    EmptyBaseReads(s1.objects, m, shards, [3, 5]);
    ReadsTo(s1.objects, m, [Upsert(THE_DOC)] + [Delete(THE_ID)]);
    StoryMeans();
    t := CalmCompact(p, s1, 6, 6, shards, told + [Delete(THE_ID)]);
    RetainNone(m.wal);
    events := e1 + e2;
    RunConcat(p, s, e1, e2);
    GuardedConcat(p, s, e1, e2);
  }

  // ------------------------------------------------------------ the exact condition

  /** A compaction about to commit from a base whose shard list is `shards`. */
  predicate Committing(s: State, a: Actor, shards: seq<Shard>) {
    a in s.actors && s.actors[a].CompactReloaded? && s.actors[a].job.base.shards == shards
  }

  /** Whatever guarded run led there, such a commit leaves the live set equal to the log. */
  ghost predicate BaseIsSafe(p: Params, shards: seq<Shard>) {
    forall events: seq<Event>, a, token | GuardedRun(p, INIT, events) && Committing(Run(p, INIT, events), a, shards) ::
      var t := DoCompactCas(p, Run(p, INIT, events), a, token);
      LiveOf(t.stored, ManifestOf(t.head)) == Truth(t.log)
  }

  lemma AnchoredBaseIsSafe(p: Params, shards: seq<Shard>)
    requires Anchored(shards)
    ensures BaseIsSafe(p, shards)
  {
    hide Step, Inv, DoCompactCas, LiveOf, Truth, Anchored;
    forall events: seq<Event>, a, token | GuardedRun(p, INIT, events) && Committing(Run(p, INIT, events), a, shards)
      ensures var t := DoCompactCas(p, Run(p, INIT, events), a, token);
        LiveOf(t.stored, ManifestOf(t.head)) == Truth(t.log)
    {
      var s := Run(p, INIT, events);
      InitInv(p);
      RunKeeps(p, INIT, events);
      KeepsCompactCas(p, s, a, token);
      var t := DoCompactCas(p, s, a, token);
      StoreFacts(p, t);
      HeadBacked(p, t);
      BackedMeansPrefix(p, t, ManifestOf(t.head));
    }
  }

  /** The paused compactor commits from its stale base, and the deleted document is back. */
  lemma StaleCommitResurrects(p: Params, s: State, shards: nat, job: Job) returns (t: State)
    requires Inv(p, s) && Calm(s, shards, [Delete(THE_ID)] + [Upsert(THE_DOC)] + [Delete(THE_ID)])
    requires ManifestOf(s.head).wal == [] && job.upTo == 2 && |s.log| >= 2 &&
      Flat(s.log[..2]) == [Delete(THE_ID)] + [Upsert(THE_DOC)]
    requires 4 in s.actors && s.actors[4] == CompactReloaded(job, s.head) && |job.built| == job.base.schema.Shards()
    requires job.firstPut.None? || job.firstPut == Some(s.clock)
    requires 7 !in s.seen
    ensures t == DoCompactCas(p, s, 4, 7)
    ensures LiveOf(t.stored, ManifestOf(t.head)) == map[THE_ID := THE_DOC] && Truth(t.log) == map[]
  {
    hide Inv, JobOk;
    t := DoCompactCas(p, s, 4, 7);
    JobPhase(p, s, 4);
    JobReplays(p, s, 4, job);
    StoryMeans();
    var m := ManifestOf(t.head);
    assert m == Folded(ManifestOf(s.head), job) && m.wal == [];
    assert AllRecords(t.stored, m) == ReadObjects(s.stored, SegmentNames(job.built)) + [];
    assert AllRecords(t.stored, m) == ReadObjects(s.stored, SegmentNames(job.built));
  }

  lemma EmptyBaseIsUnsafe(p: Params, shards: nat)
    requires 1 <= shards <= 256
    ensures !BaseIsSafe(p, EmptyShards(shards))
  {
    hide Step, Inv, DoCompactCas, LiveOf, Truth, JobOk, BaseIsSafe, GuardedRun;
    var e1, s1 := ActOne(p, shards);
    var e2, s2, job := ActTwo(p, s1, shards);
    var e3, s3 := ActThree(p, s2, shards, job);
    var e4 := [CompactReload(4)];
    ReloadRun(p, s3, 4, job);
    var s4 := Become(s3, 4, CompactReloaded(job, s3.head));
    LastStep(p, s3, job);
    PlainIsGuarded(p, s1, e2);
    PlainIsGuarded(p, s3, e4);
    RunConcat(p, INIT, e1, e2);
    GuardedConcat(p, INIT, e1, e2);
    RunConcat(p, INIT, e1 + e2, e3);
    GuardedConcat(p, INIT, e1 + e2, e3);
    RunConcat(p, INIT, e1 + e2 + e3, e4);
    GuardedConcat(p, INIT, e1 + e2 + e3, e4);
    var events := e1 + e2 + e3 + e4;
    InitInv(p);
    RunKeeps(p, INIT, events);
    var t := StaleCommitResurrects(p, s4, shards, job);
    assert map[THE_ID := THE_DOC] != map[] by {
      assert THE_ID in map[THE_ID := THE_DOC];
    }
    Unsafe(p, events, 4, 7, EmptyShards(shards));
  }

  lemma LastStep(p: Params, s: State, job: Job)
    requires 4 in s.actors && s.actors[4] == CompactBuilding(job)
    requires DoCompactReload(s, 4) == Become(s, 4, CompactReloaded(job, s.head))
    ensures Run(p, s, [CompactReload(4)]) == Become(s, 4, CompactReloaded(job, s.head))
  {
    assert [CompactReload(4)][1..] == [];
    assert Run(p, Step(p, s, CompactReload(4)), [CompactReload(4)][1..]) == Step(p, s, CompactReload(4));
  }

  lemma Unsafe(p: Params, events: seq<Event>, a: Actor, token: Token, shards: seq<Shard>)
    requires GuardedRun(p, INIT, events) && Committing(Run(p, INIT, events), a, shards)
    requires var t := DoCompactCas(p, Run(p, INIT, events), a, token);
      LiveOf(t.stored, ManifestOf(t.head)) != Truth(t.log)
    ensures !BaseIsSafe(p, shards)
  {
    hide Step, DoCompactCas, LiveOf, Truth, GuardedRun, Run;
  }

  /** The shard-list comparison protects a compaction if and only if its base list is anchored: empty,
      or naming a segment. For every list of empty shards that a compaction can leave behind there is
      a run in which the comparison passes and a deleted document comes back. */
  lemma StaleCheckIsExact(p: Params, shards: seq<Shard>)
    requires || shards == [] || (exists x | x in shards :: x.segments != [])
             || (|shards| <= 256 && forall x | x in shards :: x == Shard([], None))
    ensures BaseIsSafe(p, shards) <==> shards == [] || exists x | x in shards :: x.segments != []
  {
    hide BaseIsSafe;
    if shards == [] {
      AnchoredBaseIsSafe(p, shards);
    } else if x :| x in shards && x.segments != [] {
      var i :| 0 <= i < |shards| && shards[i] == x;
      AnchoredBaseIsSafe(p, shards);
    } else {
      AllEmpty(shards);
      EmptyBaseIsUnsafe(p, |shards|);
    }
  }

  lemma {:induction false} AllEmpty(shards: seq<Shard>)
    requires forall x | x in shards :: x == EMPTY_SHARD
    ensures shards == EmptyShards(|shards|)
    decreases |shards|
  {
    if shards != [] {
      var n := |shards| - 1;
      assert forall x | x in shards[..n] :: x in shards;
      AllEmpty(shards[..n]);
      assert shards == shards[..n] + [shards[n]] && shards[n] in shards;
    }
  }
}
