/** The schema over whole runs: nothing declared ever changes, and everything stored obeys it. */
module Typing {
  import opened Wrappers
  import opened Values
  import opened Records
  import opened Schemas
  import opened Protocol
  import opened Safety
  import opened Runs

  function HeadSchema(s: State): Schema {
    ManifestOf(s.head).schema
  }

  /** A manifest has no shards yet, one shard, or as many as its schema says. */
  predicate Shape(m: Manifest) {
    m.shards == [] || |m.shards| == 1 || |m.shards| == m.schema.Shards()
  }

  predicate BaseTyped(s: State, base: Manifest) {
    Grows(base.schema, HeadSchema(s))
  }

  predicate PhaseTyped(s: State, phase: Phase) {
    match phase
    case CompactBased(_, _, loaded, _) => BaseTyped(s, loaded)
    case CompactBuilding(job) => BaseTyped(s, job.base)
    case CompactReloaded(job, _) => BaseTyped(s, job.base)
    case _ => true
  }

  predicate PhasesTyped(s: State) {
    forall a | a in s.actors :: PhaseTyped(s, s.actors[a])
  }

  predicate SeenTyped(s: State) {
    forall k | k in s.seen :: Grows(s.seen[k].schema, HeadSchema(s)) && Shape(s.seen[k])
  }

  predicate Typed(s: State) {
    PhasesTyped(s) && SeenTyped(s) && Shape(ManifestOf(s.head)) && TypedBatch(HeadSchema(s), Flat(s.log))
  }

  lemma TypedBatchConcat(schema: Schema, a: seq<Record>, b: seq<Record>)
    requires TypedBatch(schema, a) && TypedBatch(schema, b)
    ensures TypedBatch(schema, a + b)
  {
  }

  lemma BatchLater(a: Schema, b: Schema, records: seq<Record>)
    requires Grows(a, b) && TypedBatch(a, records)
    ensures TypedBatch(b, records)
  {
    hide Grows, TypedRecord;
    forall i | 0 <= i < |records| ensures TypedRecord(b, records[i]) {
      TypedLater(a, b, records[i]);
    }
  }

  lemma GrowsSelf(a: Schema)
    ensures Grows(a, a)
  {
  }

  /** Nothing published, every moved actor typed. */
  lemma StillTyped(s: State, t: State)
    requires Typed(s) && t.head == s.head && t.seen == s.seen && t.log == s.log
    requires forall a | a in t.actors :: (a in s.actors && t.actors[a] == s.actors[a]) || PhaseTyped(t, t.actors[a])
    ensures Typed(t)
  {
    hide Grows, Shape, TypedBatch;
    forall a | a in t.actors ensures PhaseTyped(t, t.actors[a]) {
      if a in s.actors && t.actors[a] == s.actors[a] {
        assert PhaseTyped(s, s.actors[a]);
      }
    }
  }

  /** The one actor that moved is typed, so the state still is. */
  lemma MoveTyped(s: State, t: State, a: Actor)
    requires Typed(s) && OneMoves(s, t, a) && (a in t.actors ==> PhaseTyped(s, t.actors[a]))
    ensures Typed(t)
  {
    hide Typed, Grows;
    StillTyped(s, t);
  }

  lemma BeginTyped(s: State, a: Actor, h: Handle, build: bool)
    requires Typed(s)
    ensures Typed(DoBeginCompact(s, a, h, build))
  {
    hide Typed, OneMoves, Grows, NothingToDo;
    var t := DoBeginCompact(s, a, h, build);
    if t != s {
      CompactorMoves(s, a, h, build);
      GrowsSelf(HeadSchema(s));
      MoveTyped(s, t, a);
    }
  }

  lemma ReadTyped(s: State, a: Actor)
    requires Typed(s)
    ensures Typed(DoCompactRead(s, a))
  {
    hide OneMoves, Grows, LiveOf, Holds, TypedBatch, SeenTyped, Shape;
    var t := DoCompactRead(s, a);
    if t != s {
      CompactorMoves(s, a, 0, false);
      assert PhaseTyped(s, s.actors[a]);
      MoveTyped(s, t, a);
    }
  }

  lemma ReloadTyped(s: State, a: Actor)
    requires Typed(s)
    ensures Typed(DoCompactReload(s, a))
  {
    hide OneMoves, Grows, TypedBatch, SeenTyped, Shape;
    var t := DoCompactReload(s, a);
    if t != s {
      CompactorMoves(s, a, 0, false);
      assert PhaseTyped(s, s.actors[a]);
      MoveTyped(s, t, a);
    }
  }

  lemma PutTyped(p: Params, s: State, a: Actor, segment: Name, index: seq<Name>)
    requires Typed(s)
    ensures Typed(DoCompactPut(p, s, a, segment, index))
  {
    hide Grows, NextBucket, FreshNames, ShardObjects, Typed;
    var t := DoCompactPut(p, s, a, segment, index);
    if t != s {
      JobTyped(s, a);
      var job := s.actors[a].job;
      assert t.actors[a].job.base == job.base;
      StillTyped(s, t);
    }
  }

  lemma JobTyped(s: State, a: Actor)
    requires Typed(s) && a in s.actors && (s.actors[a].CompactBuilding? || s.actors[a].CompactReloaded?)
    ensures BaseTyped(s, s.actors[a].job.base)
  {
    hide TypedBatch, SeenTyped, Shape, BaseTyped;
    assert PhaseTyped(s, s.actors[a]);
  }

  lemma PublishTyped(s: State, t: State, a: Actor, m: Manifest, token: Token)
    requires Typed(s) && Grows(HeadSchema(s), m.schema) && Shape(m)
    requires t.head == Some(Versioned(m, token)) && t.seen == s.seen[token := m]
    requires forall b | b in t.actors && b != a :: b in s.actors && t.actors[b] == s.actors[b]
    requires a in t.actors ==> t.actors[a].WriteDecided? || t.actors[a].CompactDecided?
    requires TypedBatch(m.schema, Flat(t.log))
    ensures Typed(t)
  {
    hide Grows, Shape, TypedBatch;
    forall b | b in t.actors ensures PhaseTyped(t, t.actors[b]) {
      if b != a {
        PhaseGrows(s, t, s.actors[b]);
      }
    }
    forall k | k in t.seen ensures Grows(t.seen[k].schema, HeadSchema(t)) && Shape(t.seen[k]) {
      if k == token {
        GrowsSelf(m.schema);
      } else {
        GrowsTransitive(s.seen[k].schema, HeadSchema(s), m.schema);
      }
    }
  }

  lemma PhaseGrows(s: State, t: State, phase: Phase)
    requires PhaseTyped(s, phase) && Grows(HeadSchema(s), HeadSchema(t))
    ensures PhaseTyped(t, phase)
  {
    hide Grows;
    match phase
    case CompactBased(_, _, loaded, _) => GrowsTransitive(loaded.schema, HeadSchema(s), HeadSchema(t));
    case CompactBuilding(job) => GrowsTransitive(job.base.schema, HeadSchema(s), HeadSchema(t));
    case CompactReloaded(job, _) => GrowsTransitive(job.base.schema, HeadSchema(s), HeadSchema(t));
    case _ =>
  }

  lemma CommitTypes(p: Params, s: State, c: Commit, call: Call, schema: Schema)
    requires Typed(s) && PrepareCall(p, s.head, call) == Ok((schema, c.records))
    ensures Grows(HeadSchema(s), schema) && TypedBatch(schema, Flat(s.log + [c]))
    ensures Shape(NextManifest(p, ManifestOf(s.head), c.name, c.records, schema))
  {
    hide Grows, TypedBatch, PhasesTyped, SeenTyped, Prepare;
    var m := ManifestOf(s.head);
    PrepareTypes(p.host, m.schema, m.HasData(), call.config, call.records);
    BatchLater(m.schema, schema, Flat(s.log));
    FlatConcat(s.log, [c]);
    assert Flat([c]) == c.records + Flat([c][1..]);
    assert c.records + [] == c.records;
    TypedBatchConcat(schema, Flat(s.log), c.records);
  }

  lemma WriterCasTyped(p: Params, s: State, a: Actor, token: Token)
    requires Inv(p, s) && Typed(s)
    ensures Typed(DoWriterCas(p, s, a, token))
  {
    hide Inv, Typed, PrepareCall, SeenOk, LogOk, EpochsOk, StoreOk, Grows, Shape, TypedBatch, BaseTyped;
    var t := DoWriterCas(p, s, a, token);
    if t != s {
      var ph := s.actors[a];
      if Unchanged(s.head, ph.base) {
        StoredPhase(p, s, a);
        StoreFacts(p, s);
        SameHead(s, ph.base);
        SamePrepare(p, s.head, ph.base, ph.call);
        CommitTypes(p, s, Commit(a, ph.name, ph.batch), ph.call, ph.schema);
        PublishTyped(s, t, a, NextManifest(p, ManifestOf(s.head), ph.name, ph.batch, ph.schema), token);
      } else {
        assert forall b | b in t.actors :: (b in s.actors && t.actors[b] == s.actors[b]) || PhaseTyped(t, t.actors[b]);
        StillTyped(s, t);
      }
    }
  }

  lemma SamePrepare(p: Params, a: Option<Versioned>, b: Option<Versioned>, call: Call)
    requires ManifestOf(a) == ManifestOf(b)
    ensures PrepareCall(p, a, call) == PrepareCall(p, b, call)
  {
  }

  lemma FoldTyped(s: State, job: Job)
    requires Typed(s) && BaseTyped(s, job.base) && |job.built| == job.base.schema.Shards()
    ensures Shape(Folded(ManifestOf(s.head), job)) && Folded(ManifestOf(s.head), job).schema == HeadSchema(s)
  {
    hide TypedBatch, PhasesTyped, SeenTyped;
  }

  lemma CompactCasTyped(p: Params, s: State, a: Actor, token: Token)
    requires Inv(p, s) && Typed(s)
    ensures Typed(DoCompactCas(p, s, a, token))
  {
    hide Inv, Folded, JobOk, LogOk, EpochsOk, SeenOk, StoreOk, HeadOk, PhaseOk, Shape, TypedBatch, Typed, BaseTyped,
      Grows;
    var t := DoCompactCas(p, s, a, token);
    if t != s {
      var ph := s.actors[a];
      JobTyped(s, a);
      if Unchanged(s.head, ph.current) {
        ReloadedFacts(p, s, a);
        StoreFacts(p, s);
        SameHead(s, ph.current);
        FoldTyped(s, ph.job);
        GrowsSelf(HeadSchema(s));
        TypedFacts(s);
        PublishTyped(s, t, a, Folded(ManifestOf(s.head), ph.job), token);
      } else {
        RetryTyped(s, t, a);
      }
    }
  }

  lemma TypedFacts(s: State)
    requires Typed(s)
    ensures TypedBatch(HeadSchema(s), Flat(s.log))
  {
    hide TypedBatch, PhasesTyped, SeenTyped, Shape;
  }

  lemma RetryTyped(s: State, t: State, a: Actor)
    requires Typed(s) && a in s.actors && s.actors[a].CompactReloaded?
    requires var job := s.actors[a].job;
      t == Become(s, a, CompactDone(Lost)) || t == Become(s, a, CompactBuilding(job.(attempt := job.attempt + 1)))
    ensures Typed(t)
  {
    hide Typed, BaseTyped;
    JobTyped(s, a);
    BaseSame(s, t, s.actors[a].job.base);
    StillTyped(s, t);
  }

  lemma BaseSame(s: State, t: State, base: Manifest)
    requires BaseTyped(s, base) && t.head == s.head
    ensures BaseTyped(t, base)
  {
  }

  lemma SimpleTyped(p: Params, s: State, e: Event)
    requires Typed(s)
    requires e.BeginWrite? || e.WriterLoad? || e.ReaderGet? || e.ReaderRemember? || e.GcLoad? || e.GcCutoff?
    ensures Typed(Step(p, s, e))
  {
    hide Typed, OneMoves, Referenced, BaseTyped;
    var t := Step(p, s, e);
    MovesOneActor(p, s, e);
    if t != s {
      MoveTyped(s, t, e.a);
    }
  }

  lemma ReplyTyped(p: Params, s: State, e: Event)
    requires Typed(s) && (e.CasReply? || e.Crash?)
    ensures Typed(Step(p, s, e))
  {
    hide Typed, OneMoves, BaseTyped, Step;
    MovesOneActor(p, s, e);
    ReplyEnds(p, s, e);
    if Step(p, s, e) != s {
      MoveTyped(s, Step(p, s, e), e.a);
    }
  }

  lemma WorldTyped(p: Params, s: State, e: Event)
    requires Typed(s) && (e.Tick? || e.GcDelete?)
    ensures Typed(Step(p, s, e))
  {
    hide Typed, PhaseTyped;
    StillTyped(s, Step(p, s, e));
  }

  lemma WriterPutTyped(p: Params, s: State, a: Actor, name: Name)
    requires Typed(s)
    ensures Typed(DoWriterPut(p, s, a, name))
  {
    hide PrepareCall, Typed, BaseTyped, DoWriterPut;
    if DoWriterPut(p, s, a, name) != s {
      WriterPutForms(p, s, a, name);
      StillTyped(s, DoWriterPut(p, s, a, name));
    }
  }

  lemma StepTyped(p: Params, s: State, e: Event)
    requires Inv(p, s) && Typed(s)
    ensures Typed(Step(p, s, e))
  {
    hide Inv, Typed, DoWriterPut, DoWriterCas, DoWriterLoad, DoBeginCompact, DoCompactRead, DoCompactPut,
        DoCompactReload, DoCompactCas;
    match e
    case WriterPut(a, name) => WriterPutTyped(p, s, a, name);
    case WriterCas(a, token) => WriterCasTyped(p, s, a, token);
    case CompactPut(a, segment, index) => PutTyped(p, s, a, segment, index);
    case CompactCas(a, token) => CompactCasTyped(p, s, a, token);
    case BeginCompact(a, h, build) => BeginTyped(s, a, h, build);
    case CompactRead(a) => ReadTyped(s, a);
    case CompactReload(a) => ReloadTyped(s, a);
    case CasReply(_, _) => ReplyTyped(p, s, e);
    case Crash(_) => ReplyTyped(p, s, e);
    case Tick => WorldTyped(p, s, e);
    case GcDelete(_, _) => WorldTyped(p, s, e);
    case _ => SimpleTyped(p, s, e);
  }

  lemma {:induction false} RunTyped(p: Params, s: State, events: seq<Event>)
    requires Inv(p, s) && Typed(s) && GuardedRun(p, s, events)
    ensures Typed(Run(p, s, events))
    decreases |events|
  {
    hide Inv, Typed, Step, Guarded;
    if events != [] {
      StepKeeps(p, s, events[0]);
      StepTyped(p, s, events[0]);
      RunTyped(p, Step(p, s, events[0]), events[1..]);
    }
  }

  /** In every reachable state every committed record, and every live document, has attribute types,
      id type and vector dimension as the current manifest's schema declares them; and the shard list
      is empty, a single shard, or as long as the schema's count. */
  lemma StoredDataIsTyped(p: Params, events: seq<Event>)
    requires GuardedRun(p, INIT, events)
    ensures var s := Run(p, INIT, events);
      && TypedBatch(HeadSchema(s), Flat(s.log))
      && TypedLive(HeadSchema(s), Truth(s.log))
      && Shape(ManifestOf(s.head))
  {
    hide Inv, Step;
    var s := Run(p, INIT, events);
    InitInv(p);
    assert Typed(INIT);
    RunTyped(p, INIT, events);
    ReplayTyped(HeadSchema(s), map[], Flat(s.log));
  }

  /** In every reachable state every live document has the declared id type, the declared dimension if it has a
      vector, finite numbers in it, and values of the declared types. */
  lemma LiveDataFits(p: Params, events: seq<Event>, id: Id)
    requires GuardedRun(p, INIT, events) && id in Truth(Run(p, INIT, events).log)
    ensures var s := Run(p, INIT, events);
      var schema, d := HeadSchema(s), Truth(s.log)[id];
      && schema.idType == Some(IdTypeOf(d.id))
      && (d.vector != [] ==> schema.dim == Some(|d.vector|)) && (forall f | f in d.vector :: IsFinite(f))
      && (forall k | k in d.attrs && d.attrs[k] != Null ::
            k in schema.attributes && TypeOf(d.attrs[k]) == Some(schema.attributes[k]))
  {
    hide Run, GuardedRun, Truth, TypedBatch;
    StoredDataIsTyped(p, events);
    assert TypedDoc(HeadSchema(Run(p, INIT, events)), Truth(Run(p, INIT, events).log)[id]);
  }

  /** In every reachable state the manifest has no shards, one, or exactly as many as the schema declares. */
  lemma ShardsAreDeclared(p: Params, events: seq<Event>)
    requires GuardedRun(p, INIT, events)
    ensures var m := ManifestOf(Run(p, INIT, events).head);
      |m.shards| <= 1 || m.schema.numShards == Some(|m.shards|)
  {
    hide Run, GuardedRun, TypedBatch, TypedLive;
    StoredDataIsTyped(p, events);
  }

  /** No declaration is ever changed or dropped, by any later run, re-absorbed batches included. */
  lemma DeclarationsAreFinal(p: Params, events: seq<Event>, later: seq<Event>)
    requires GuardedRun(p, INIT, events + later)
    ensures Grows(HeadSchema(Run(p, INIT, events)), HeadSchema(Run(p, INIT, events + later)))
    ensures var a, b := HeadSchema(Run(p, INIT, events)), HeadSchema(Run(p, INIT, events + later));
      && (forall k | k in a.attributes :: k in b.attributes && b.attributes[k] == a.attributes[k])
      && (forall k | k in a.fts :: k in b.fts && b.fts[k] == a.fts[k])
      && (forall k | k in a.embed :: k in b.embed && b.embed[k] == a.embed[k])
      && (a.idType.Some? ==> b.idType == a.idType) && (a.dim.Some? ==> b.dim == a.dim)
      && (a.numShards.Some? ==> b.numShards == a.numShards)
  {
    DeclarationsGrow(p, events, later);
    hide Run, GuardedRun;
  }

  lemma DeclarationsGrow(p: Params, events: seq<Event>, later: seq<Event>)
    requires GuardedRun(p, INIT, events + later)
    ensures Grows(HeadSchema(Run(p, INIT, events)), HeadSchema(Run(p, INIT, events + later)))
  {
    hide Inv, Step, Grows;
    GuardedConcat(p, INIT, events, later);
    RunConcat(p, INIT, events, later);
    var s := Run(p, INIT, events);
    InitInv(p);
    assert Typed(INIT);
    RunTyped(p, INIT, events);
    RunKeeps(p, INIT, events);
    RunTyped(p, s, later);
    RunLater(p, s, later);
    var t := Run(p, s, later);
    HeadKnown(p, s);
    if s.head.Some? {
      assert t.seen[s.head.value.token] == s.head.value.manifest;
      SeenGrowsTo(t, s.head.value.token);
    } else {
      EmptyGrows(HeadSchema(t));
    }
  }

  lemma SeenGrowsTo(t: State, k: Token)
    requires Typed(t) && k in t.seen
    ensures Grows(t.seen[k].schema, HeadSchema(t))
  {
    hide Grows;
  }

  lemma EmptyGrows(schema: Schema)
    ensures Grows(EMPTY_SCHEMA, schema)
  {
  }
}
