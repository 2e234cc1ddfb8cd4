/** Garbage collection against in-flight writers and compactors (src/store.rs). */
module Collection {
  import opened Wrappers
  import opened Records
  import opened Schemas
  import opened Protocol
  import opened Safety
  import opened Runs

  function BuiltNames(built: seq<Shard>): seq<Name> {
    SegmentNames(built) + IndexNames(built)
  }

  /** Everything a running compaction has written is still there, or its deadline has passed. */
  predicate JobKept(p: Params, s: State, job: Job) {
    forall n | n in BuiltNames(job.built) ::
      && n in s.stored && job.firstPut.Some? && job.firstPut.value <= s.stored[n].putAt
      && (n in s.objects || !InTime(p, s, job.firstPut.value))
  }

  predicate WriteKept(p: Params, s: State, name: Name) {
    name in s.stored && (name in s.objects || !InTime(p, s, s.stored[name].putAt))
  }

  /** What a collector may delete: nothing old and unreferenced at its load is referenced now. */
  predicate Sweepable(p: Params, s: State, refs: set<Name>, at0: nat) {
    at0 <= s.clock &&
    forall n | n in s.stored && n !in refs && s.stored[n].putAt + p.maxCommit < at0 ::
        n !in Referenced(ManifestOf(s.head))
  }

  predicate PhaseKept(p: Params, s: State, phase: Phase) {
    match phase
    case WriteBased(_, _, base) => Known(s, base)
    case WriteStored(_, _, base, name, _, _) => Known(s, base) && WriteKept(p, s, name)
    case WriteDecided(_, _, won) => Known(s, won)
    case ReadPending(_, got) => Known(s, Some(got))
    case CompactDecided(_, got, _) => Known(s, Some(got))
    case CompactBuilding(job) => JobKept(p, s, job) && (job.firstPut.Some? ==> job.firstPut.value <= s.clock)
    case CompactReloaded(job, current) =>
      JobKept(p, s, job) && Known(s, current) && (job.firstPut.Some? ==> job.firstPut.value <= s.clock)
    case GcLoaded(refs, at0) => Sweepable(p, s, refs, at0)
    case GcSweeping(refs, at0, cutoff) => Sweepable(p, s, refs, at0) && cutoff + p.maxCommit < at0
    case _ => true
  }

  predicate HeadKept(s: State) {
    forall n | n in Referenced(ManifestOf(s.head)) :: n in s.objects
  }

  /** Every object that `m` names is in the store, whatever it is named for. */
  predicate AllThere(objects: map<Name, Object>, m: Manifest) {
    && (forall i | 0 <= i < |m.wal| :: m.wal[i].name in objects)
    && (forall i, n | 0 <= i < |m.shards| && n in m.shards[i].segments :: n in objects)
    && (forall i, n | 0 <= i < |m.shards| && m.shards[i].index.Some? && n in m.shards[i].index.value :: n in objects)
  }

  lemma HeadIsThere(s: State)
    ensures HeadKept(s) <==> AllThere(s.objects, ManifestOf(s.head))
  {
    hide Referenced;
    var m := ManifestOf(s.head);
    forall n ensures n in Referenced(m) <==> Names(m, n) {
      ReferencedIsNamed(m, n);
    }
    if HeadKept(s) {
      forall i | 0 <= i < |m.wal| ensures m.wal[i].name in s.objects {
        assert Names(m, m.wal[i].name);
      }
      forall i, n | 0 <= i < |m.shards| && n in m.shards[i].segments ensures n in s.objects {
        assert Names(m, n);
      }
      forall i, n | 0 <= i < |m.shards| && m.shards[i].index.Some? && n in m.shards[i].index.value
        ensures n in s.objects
      {
        assert Names(m, n);
      }
    }
  }

  predicate StoreKept(s: State) {
    && Known(s, s.head)
    && (forall n | n in s.objects :: n in s.stored && s.stored[n] == s.objects[n])
    && (forall h | h in s.snapshots :: Known(s, Some(s.snapshots[h])))
  }

  predicate Kept(p: Params, s: State) {
    StoreKept(s) && HeadKept(s) && forall a | a in s.actors :: PhaseKept(p, s, s.actors[a])
  }

  // ------------------------------------------------------------ how phases carry over

  /** `t` continues `s`: time and history go on, objects named in flight survive, and only objects
      still in time became referenced. */
  predicate Carries(p: Params, s: State, t: State) {
    && s.clock <= t.clock
    && (forall n | n in s.stored :: n in t.stored && t.stored[n] == s.stored[n])
    && (forall n | n in t.stored && n !in s.stored :: t.stored[n].putAt == t.clock == s.clock)
    && (forall k | k in s.seen :: k in t.seen && t.seen[k] == s.seen[k])
    && (forall n | n in s.objects && n !in t.objects :: !InTime(p, t, s.objects[n].putAt))
    && (forall n | n in s.objects :: n in s.stored && s.stored[n] == s.objects[n])
    && (forall n | n in Referenced(ManifestOf(t.head)) && n !in Referenced(ManifestOf(s.head)) ::
        n in t.stored && InTime(p, t, t.stored[n].putAt))
  }

  lemma PhaseCarries(p: Params, s: State, t: State, phase: Phase)
    requires Carries(p, s, t) && PhaseKept(p, s, phase)
    ensures PhaseKept(p, t, phase)
  {
    hide Referenced, BuiltNames;
    match phase
    case CompactBuilding(job) => assert JobKept(p, t, job);
    case CompactReloaded(job, _) => assert JobKept(p, t, job);
    case GcLoaded(refs, at0) => assert Sweepable(p, t, refs, at0);
    case GcSweeping(refs, at0, _) => assert Sweepable(p, t, refs, at0);
    case _ =>
  }

  lemma CarryKeeps(p: Params, s: State, t: State, a: Actor)
    requires Kept(p, s) && Carries(p, s, t) && StoreKept(t) && HeadKept(t)
    requires forall b | b in t.actors && b != a :: b in s.actors && t.actors[b] == s.actors[b]
    requires a in t.actors ==> PhaseKept(p, t, t.actors[a])
    ensures Kept(p, t)
  {
    hide PhaseKept, Carries, StoreKept, HeadKept;
    forall b | b in t.actors ensures PhaseKept(p, t, t.actors[b]) {
      if b != a {
        PhaseCarries(p, s, t, s.actors[b]);
      }
    }
  }

  lemma KeptFacts(p: Params, s: State)
    requires Kept(p, s)
    ensures StoreKept(s) && HeadKept(s)
    ensures forall a | a in s.actors :: PhaseKept(p, s, s.actors[a])
  {
    hide PhaseKept, StoreKept, HeadKept;
  }

  lemma MoveKept(p: Params, s: State, h: Handle, v: Option<Versioned>, a: Actor, phase: Phase)
    requires Kept(p, s) && Known(s, v) && PhaseKept(p, s, phase)
    ensures Kept(p, Become(Remember(s, h, v), a, phase))
  {
    hide Kept, PhaseKept, Referenced;
    var t := Become(Remember(s, h, v), a, phase);
    KeptFacts(p, s);
    assert Carries(p, s, t);
    PhaseCarries(p, s, t, phase);
    CarryKeeps(p, s, t, a);
  }

  // ------------------------------------------------------------ the steps

  lemma WorldKept(p: Params, s: State)
    requires Kept(p, s)
    ensures Kept(p, s.(clock := s.clock + 1))
  {
    hide Kept, PhaseKept, Referenced;
    var t := s.(clock := s.clock + 1);
    KeptFacts(p, s);
    assert Carries(p, s, t);
    forall a | a in t.actors ensures PhaseKept(p, t, t.actors[a]) {
      PhaseCarries(p, s, t, s.actors[a]);
    }
    CarryKeeps(p, s, t, 0);
  }

  /** The one deletion: nothing the manifest names, nothing anyone can still commit. */
  lemma DeleteKept(p: Params, s: State, a: Actor, name: Name)
    requires Kept(p, s)
    ensures Kept(p, DoGcDelete(s, a, name))
    ensures AllThere(DoGcDelete(s, a, name).objects, ManifestOf(s.head))
  {
    hide Kept, Referenced;
    var t := DoGcDelete(s, a, name);
    if t != s {
      KeptFacts(p, s);
      assert PhaseKept(p, s, s.actors[a]);
      assert name !in Referenced(ManifestOf(s.head));
      assert Carries(p, s, t);
      forall b | b in t.actors ensures PhaseKept(p, t, t.actors[b]) {
        hide PhaseKept, Carries;
        PhaseCarries(p, s, t, s.actors[b]);
      }
      CarryKeeps(p, s, t, a);
    }
    HeadThere(p, t);
  }

  lemma HeadThere(p: Params, s: State)
    requires Kept(p, s)
    ensures AllThere(s.objects, ManifestOf(s.head))
  {
    hide HeadKept, PhaseKept;
    HeadIsThere(s);
  }

  lemma SimpleKept(p: Params, s: State, e: Event)
    requires Kept(p, s) && p.grace > p.maxCommit + p.maxLag
    requires e.BeginWrite? || e.ReaderGet? || e.ReaderRemember? || e.GcLoad? || e.GcCutoff?
    ensures Kept(p, Step(p, s, e))
  {
    hide Kept, Referenced, DoCompactPut, DoWriterCas, DoCompactCas, DoWriterPut, DoCompactReload, DoCompactRead,
        DoBeginCompact, Become, Remember;
    KeptFacts(p, s);
    NoRemember(s);
    if Step(p, s, e) != s {
      match e
      case BeginWrite(a, call) => MoveKept(p, s, 0, None, a, WriteStart(call, 1));
      case ReaderGet(a, h) => MoveKept(p, s, 0, None, a, ReadPending(h, s.head.value));
      case ReaderRemember(a) =>
        assert PhaseKept(p, s, s.actors[a]);
        MoveKept(p, s, s.actors[a].handle, Some(s.actors[a].got), a, Dead);
      case GcLoad(a, h) => MoveKept(p, s, h, s.head, a, GcLoaded(Referenced(ManifestOf(s.head)), s.clock));
      case GcCutoff(a) =>
        assert PhaseKept(p, s, s.actors[a]);
        MoveKept(p, s, 0, None, a, GcSweeping(s.actors[a].refs, s.actors[a].at0, s.clock - p.grace));
    }
  }

  lemma ReplyKept(p: Params, s: State, a: Actor, lost: bool)
    requires Kept(p, s)
    ensures Kept(p, DoCasReply(s, a, lost))
  {
    hide Kept, Referenced, Become, Remember;
    KeptFacts(p, s);
    NoRemember(s);
    if a in s.actors {
      assert PhaseKept(p, s, s.actors[a]);
      var ph := s.actors[a];
      match ph
      case WriteDecided(call, attempt, won) =>
        var q := LoggedAt(ph);
        if lost {
          MoveKept(p, s, 0, None, a, WriteDone(call, Unknown, q));
        } else if won.Some? {
          if q.Some? {
            MoveKept(p, s, call.handle, won, a, WriteDone(call, Acked(q.value), q));
          }
        } else {
          ForgottenKept(p, s, call.handle, a, WriteDone(call, Contended, None));
          ForgottenKept(p, s, call.handle, a, WriteStart(call, attempt + 1));
        }
      case CompactDecided(h, got, epoch) =>
        MoveKept(p, s, h, if lost then None else Some(got), a, CompactDone(Compacted(epoch)));
      case _ =>
    }
  }

  lemma ForgottenKept(p: Params, s: State, h: Handle, a: Actor, phase: Phase)
    requires Kept(p, s) && (phase.WriteDone? || phase.WriteStart?)
    ensures Kept(p, Become(s.(snapshots := s.snapshots - {h}), a, phase))
  {
    hide Kept;
    ForgetKept(p, s, h);
    NoRemember(s.(snapshots := s.snapshots - {h}));
    MoveKept(p, s.(snapshots := s.snapshots - {h}), 0, None, a, phase);
  }

  lemma CrashKept(p: Params, s: State, a: Actor)
    requires Kept(p, s)
    ensures Kept(p, DoCrash(s, a))
  {
    hide Kept, DoCasReply;
    NoRemember(s);
    if DoCrash(s, a) != s {
      if s.actors[a].WriteDecided? || s.actors[a].CompactDecided? {
        ReplyKept(p, s, a, true);
      } else {
        MoveKept(p, s, 0, None, a, Dead);
      }
    }
  }

  lemma WriterLoadKept(p: Params, s: State, a: Actor)
    requires Kept(p, s)
    ensures Kept(p, DoWriterLoad(s, a))
  {
    hide Kept, Referenced;
    KeptFacts(p, s);
    if DoWriterLoad(s, a) != s {
      var ph := s.actors[a];
      if ph.attempt == 1 && ph.call.handle in s.snapshots {
        MoveKept(p, s, 0, None, a, WriteBased(ph.call, ph.attempt, Some(s.snapshots[ph.call.handle])));
      } else {
        MoveKept(p, s, ph.call.handle, s.head, a, WriteBased(ph.call, ph.attempt, s.head));
      }
    }
  }

  lemma PutsKept(p: Params, s: State, t: State, a: Actor, put: map<Name, Object>, phase: Phase)
    requires Kept(p, s) && Puts(s, t, a, put, phase) && forall n | n in put :: put[n].putAt == s.clock
    requires PhaseKept(p, t, phase)
    ensures Kept(p, t)
  {
    hide Kept, PhaseKept, Referenced;
    KeptFacts(p, s);
    assert Carries(p, s, t);
    CarryKeeps(p, s, t, a);
  }

  lemma BasedFacts(p: Params, s: State, a: Actor)
    requires Kept(p, s) && a in s.actors && s.actors[a].WriteBased?
    ensures Known(s, s.actors[a].base)
  {
    hide StoreKept, HeadKept;
    assert PhaseKept(p, s, s.actors[a]);
  }

  lemma WriterPutKept(p: Params, s: State, a: Actor, name: Name)
    requires Kept(p, s)
    ensures Kept(p, DoWriterPut(p, s, a, name))
  {
    hide Kept, Referenced, PrepareCall, DoWriterPut;
    var t := DoWriterPut(p, s, a, name);
    if t != s {
      WriterPutForms(p, s, a, name);
      BasedFacts(p, s, a);
      var ph := s.actors[a];
      match PrepareCall(p, ph.base, ph.call)
      case Err(e) =>
        NoRemember(s);
        MoveKept(p, s, 0, None, a, WriteDone(ph.call, Rejected(e), None));
      case Ok((schema, batch)) =>
        PutsKept(p, s, t, a, map[name := Object(batch, s.clock, a)],
            WriteStored(ph.call, ph.attempt, ph.base, name, batch, schema));
    }
  }

  lemma CompactorKept(p: Params, s: State, e: Event)
    requires Kept(p, s) && (e.BeginCompact? || e.CompactRead? || e.CompactReload?)
    ensures Kept(p, Step(p, s, e))
  {
    hide Kept, Referenced, DoCompactPut, DoWriterCas, DoCompactCas, DoWriterPut, Become, Remember, NothingToDo, LiveOf,
        Holds;
    KeptFacts(p, s);
    if Step(p, s, e) != s {
      var m := ManifestOf(s.head);
      match e
      case BeginCompact(a, h, build) =>
        MoveKept(p, s, h, s.head, a, if NothingToDo(m, build) then CompactDone(Nothing)
            else CompactBased(h, build, m, |s.epochs|));
      case CompactRead(a) =>
        var ph := s.actors[a];
        var job := Job(ph.handle, ph.build, ph.loaded, ph.epoch, LiveOf(s.objects, m), |s.log|, [], None, 1);
        assert JobKept(p, s, job);
        MoveKept(p, s, ph.handle, s.head, a, CompactBuilding(job));
        MoveKept(p, s, ph.handle, s.head, a, CompactDone(Unreadable));
      case CompactReload(a) =>
        var job := s.actors[a].job;
        assert PhaseKept(p, s, s.actors[a]);
        MoveKept(p, s, job.handle, s.head, a, CompactDone(Stale));
        MoveKept(p, s, job.handle, s.head, a, CompactReloaded(job, s.head));
    }
  }

  lemma {:induction false} IndexNamesConcat(a: seq<Shard>, b: seq<Shard>)
    ensures IndexNames(a + b) == IndexNames(a) + IndexNames(b)
    decreases |a|
  {
    if a == [] {
      assert a + b == b;
    } else {
      assert (a + b)[0] == a[0] && (a + b)[1..] == a[1..] + b;
      IndexNamesConcat(a[1..], b);
    }
  }

  lemma BuiltNamesOne(built: seq<Shard>, last: Shard)
    ensures forall n | n in BuiltNames(built + [last]) ::
      n in BuiltNames(built) || n in last.segments || (last.index.Some? && n in last.index.value)
  {
    SegmentNamesConcat(built, [last]);
    IndexNamesConcat(built, [last]);
    assert SegmentNames([last]) == last.segments + SegmentNames([last][1..]);
    assert IndexNames([last]) == (if last.index.Some? then last.index.value else []) + IndexNames([last][1..]);
  }

  lemma ShardKept(p: Params, s: State, t: State, a: Actor, job: Job, segment: Name, index: seq<Name>,
                  bucket: seq<Record>, next: Job)
    requires Kept(p, s) && JobKept(p, s, job) && FreshNames(s, segment, index)
    requires next.built == job.built + [Shard([segment], if job.build then Some(index) else None)]
    requires next.firstPut == if job.firstPut.Some? then job.firstPut else Some(s.clock)
    requires job.firstPut.Some? ==> job.firstPut.value <= s.clock
    requires Puts(s, t, a, ShardObjects(bucket, segment, index, s.clock, a), CompactBuilding(next))
    ensures Kept(p, t)
  {
    hide Kept, Referenced, BuiltNames;
    BuiltNamesOne(job.built, Shard([segment], if job.build then Some(index) else None));
    assert JobKept(p, t, next);
    PutsKept(p, s, t, a, ShardObjects(bucket, segment, index, s.clock, a), CompactBuilding(next));
  }

  lemma EmptyShardKept(p: Params, s: State, a: Actor, job: Job)
    requires Kept(p, s) && JobKept(p, s, job) && (job.firstPut.Some? ==> job.firstPut.value <= s.clock)
    ensures Kept(p, Become(s, a, CompactBuilding(job.(built := job.built + [EMPTY_SHARD]))))
  {
    hide Kept, BuiltNames;
    BuiltNamesOne(job.built, EMPTY_SHARD);
    NoRemember(s);
    MoveKept(p, s, 0, None, a, CompactBuilding(job.(built := job.built + [EMPTY_SHARD])));
  }

  lemma JobFacts(p: Params, s: State, a: Actor)
    requires Kept(p, s) && a in s.actors && (s.actors[a].CompactBuilding? || s.actors[a].CompactReloaded?)
    ensures JobKept(p, s, s.actors[a].job)
    ensures s.actors[a].CompactReloaded? ==> Known(s, s.actors[a].current)
    ensures s.actors[a].job.firstPut.Some? ==> s.actors[a].job.firstPut.value <= s.clock
  {
    hide BuiltNames, StoreKept, HeadKept;
    assert PhaseKept(p, s, s.actors[a]);
  }

  lemma CompactPutKept(p: Params, s: State, a: Actor, segment: Name, index: seq<Name>)
    requires Kept(p, s)
    ensures Kept(p, DoCompactPut(p, s, a, segment, index))
  {
    hide Kept, JobKept, NextBucket;
    var t := DoCompactPut(p, s, a, segment, index);
    if t != s {
      var job := s.actors[a].job;
      JobFacts(p, s, a);
      if NextBucket(p, job) == [] {
        EmptyShardKept(p, s, a, job);
      } else {
        ShardKept(p, s, t, a, job, segment, index, NextBucket(p, job), t.actors[a].job);
      }
    }
  }

  lemma NextReferenced(p: Params, m: Manifest, name: Name, batch: seq<Record>, schema: Schema)
    ensures Referenced(NextManifest(p, m, name, batch, schema)) == Referenced(m) + {name}
  {
    assert WalNames(NextManifest(p, m, name, batch, schema).wal) == WalNames(m.wal) + [name];
  }

  lemma PublishKept(p: Params, s: State, t: State, a: Actor, m: Manifest, token: Token)
    requires Kept(p, s) && TokenFits(s, token, m)
    requires t == Publish(s, m, token).(log := t.log, epochs := t.epochs, actors := t.actors)
    requires forall b | b in t.actors && b != a :: b in s.actors && t.actors[b] == s.actors[b]
    requires a in t.actors ==> (t.actors[a].WriteDecided? && t.actors[a].won == Some(Versioned(m, token))) ||
                               (t.actors[a].CompactDecided? && t.actors[a].got == Versioned(m, token))
    requires forall n | n in Referenced(m) && n !in Referenced(ManifestOf(s.head)) ::
      n in s.objects && InTime(p, s, s.objects[n].putAt)
    ensures Kept(p, t)
  {
    hide Kept, Referenced;
    KeptFacts(p, s);
    assert Carries(p, s, t);
    CarryKeeps(p, s, t, a);
  }

  lemma ForgetKept(p: Params, s: State, h: Handle)
    requires Kept(p, s)
    ensures Kept(p, s.(snapshots := s.snapshots - {h}))
  {
    hide Kept, Referenced, PhaseKept;
    var t := s.(snapshots := s.snapshots - {h});
    KeptFacts(p, s);
    assert Carries(p, s, t);
    forall a | a in t.actors ensures PhaseKept(p, t, t.actors[a]) {
      PhaseCarries(p, s, t, s.actors[a]);
    }
    CarryKeeps(p, s, t, 0);
  }

  lemma StoredFacts(p: Params, s: State, a: Actor)
    requires Kept(p, s) && a in s.actors && s.actors[a].WriteStored?
    ensures Known(s, s.actors[a].base) && WriteKept(p, s, s.actors[a].name)
    ensures Known(s, s.head) && forall n | n in s.objects :: n in s.stored && s.stored[n] == s.objects[n]
  {
    hide HeadKept;
    assert PhaseKept(p, s, s.actors[a]);
  }

  lemma WriterCasKept(p: Params, s: State, a: Actor, token: Token)
    requires Kept(p, s)
    ensures Kept(p, DoWriterCas(p, s, a, token))
  {
    hide Kept, Referenced, NextManifest;
    var t := DoWriterCas(p, s, a, token);
    if t != s {
      var ph := s.actors[a];
      StoredFacts(p, s, a);
      if Unchanged(s.head, ph.base) {
        var m := ManifestOf(s.head);
        NextReferenced(p, m, ph.name, ph.batch, ph.schema);
        PublishKept(p, s, t, a, NextManifest(p, m, ph.name, ph.batch, ph.schema), token);
      } else {
        NoRemember(s);
        MoveKept(p, s, 0, None, a, WriteDecided(ph.call, ph.attempt, None));
      }
    }
  }

  lemma {:induction false} RetainNames(wal: seq<WalEntry>, consumed: seq<Name>)
    ensures forall e | e in Retain(wal, consumed) :: e in wal
    decreases |wal|
  {
    if wal != [] {
      RetainNames(wal[1..], consumed);
    }
  }

  lemma FoldedNames(m: Manifest, job: Job)
    ensures forall n | n in Referenced(Folded(m, job)) :: n in Referenced(m) || n in BuiltNames(job.built)
  {
    var folded := Folded(m, job);
    RetainNames(m.wal, WalNames(job.base.wal));
    forall n | n in WalNames(folded.wal) ensures n in WalNames(m.wal) {
      var i :| 0 <= i < |folded.wal| && folded.wal[i].name == n;
      assert folded.wal[i] in m.wal;
      var j :| 0 <= j < |m.wal| && m.wal[j] == folded.wal[i];
      assert WalNames(m.wal)[j] == n;
    }
  }

  lemma CompactCasKept(p: Params, s: State, a: Actor, token: Token)
    requires Kept(p, s)
    ensures Kept(p, DoCompactCas(p, s, a, token))
  {
    hide Kept, Referenced, Folded, BuiltNames, DoCompactCas;
    var t := DoCompactCas(p, s, a, token);
    if t != s {
      CompactCasActs(p, s, a, token);
      CompactCasForms(p, s, a, token);
      var ph := s.actors[a];
      JobFacts(p, s, a);
      if Unchanged(s.head, ph.current) {
        HeadFact(p, s);
        assert ManifestOf(ph.current) == ManifestOf(s.head);
        var m := ManifestOf(s.head);
        FoldedNames(m, ph.job);
        JobInTime(p, s, a, token);
        PublishKept(p, s, t, a, Folded(m, ph.job), token);
      } else {
        NoRemember(s);
        MoveKept(p, s, 0, None, a, t.actors[a]);
      }
    }
  }

  lemma HeadFact(p: Params, s: State)
    requires Kept(p, s)
    ensures Known(s, s.head)
  {
    hide HeadKept, PhaseKept;
  }

  /** A compaction that still commits is in time, so everything it built is there. */
  lemma JobInTime(p: Params, s: State, a: Actor, token: Token)
    requires DoCompactCas(p, s, a, token) != s && a in s.actors && s.actors[a].CompactReloaded? &&
      JobKept(p, s, s.actors[a].job)
    requires Kept(p, s)
    ensures forall n | n in BuiltNames(s.actors[a].job.built) :: n in s.objects && InTime(p, s, s.objects[n].putAt)
  {
    hide Kept, BuiltNames, Folded, HeadKept, PhaseKept;
    KeptFacts(p, s);
  }

  lemma StepKept(p: Params, s: State, e: Event)
    requires Kept(p, s) && p.grace > p.maxCommit + p.maxLag
    ensures Kept(p, Step(p, s, e))
    ensures AllThere(Step(p, s, e).objects, ManifestOf(Step(p, s, e).head))
  {
    hide Kept, Step, AllThere;
    StepKeepsAll(p, s, e);
    HeadThere(p, Step(p, s, e));
  }

  lemma StepKeepsAll(p: Params, s: State, e: Event)
    requires Kept(p, s) && p.grace > p.maxCommit + p.maxLag
    ensures Kept(p, Step(p, s, e))
  {
    hide Kept, DoWriterPut, DoWriterCas, DoWriterLoad, DoBeginCompact, DoCompactRead, DoCompactPut, DoCompactReload,
        DoCompactCas, DoCasReply, DoCrash;
    match e
    case Tick => WorldKept(p, s);
    case GcDelete(a, name) => DeleteKept(p, s, a, name);
    case WriterLoad(a) => WriterLoadKept(p, s, a);
    case WriterPut(a, name) => WriterPutKept(p, s, a, name);
    case WriterCas(a, token) => WriterCasKept(p, s, a, token);
    case CasReply(a, lost) => ReplyKept(p, s, a, lost);
    case Crash(a) => CrashKept(p, s, a);
    case CompactPut(a, segment, index) => CompactPutKept(p, s, a, segment, index);
    case CompactCas(a, token) => CompactCasKept(p, s, a, token);
    case BeginCompact(_, _, _) => CompactorKept(p, s, e);
    case CompactRead(_) => CompactorKept(p, s, e);
    case CompactReload(_) => CompactorKept(p, s, e);
    case _ => SimpleKept(p, s, e);
  }

  lemma {:induction false} RunKept(p: Params, s: State, events: seq<Event>)
    requires Kept(p, s) && p.grace > p.maxCommit + p.maxLag
    ensures Kept(p, Run(p, s, events))
    decreases |events|
  {
    hide Kept, Step;
    if events != [] {
      StepKeepsAll(p, s, events[0]);
      RunKept(p, Step(p, s, events[0]), events[1..]);
    }
  }

  // ------------------------------------------------------------ exactly how long the grace must be

  /** In every reachable state, compactions of any kind included, the manifest's objects all exist. */
  ghost predicate GcSafe(p: Params) {
    forall events: seq<Event> ::
      AllThere(Run(p, INIT, events).objects, ManifestOf(Run(p, INIT, events).head))
  }

  lemma LongGraceIsSafe(p: Params)
    requires p.grace > p.maxCommit + p.maxLag
    ensures GcSafe(p)
  {
    hide Kept, Step, AllThere;
    forall events: seq<Event>
      ensures AllThere(Run(p, INIT, events).objects, ManifestOf(Run(p, INIT, events).head))
    {
      InitKept(p);
      RunKept(p, INIT, events);
      HeadThere(p, Run(p, INIT, events));
    }
  }

  lemma InitKept(p: Params)
    ensures Kept(p, INIT)
  {
  }

  function Ticks(n: nat): seq<Event> {
    if n == 0 then [] else [Tick] + Ticks(n - 1)
  }

  lemma {:induction false} TicksRun(p: Params, s: State, n: nat)
    ensures Run(p, s, Ticks(n)) == s.(clock := s.clock + n)
    decreases n
  {
    if n > 0 {
      assert Ticks(n)[0] == Tick && Ticks(n)[1..] == Ticks(n - 1);
      TicksRun(p, s.(clock := s.clock + 1), n - 1);
    }
  }

  /** A first write of one tombstone: the least a writer can do. */
  function TinyCall(): Call {
    Call(0, [Delete(UintId(0))], EMPTY_CONFIG)
  }

  function TinySchema(): Schema {
    EMPTY_SCHEMA.(idType := Some(IdUint))
  }

  lemma TinyPrepares(p: Params)
    ensures PrepareCall(p, None, TinyCall()) == Ok((TinySchema(), TinyCall().records))
  {
    var rs := TinyCall().records;
    assert EMPTY_SCHEMA.attributes + EMPTY_CONFIG.types == EMPTY_SCHEMA.attributes;
    assert EMPTY_SCHEMA.fts + EMPTY_CONFIG.fts == EMPTY_SCHEMA.fts;
    assert EMPTY_SCHEMA.embed + EMPTY_CONFIG.embed == EMPTY_SCHEMA.embed;
    assert DeclareNames(EMPTY_SCHEMA, EMPTY_CONFIG) == Ok(EMPTY_SCHEMA);
    assert Declare(EMPTY_SCHEMA, EMPTY_CONFIG, false) == Ok(EMPTY_SCHEMA);
    assert rs[1..] == [];
    assert AbsorbRecord(p.host, EMPTY_SCHEMA, rs[0]) == Ok((TinySchema(), rs[0]));
    assert Absorb(p.host, TinySchema(), rs[1..]) == Ok((TinySchema(), []));
    assert [rs[0]] + [] == rs;
  }

  /** The writer has PUT its object; then it waits as long as it may. */
  lemma WriterWaits(p: Params) returns (events: seq<Event>, s: State)
    ensures s == Run(p, INIT, events)
    ensures s.clock == p.maxCommit && s.head == None && s.actors.Keys == {1}
    ensures s.actors[1] == WriteStored(TinyCall(), 1, None, 7, TinyCall().records, TinySchema())
    ensures s.objects == s.stored == map[7 := Object(TinyCall().records, 0, 1)] && s.seen == map[]
  {
    var first := [BeginWrite(1, TinyCall()), WriterLoad(1), WriterPut(1, 7)];
    TinyPrepares(p);
    var s1 := Step(p, INIT, first[0]);
    var s2 := Step(p, s1, first[1]);
    var s3 := Step(p, s2, first[2]);
    assert s2.actors[1] == WriteBased(TinyCall(), 1, None);
    assert first[1..][0] == first[1] && first[1..][1..][0] == first[2] && first[1..][1..][1..] == [];
    assert Run(p, INIT, first) == s3;
    events := first + Ticks(p.maxCommit);
    RunConcat(p, INIT, first, Ticks(p.maxCommit));
    TicksRun(p, s3, p.maxCommit);
    s := Run(p, INIT, events);
  }

  lemma LoadThenCommit(p: Params, s: State) returns (t: State)
    requires s.clock == p.maxCommit && s.head == None && s.actors.Keys == {1} && s.seen == map[]
    requires s.actors[1] == WriteStored(TinyCall(), 1, None, 7, TinyCall().records, TinySchema())
    requires s.objects == s.stored == map[7 := Object(TinyCall().records, 0, 1)]
    ensures t == Run(p, s, [GcLoad(2, 0), WriterCas(1, 0)])
    ensures t.clock == s.clock && t.objects == s.objects && 7 in Referenced(ManifestOf(t.head))
    ensures 2 in t.actors && t.actors[2] == GcLoaded({}, p.maxCommit)
  {
    hide NextManifest, Run, Referenced, TinyCall, TinySchema, PrepareCall, DoWriterCas, InTime;
    RunTwo(p, s, GcLoad(2, 0), WriterCas(1, 0));
    EmptyReferences();
    var s1 := s.(actors := s.actors[2 := GcLoaded({}, p.maxCommit)]);
    assert DoGcLoad(s, 2, 0) == s1;
    t := TinyCommits(p, s1);
  }

  lemma EmptyReferences()
    ensures Referenced(EMPTY_MANIFEST) == {}
  {
  }

  lemma TinyCommits(p: Params, s: State) returns (t: State)
    requires s.clock == p.maxCommit && s.head == None && s.seen == map[] && 1 in s.actors
    requires s.actors[1] == WriteStored(TinyCall(), 1, None, 7, TinyCall().records, TinySchema())
    requires s.stored == map[7 := Object(TinyCall().records, 0, 1)]
    ensures t == DoWriterCas(p, s, 1, 0)
    ensures t.clock == s.clock && t.objects == s.objects && 7 in Referenced(ManifestOf(t.head))
    ensures forall b | b in s.actors && b != 1 :: b in t.actors && t.actors[b] == s.actors[b]
  {
    hide NextManifest, Referenced, TinySchema;
    t := DoWriterCas(p, s, 1, 0);
    NextReferenced(p, EMPTY_MANIFEST, 7, TinyCall().records, TinySchema());
  }

  lemma CutoffThenDelete(p: Params, s: State) returns (t: State)
    requires p.grace <= p.maxCommit + p.maxLag && s.clock == p.maxCommit + p.maxLag
    requires s.objects == map[7 := Object(TinyCall().records, 0, 1)] && 7 in Referenced(ManifestOf(s.head))
    requires 2 in s.actors && s.actors[2] == GcLoaded({}, p.maxCommit)
    ensures t == Run(p, s, [GcCutoff(2), GcDelete(2, 7)]) && !HeadKept(t)
  {
    hide Referenced;
    RunTwo(p, s, GcCutoff(2), GcDelete(2, 7));
    t := DoGcDelete(DoGcCutoff(p, s, 2), 2, 7);
    assert 7 !in t.objects;
  }

  /** The collector loads just before the commit and reads its clock as late as it may. */
  lemma ShortGraceLosesData(p: Params)
    requires p.grace <= p.maxCommit + p.maxLag
    ensures !GcSafe(p)
  {
    hide Step, HeadKept, Referenced, AllThere;
    var before, s := WriterWaits(p);
    var committed := LoadThenCommit(p, s);
    TicksRun(p, committed, p.maxLag);
    var waited := Run(p, committed, Ticks(p.maxLag));
    var lost := CutoffThenDelete(p, waited);
    var mid, end := [GcLoad(2, 0), WriterCas(1, 0)], [GcCutoff(2), GcDelete(2, 7)];
    RunConcat(p, INIT, before, mid);
    RunConcat(p, INIT, before + mid, Ticks(p.maxLag));
    RunConcat(p, INIT, before + mid + Ticks(p.maxLag), end);
    var t := Run(p, INIT, before + mid + Ticks(p.maxLag) + end);
    assert !HeadKept(t);
    HeadIsThere(t);
  }

  /** The collector never deletes an object that the current or any later manifest names if and only
      if the grace exceeds the longest PUT-to-CAS delay plus its own load-to-clock delay. */
  lemma GraceIsExact(p: Params)
    ensures GcSafe(p) <==> p.grace > p.maxCommit + p.maxLag
  {
    if p.grace > p.maxCommit + p.maxLag {
      LongGraceIsSafe(p);
    } else {
      ShortGraceLosesData(p);
    }
  }

  /** With such a grace a reader of the current manifest gets every object, and the live set it builds
      from the store is the truth. */
  lemma StoreServesTheTruth(p: Params, events: seq<Event>)
    requires p.grace > p.maxCommit + p.maxLag && GuardedRun(p, INIT, events)
    ensures var s := Run(p, INIT, events); LiveOf(s.objects, ManifestOf(s.head)) == Truth(s.log)
  {
    hide Step, Inv, Kept, Truth, LiveOf;
    var s := Run(p, INIT, events);
    LongGraceIsSafe(p);
    HeadIsThere(s);
    InitInv(p);
    RunKeeps(p, INIT, events);
    HeadReads(p, s);
  }
}
