/** Compaction and garbage collection as the source writes them, each proved to be a run of the protocol
    whatever others do between its requests (src/store.rs). */
module Maintenance {
  import opened Wrappers
  import opened Records
  import opened Protocol
  import opened Safety
  import opened Runs
  import opened Segments
  import opened Namespaces

  function TotalTicks(env: nat -> seq<Event>, n: nat): nat {
    if n == 0 then 0 else TotalTicks(env, n - 1) + CountTicks(env(n - 1))
  }

  /** What others do ahead of each request; the whole call stays within the PUT-to-CAS deadline. */
  ghost predicate Prompt(p: Params, me: Actor, env: nat -> seq<Event>) {
    forall i :: Others(me, env(i)) && TotalTicks(env, i) <= p.maxCommit
  }

  /** Names for a segment and its index objects that were never used before. */
  ghost predicate FreshShards(newShard: (map<Name, Object>, bool) -> (Name, seq<Name>)) {
    forall s: State, build ::
      FreshNames(s, newShard(s.stored, build).0, newShard(s.stored, build).1) &&
          (!build ==> newShard(s.stored, build).1 == [])
  }

  lemma PromptFacts(p: Params, me: Actor, env: nat -> seq<Event>, i: nat)
    requires Prompt(p, me, env)
    ensures Others(me, env(i)) && TotalTicks(env, i) <= p.maxCommit &&
      TotalTicks(env, i + 1) == TotalTicks(env, i) + CountTicks(env(i))
  {
    hide Others;
    assert Others(me, env(i));
  }

  /** A request failed, or a shard's vectors cannot be clustered together. */
  datatype CompactError = StoreError | Unindexable

  /** How a compaction stands once it has answered. A request that failed may have been the conditional PUT, and
      that may have taken effect. */
  predicate Concluded(s: State, me: Actor, r: Result<CompactOutcome, CompactError>) {
    match r
    case Ok(outcome) => me in s.actors && s.actors[me] == CompactDone(outcome)
    case Err(Unindexable) => me in s.actors && s.actors[me] == Dead
    case Err(StoreError) =>
      me in s.actors ==>
        || s.actors[me] == Dead
        || (s.actors[me].CompactDone? && (s.actors[me].result.Lost? || s.actors[me].result.Compacted?))
  }

  /** Some shard of the job cannot be indexed. */
  ghost predicate CannotIndex(p: Params, job: Job) {
    job.build && exists number | 0 <= number < job.base.schema.Shards() :: UnevenBucket(p, job, number)
  }

  predicate UnevenBucket(p: Params, job: Job, number: nat) {
    Uneven(DocsIn(Records.Bucket(p.hash, job.live, job.base.schema.Shards(), number)))
  }

  /** Load the base and see whether there is anything to do. */
  method LoadBase(ns: Namespace, me: Actor, build: bool) returns (idle: bool, base: Manifest)
    requires me !in ns.bucket.st.actors
    modifies ns.bucket
    ensures ns.bucket.st == Step(ns.bucket.p, old(ns.bucket.st), BeginCompact(me, ns.handle, build))
    ensures ns.At(me, if idle then CompactDone(Nothing)
      else CompactBased(ns.handle, build, base, |ns.bucket.st.epochs|))
    ensures idle <==> base.wal == [] && base.shards != [] && (build ==> forall x | x in base.shards :: x.index.Some?)
  {
    var v := ns.bucket.Load(ns.handle);
    base := ManifestOf(v);
    idle := NothingToDo(base, build);
    ns.bucket.Note(me, if idle then CompactDone(Nothing)
        else CompactBased(ns.handle, build, base, |ns.bucket.st.epochs|));
  }

  /** Read every record named by a second, later load, and materialize. */
  method ReadLive(ns: Namespace, me: Actor, build: bool, base: Manifest, ghost epoch: nat) returns (job: Option<Job>)
    requires ns.At(me, CompactBased(ns.handle, build, base, epoch))
    modifies ns.bucket
    ensures ns.bucket.st == Step(ns.bucket.p, old(ns.bucket.st), CompactRead(me))
    ensures job.None? ==> ns.At(me, CompactDone(Unreadable))
    ensures job.Some? ==>
      ns.At(me, CompactBuilding(job.value)) && job.value.handle == ns.handle && job.value.build == build
    ensures job.Some? ==>
      job.value.base == base && job.value.built == [] && job.value.firstPut == None && job.value.attempt == 1
  {
    var v := ns.bucket.Load(ns.handle);
    var m := ManifestOf(v);
    if Holds(ns.bucket.st.objects, SegmentNames(m.shards)) && Holds(ns.bucket.st.objects, WalNames(m.wal)) {
      var live := new LiveSet();
      live.MutateAll(AllRecords(ns.bucket.st.objects, m));
      var mine := ns.bucket.st.actors[me];
      job := Some(Job(ns.handle, build, base, mine.epoch, live.docs, |ns.bucket.st.log|, [], None, 1));
      ns.bucket.Note(me, CompactBuilding(job.value));
    } else {
      job := None;
      ns.bucket.Note(me, CompactDone(Unreadable));
    }
  }

  /** Write the next shard: nothing for an empty bucket, else a segment and then its index objects. The index is
      computed once the segment is written, and refused if its vectors differ in length; the segment stays. */
  method BuildShard(ns: Namespace, me: Actor, job: Job, fault: Fault,
                    newShard: (map<Name, Object>, bool) -> (Name, seq<Name>))
    returns (r: Result<Job, CompactError>, ghost events: seq<Event>)
    requires ns.At(me, CompactBuilding(job)) && |job.built| < job.base.schema.Shards() && FreshShards(newShard)
    modifies ns.bucket
    ensures ns.bucket.st == Run(ns.bucket.p, old(ns.bucket.st), events)
    ensures var empty := NextBucket(ns.bucket.p, job) == [];
      var refused := job.build && UnevenBucket(ns.bucket.p, job, |job.built|);
      r.Err? <==> !empty && (fault != Fine || refused)
    ensures r.Err? ==> ns.At(me, Dead) && r.error == if fault != Fine then StoreError else Unindexable
    ensures r.Ok? ==>
      var next := r.value;
      && ns.At(me, CompactBuilding(next)) && |next.built| == |job.built| + 1
      && next == job.(built := next.built, firstPut := next.firstPut)
      && (next.firstPut == job.firstPut ||
          (job.firstPut.None? && next.firstPut == Some(old(ns.bucket.st).clock)))
    ensures ns.bucket.st.clock == old(ns.bucket.st).clock
  {
    hide Step, Run, Records.Bucket, DocsIn, Uneven;
    ghost var p, s := ns.bucket.p, ns.bucket.st;
    var bucket := NextBucket(ns.bucket.p, job);
    NothingUneven();
    if bucket != [] && fault == Failed {
      ns.GiveUp(me);
      RunOne(p, s, Crash(me));
      return Err(StoreError), [Crash(me)];
    }
    var (segment, index) := newShard(ns.bucket.st.stored, job.build);
    assert FreshNames(s, segment, index) && (!job.build ==> index == []);
    var refused := job.build && Uneven(DocsIn(bucket));
    var broken := bucket != [] && (fault == ReplyLost || refused);
    var written := if broken then [] else index;
    assert FreshNames(s, segment, written);
    var next;
    if bucket == [] {
      next := job.(built := job.built + [EMPTY_SHARD]);
    } else {
      ns.bucket.PutMany(ShardObjects(bucket, segment, written, ns.bucket.st.clock, me));
      next := job.(built := job.built + [Shard([segment], if job.build then Some(written) else None)],
                   firstPut := if job.firstPut.Some? then job.firstPut else Some(ns.bucket.st.clock));
    }
    ns.bucket.Note(me, CompactBuilding(next));
    ShardIsPut(p, s, me, job, segment, written, next, ns.bucket.st);
    RunOne(p, s, CompactPut(me, segment, written));
    events := [CompactPut(me, segment, written)];
    if broken {
      ghost var t := ns.bucket.st;
      ns.GiveUp(me);
      RunOne(p, t, Crash(me));
      RunConcat(p, s, events, [Crash(me)]);
      return Err(if fault == ReplyLost then StoreError else Unindexable), events + [Crash(me)];
    }
    r := Ok(next);
  }

  lemma NothingUneven()
    ensures !Uneven(DocsIn([]))
  {
  }

  lemma ShardIsPut(p: Params, s: State, me: Actor, job: Job, segment: Name, index: seq<Name>, next: Job, t: State)
    requires me in s.actors && s.actors[me] == CompactBuilding(job) && |job.built| < job.base.schema.Shards()
    requires FreshNames(s, segment, index) && (!job.build ==> index == [])
    requires var bucket := NextBucket(p, job);
      if bucket == [] then next == job.(built := job.built + [EMPTY_SHARD]) && t == Become(s, me, CompactBuilding(next))
      else
        var put := ShardObjects(bucket, segment, index, s.clock, me);
        && next == job.(built := job.built + [Shard([segment], if job.build then Some(index) else None)],
                        firstPut := if job.firstPut.Some? then job.firstPut else Some(s.clock))
        && t == Become(s.(objects := s.objects + put, stored := s.stored + put), me, CompactBuilding(next))
    ensures t == Step(p, s, CompactPut(me, segment, index))
  {
    hide NextBucket, FreshNames, ShardObjects;
  }

  /** Load again: has another compaction committed meanwhile? */
  method CheckStale(ns: Namespace, me: Actor, job: Job) returns (current: Option<Option<Versioned>>)
    requires ns.At(me, CompactBuilding(job)) && |job.built| == job.base.schema.Shards() && job.handle == ns.handle
    modifies ns.bucket
    ensures ns.bucket.st == Step(ns.bucket.p, old(ns.bucket.st), CompactReload(me)) &&
      ns.bucket.st.clock == old(ns.bucket.st).clock
    ensures ns.At(me, if current.None? then CompactDone(Stale) else CompactReloaded(job, current.value))
  {
    var v := ns.bucket.Load(ns.handle);
    if ManifestOf(v).shards != job.base.shards {
      ns.bucket.Note(me, CompactDone(Stale));
      return None;
    }
    ns.bucket.Note(me, CompactReloaded(job, v));
    return Some(v);
  }

  /** Publish the fold, keeping the WAL entries that were not consumed: the manifest published, if the store
      took it. */
  method CommitFold(ns: Namespace, me: Actor, job: Job, current: Option<Versioned>, token: Token)
    returns (won: Option<Versioned>)
    requires ns.At(me, CompactReloaded(job, current)) && job.handle == ns.handle && token !in ns.bucket.st.seen
    requires job.firstPut.Some? ==> InTime(ns.bucket.p, ns.bucket.st, job.firstPut.value)
    modifies ns.bucket
    ensures ns.bucket.st == Step(ns.bucket.p, old(ns.bucket.st), CompactCas(me, token)) &&
      ns.bucket.st.clock == old(ns.bucket.st).clock
    ensures won.Some? <==> Unchanged(old(ns.bucket.st).head, current)
    ensures ns.At(me, if won.Some? then CompactDecided(ns.handle, won.value, |old(ns.bucket.st).epochs|)
                      else if job.attempt >= MAX_CAS_ATTEMPTS then CompactDone(Lost)
                      else CompactBuilding(job.(attempt := job.attempt + 1)))
  {
    hide Folded;
    var m := Folded(ManifestOf(current), job);
    var ok := ns.bucket.ConditionalPut(current, m, token);
    won := if ok then Some(Versioned(m, token)) else None;
    if ok {
      var epoch := |ns.bucket.st.epochs|;
      ns.bucket.Count(Epoch(Some(me), m.shards, m.nextSeq - |m.wal|, job.upTo));
      ns.bucket.Note(me, CompactDecided(ns.handle, Versioned(m, token), epoch));
    } else {
      ns.bucket.Note(me, if job.attempt >= MAX_CAS_ATTEMPTS then CompactDone(Lost)
          else CompactBuilding(job.(attempt := job.attempt + 1)));
    }
    FoldIs(ns.bucket.p, old(ns.bucket.st), me, job, current, token, ok, ns.bucket.st);
  }

  lemma FoldIs(p: Params, s: State, me: Actor, job: Job, current: Option<Versioned>, token: Token, ok: bool, t: State)
    requires me in s.actors && s.actors[me] == CompactReloaded(job, current) && token !in s.seen &&
      (ok <==> Unchanged(s.head, current))
    requires job.firstPut.Some? ==> InTime(p, s, job.firstPut.value)
    requires var m := Folded(ManifestOf(current), job);
      if ok then
        var published := Publish(s, m, token).(epochs := s.epochs +
            [Epoch(Some(me), m.shards, m.nextSeq - |m.wal|, job.upTo)]);
        t == Become(published, me, CompactDecided(job.handle, Versioned(m, token), |s.epochs|))
      else
        t == Become(s, me, if job.attempt >= MAX_CAS_ATTEMPTS then CompactDone(Lost)
            else CompactBuilding(job.(attempt := job.attempt + 1)))
    ensures t == Step(p, s, CompactCas(me, token))
  {
    hide Folded;
  }

  /** Remember what was published, whatever others did meanwhile. */
  method LearnFold(ns: Namespace, me: Actor, got: Versioned, epoch: nat)
    requires ns.At(me, CompactDecided(ns.handle, got, epoch))
    modifies ns.bucket
    ensures ns.bucket.st == Step(ns.bucket.p, old(ns.bucket.st), CasReply(me, false))
    ensures ns.At(me, CompactDone(Compacted(epoch)))
  {
    ns.bucket.Keep(ns.handle, Some(got));
    ns.bucket.Note(me, CompactDone(Compacted(epoch)));
  }

  /** The fold is published, and the caller is told of an error. */
  method MissFold(ns: Namespace, me: Actor, ghost got: Versioned, epoch: nat)
    requires ns.At(me, CompactDecided(ns.handle, got, epoch))
    modifies ns.bucket
    ensures ns.bucket.st == Step(ns.bucket.p, old(ns.bucket.st), CasReply(me, true))
    ensures ns.At(me, CompactDone(Compacted(epoch)))
  {
    ns.bucket.Note(me, CompactDone(Compacted(epoch)));
  }

  // ------------------------------------------------------------ the whole calls

  /** Where a call stands in its run: the trace so far, and how far the clock has moved since `c0`. */
  ghost predicate Underway(p: Params, start: State, trace: seq<Event>, s: State, env: nat -> seq<Event>, c0: nat,
                           slot: nat) {
    LedTo(p, start, trace, s) && s.clock == c0 + TotalTicks(env, slot)
  }

  /** What others do, then one step of this call that takes no time. */
  lemma OnwardOne(p: Params, start: State, trace: seq<Event>, s: State, e: Event, t: State, env: nat -> seq<Event>,
                  c0: nat, slot: nat)
    requires Underway(p, start, trace, s, env, c0, slot) && t == Step(p, s, e) && t.clock == s.clock
    ensures Underway(p, start, trace + [e], t, env, c0, slot)
  {
    hide Step, LedTo;
    LedOnce(p, start, trace, s, e, t);
  }

  /** The same for several steps. */
  lemma OnwardMany(p: Params, start: State, trace: seq<Event>, s: State, events: seq<Event>, t: State,
                   env: nat -> seq<Event>, c0: nat, slot: nat)
    requires Underway(p, start, trace, s, env, c0, slot) && t == Run(p, s, events) && t.clock == s.clock
    ensures Underway(p, start, trace + events, t, env, c0, slot)
  {
    hide Step, LedTo;
    LedOn(p, start, trace, s, events);
  }

  method Pause(ns: Namespace, me: Actor, env: nat -> seq<Event>, slot: nat, ghost c0: nat, ghost start: State,
               ghost trace: seq<Event>)
    returns (ghost longer: seq<Event>)
    requires Underway(ns.bucket.p, start, trace, ns.bucket.st, env, c0, slot) && Prompt(ns.bucket.p, me, env)
    modifies ns.bucket
    ensures Underway(ns.bucket.p, start, longer, ns.bucket.st, env, c0, slot + 1)
    ensures SameActor(old(ns.bucket.st), ns.bucket.st, me) && ns.bucket.st.clock <= c0 + ns.bucket.p.maxCommit
  {
    hide Step, LedTo, Run, Others, CountTicks;
    PromptFacts(ns.bucket.p, me, env, slot);
    PromptFacts(ns.bucket.p, me, env, slot + 1);
    longer := ns.Await(me, env(slot), start, trace);
  }

  /** Build every shard of a job; the first that fails ends the call. */
  method BuildShards(ns: Namespace, me: Actor, job: Job, env: nat -> seq<Event>, faults: nat -> Fault, slot: nat,
                     newShard: (map<Name, Object>, bool) -> (Name, seq<Name>), ghost c0: nat, ghost start: State,
                     ghost trace: seq<Event>)
    returns (r: Result<Job, CompactError>, next: nat, ghost longer: seq<Event>)
    requires ns.At(me, CompactBuilding(job)) && job.built == [] && job.firstPut == None
    requires Underway(ns.bucket.p, start, trace, ns.bucket.st, env, c0, slot) && Prompt(ns.bucket.p, me, env)
    requires FreshShards(newShard)
    modifies ns.bucket
    ensures Underway(ns.bucket.p, start, longer, ns.bucket.st, env, c0, next)
    ensures r.Ok? ==>
      var done := r.value;
      && ns.At(me, CompactBuilding(done)) && |done.built| == job.base.schema.Shards()
      && done == job.(built := done.built, firstPut := done.firstPut)
      && (done.firstPut.Some? ==> done.firstPut.value >= c0)
      && !CannotIndex(ns.bucket.p, job)
    ensures r.Err? ==> ns.At(me, Dead)
    ensures r == Err(StoreError) ==> Faulty(faults)
    ensures r == Err(Unindexable) ==> CannotIndex(ns.bucket.p, job)
  {
    hide Step, LedTo, Run, Others, CountTicks, FreshShards, Prompt, UnevenBucket;
    ghost var p := ns.bucket.p;
    var done := job;
    next, longer := slot, trace;
    for number := 0 to job.base.schema.Shards()
      invariant ns.bucket.p == p && Underway(p, start, longer, ns.bucket.st, env, c0, next)
      invariant ns.At(me, CompactBuilding(done))
      invariant done == job.(built := done.built, firstPut := done.firstPut) && |done.built| == number
      invariant done.firstPut.Some? ==> done.firstPut.value >= c0
      invariant job.build ==> forall i | 0 <= i < number :: !UnevenBucket(p, job, i)
    {
      longer := Pause(ns, me, env, next, c0, start, longer);
      var fault := faults(next);
      next := next + 1;
      ghost var s := ns.bucket.st;
      ghost var events;
      var built;
      SameBuckets(p, job, done, number);
      built, events := BuildShard(ns, me, done, fault, newShard);
      OnwardMany(p, start, longer, s, events, ns.bucket.st, env, c0, next);
      longer := longer + events;
      if built.Err? {
        return Err(built.error), next, longer;
      }
      done := built.value;
    }
    r := Ok(done);
  }

  lemma SameBuckets(p: Params, job: Job, done: Job, number: nat)
    requires done == job.(built := done.built, firstPut := done.firstPut) && |done.built| == number
    ensures UnevenBucket(p, done, number) <==> UnevenBucket(p, job, number)
    ensures NextBucket(p, done) == [] ==> !UnevenBucket(p, job, number)
  {
    hide Records.Bucket;
    NothingUneven();
  }

  /** One round of the commit loop. `None` means only a writer won, and another round is due. */
  method CommitRound(ns: Namespace, me: Actor, job: Job, env: nat -> seq<Event>, faults: nat -> Fault, slot: nat,
                     newToken: map<Token, Manifest> -> Token,
                     ghost c0: nat, ghost start: State, ghost trace: seq<Event>)
    returns (r: Option<Result<CompactOutcome, CompactError>>, ghost longer: seq<Event>)
    requires ns.At(me, CompactBuilding(job)) && |job.built| == job.base.schema.Shards() && job.handle == ns.handle
    requires Underway(ns.bucket.p, start, trace, ns.bucket.st, env, c0, slot) && Prompt(ns.bucket.p, me, env)
    requires (forall m :: newToken(m) !in m) && (job.firstPut.Some? ==> job.firstPut.value >= c0)
    modifies ns.bucket
    ensures r.Some? ==> Concluded(ns.bucket.st, me, r.value) && LedTo(ns.bucket.p, start, longer, ns.bucket.st)
    ensures r.None? ==> job.attempt < MAX_CAS_ATTEMPTS && ns.At(me, CompactBuilding(job.(attempt := job.attempt + 1)))
    ensures r.None? ==> Underway(ns.bucket.p, start, longer, ns.bucket.st, env, c0, slot + 2)
    ensures r != Some(Err(Unindexable)) && (r == Some(Err(StoreError)) ==> Faulty(faults))
  {
    hide Step, LedTo, Run, Others, CountTicks, Prompt, Concluded, Faulty, Folded, InTime;
    ghost var p := ns.bucket.p;
    longer := Pause(ns, me, env, slot, c0, start, trace);
    ghost var s := ns.bucket.st;
    if faults(slot) != Fine {
      ns.GiveUp(me);
      LedOnce(p, start, longer, s, Crash(me), ns.bucket.st);
      Conclusion(ns.bucket.st, me);
      FaultAt(faults, slot);
      return Some(Err(StoreError)), longer + [Crash(me)];
    }
    var current := CheckStale(ns, me, job);
    OnwardOne(p, start, longer, s, CompactReload(me), ns.bucket.st, env, c0, slot + 1);
    longer := longer + [CompactReload(me)];
    if current.None? {
      Conclusion(ns.bucket.st, me);
      return Some(Ok(Stale)), longer;
    }
    longer := Pause(ns, me, env, slot + 1, c0, start, longer);
    r, longer := FoldRound(ns, me, job, current.value, env, faults(slot + 1), slot + 2, newToken, c0, start, longer);
    FaultAt(faults, slot + 1);
  }

  lemma FaultAt(faults: nat -> Fault, i: nat)
    ensures faults(i) != Fine ==> Faulty(faults)
  {
  }

  lemma Conclusion(s: State, me: Actor)
    requires me in s.actors
    ensures s.actors[me] == Dead ==> Concluded(s, me, Err(StoreError))
    ensures s.actors[me] == CompactDone(Stale) ==> Concluded(s, me, Ok(Stale))
  {
  }

  /** The conditional PUT of a round, and its reply. */
  method FoldRound(ns: Namespace, me: Actor, job: Job, current: Option<Versioned>, env: nat -> seq<Event>,
                   fault: Fault, slot: nat, newToken: map<Token, Manifest> -> Token,
                   ghost c0: nat, ghost start: State, ghost trace: seq<Event>)
    returns (r: Option<Result<CompactOutcome, CompactError>>, ghost longer: seq<Event>)
    requires ns.At(me, CompactReloaded(job, current)) && job.handle == ns.handle
    requires Underway(ns.bucket.p, start, trace, ns.bucket.st, env, c0, slot) && Prompt(ns.bucket.p, me, env)
    requires ns.bucket.st.clock <= c0 + ns.bucket.p.maxCommit
    requires (forall m :: newToken(m) !in m) && (job.firstPut.Some? ==> job.firstPut.value >= c0)
    modifies ns.bucket
    ensures r.Some? ==> Concluded(ns.bucket.st, me, r.value) && LedTo(ns.bucket.p, start, longer, ns.bucket.st)
    ensures r.None? ==> job.attempt < MAX_CAS_ATTEMPTS && ns.At(me, CompactBuilding(job.(attempt := job.attempt + 1)))
    ensures r.None? ==> Underway(ns.bucket.p, start, longer, ns.bucket.st, env, c0, slot)
    ensures r != Some(Err(Unindexable)) && (r == Some(Err(StoreError)) ==> fault != Fine)
  {
    hide Step, LedTo, Run, Others, CountTicks, Prompt;
    ghost var p, u := ns.bucket.p, ns.bucket.st;
    longer := trace;
    if fault == Failed {
      ns.GiveUp(me);
      LedOnce(p, start, longer, u, Crash(me), ns.bucket.st);
      return Some(Err(StoreError)), longer + [Crash(me)];
    }
    var token, epoch := newToken(ns.bucket.st.seen), |ns.bucket.st.epochs|;
    var won := CommitFold(ns, me, job, current, token);
    OnwardOne(p, start, longer, u, CompactCas(me, token), ns.bucket.st, env, c0, slot);
    longer := longer + [CompactCas(me, token)];
    if won.Some? {
      longer := Pause(ns, me, env, slot, c0, start, longer);
      ghost var v := ns.bucket.st;
      if fault == ReplyLost {
        MissFold(ns, me, won.value, epoch);
        LedOnce(p, start, longer, v, CasReply(me, true), ns.bucket.st);
        return Some(Err(StoreError)), longer + [CasReply(me, true)];
      }
      LearnFold(ns, me, won.value, epoch);
      LedOnce(p, start, longer, v, CasReply(me, false), ns.bucket.st);
      return Some(Ok(Compacted(epoch))), longer + [CasReply(me, false)];
    }
    if fault == ReplyLost {
      if job.attempt < MAX_CAS_ATTEMPTS {
        ghost var v := ns.bucket.st;
        ns.GiveUp(me);
        LedOnce(p, start, longer, v, Crash(me), ns.bucket.st);
        longer := longer + [Crash(me)];
      }
      return Some(Err(StoreError)), longer;
    }
    r := if job.attempt >= MAX_CAS_ATTEMPTS then Some(Ok(Lost)) else None;
  }

  /** The commit loop: stop when another compaction won, retry when only writers did. */
  method CommitJob(ns: Namespace, me: Actor, job: Job, env: nat -> seq<Event>, faults: nat -> Fault, slot: nat,
                   newToken: map<Token, Manifest> -> Token,
                   ghost c0: nat, ghost start: State, ghost trace: seq<Event>)
    returns (r: Result<CompactOutcome, CompactError>, ghost longer: seq<Event>)
    requires ns.At(me, CompactBuilding(job)) && |job.built| == job.base.schema.Shards() && job.handle == ns.handle
    requires job.attempt == 1
    requires Underway(ns.bucket.p, start, trace, ns.bucket.st, env, c0, slot) && Prompt(ns.bucket.p, me, env)
    requires (forall m :: newToken(m) !in m) && (job.firstPut.Some? ==> job.firstPut.value >= c0)
    modifies ns.bucket
    ensures LedTo(ns.bucket.p, start, longer, ns.bucket.st) && Concluded(ns.bucket.st, me, r)
    ensures r != Err(Unindexable) && (r == Err(StoreError) ==> Faulty(faults))
  {
    hide Underway, LedTo, Prompt, Faulty, Concluded;
    longer := trace;
    var now, next := job, slot;
    while true
      invariant Underway(ns.bucket.p, start, longer, ns.bucket.st, env, c0, next) && ns.At(me, CompactBuilding(now))
      invariant 1 <= now.attempt <= MAX_CAS_ATTEMPTS && now == job.(attempt := now.attempt)
      decreases MAX_CAS_ATTEMPTS - now.attempt
    {
      var round;
      round, longer := CommitRound(ns, me, now, env, faults, next, newToken, c0, start, longer);
      if round.Some? {
        return round.value, longer;
      }
      now, next := now.(attempt := now.attempt + 1), next + 2;
    }
  }

  /** A compaction call, with `env(i)` ahead of its i-th request and `faults(i)` for what becomes of it; `first` is
      the fault of the load it begins with. It is a run of the protocol; so from a good state, over a guarded run,
      it leaves the live set what the log says, whatever it answers. */
  method Compact(ns: Namespace, me: Actor, build: bool, env: nat -> seq<Event>, first: Fault, faults: nat -> Fault,
                 newShard: (map<Name, Object>, bool) -> (Name, seq<Name>), newToken: map<Token, Manifest> -> Token)
    returns (r: Result<CompactOutcome, CompactError>, ghost trace: seq<Event>)
    requires me !in ns.bucket.st.actors && Prompt(ns.bucket.p, me, env) && FreshShards(newShard)
    requires forall m :: newToken(m) !in m
    modifies ns.bucket
    ensures LedTo(ns.bucket.p, old(ns.bucket.st), trace, ns.bucket.st) && Concluded(ns.bucket.st, me, r)
    ensures LiveStaysTrue(ns.bucket.p, old(ns.bucket.st), trace, ns.bucket.st)
    ensures r == Err(StoreError) ==> first != Fine || Faulty(faults)
    ensures r == Err(Unindexable) ==> build
  {
    hide Step, LedTo, Run, Others, CountTicks, LiveStaysTrue, FreshShards;
    ghost var p, start := ns.bucket.p, ns.bucket.st;
    NoEvents(p, start);
    if first != Fine {
      StillTrue(p, start, [], start);
      return Err(StoreError), [];
    }
    var idle, base := LoadBase(ns, me, build);
    LedOnce(p, start, [], start, BeginCompact(me, ns.handle, build), ns.bucket.st);
    trace := [] + [BeginCompact(me, ns.handle, build)];
    if idle {
      StillTrue(p, start, trace, ns.bucket.st);
      return Ok(Nothing), trace;
    }
    ghost var c0, epoch := ns.bucket.st.clock, |ns.bucket.st.epochs|;
    PromptFacts(p, me, env, 0);
    trace := ns.Await(me, env(0), start, trace);
    ghost var s := ns.bucket.st;
    if faults(0) != Fine {
      ns.GiveUp(me);
      LedOnce(p, start, trace, s, Crash(me), ns.bucket.st);
      trace := trace + [Crash(me)];
      StillTrue(p, start, trace, ns.bucket.st);
      return Err(StoreError), trace;
    }
    var job := ReadLive(ns, me, build, base, epoch);
    LedOnce(p, start, trace, s, CompactRead(me), ns.bucket.st);
    SameClock(p, s, CompactRead(me));
    trace := trace + [CompactRead(me)];
    if job.None? {
      StillTrue(p, start, trace, ns.bucket.st);
      return Ok(Unreadable), trace;
    }
    var built, slot;
    built, slot, trace := BuildShards(ns, me, job.value, env, faults, 1, newShard, c0, start, trace);
    if built.Err? {
      StillTrue(p, start, trace, ns.bucket.st);
      return Err(built.error), trace;
    }
    r, trace := CommitJob(ns, me, built.value, env, faults, slot, newToken, c0, start, trace);
    StillTrue(p, start, trace, ns.bucket.st);
  }

  lemma NoEvents(p: Params, s: State)
    ensures LedTo(p, s, [], s)
  {
  }

  lemma SameClock(p: Params, s: State, e: Event)
    requires e.CompactRead?
    ensures Step(p, s, e).clock == s.clock
  {
    hide LiveOf, Holds;
  }

  ghost predicate LiveStaysTrue(p: Params, s: State, trace: seq<Event>, t: State) {
    Inv(p, s) && GuardedRun(p, s, trace) ==> LiveOf(t.stored, ManifestOf(t.head)) == Truth(t.log)
  }

  lemma StillTrue(p: Params, s: State, trace: seq<Event>, t: State)
    requires LedTo(p, s, trace, t)
    ensures LiveStaysTrue(p, s, trace, t)
  {
    hide Inv, Step, GuardedRun, LiveOf, Truth;
    if Inv(p, s) && GuardedRun(p, s, trace) {
      RunKeeps(p, s, trace);
      StoreFacts(p, t);
      HeadBacked(p, t);
      BackedMeansPrefix(p, t, ManifestOf(t.head));
      assert t.log[..|t.log|] == t.log;
    }
  }

  /** `n` is an object that the manifest does not name and that has outlived the grace period. */
  predicate Overdue(p: Params, s: State, n: Name) {
    n in s.objects && n in s.stored && !Names(ManifestOf(s.head), n) && s.objects[n].putAt + p.grace <= s.clock
  }

  /** Of what was overdue at the start, only `todo` is still there. */
  predicate Cleared(p: Params, start: State, s: State, todo: set<Name>) {
    forall n | Overdue(p, start, n) && n !in todo :: n !in s.objects
  }

  lemma OverdueIsListed(p: Params, start: State, s: State, cutoff: int, todo: set<Name>)
    requires NoneBack(start, s) && cutoff >= start.clock - p.grace
    requires forall n | n in s.objects && s.objects[n].putAt <= cutoff && n !in todo ::
      n in Referenced(ManifestOf(start.head))
    ensures Cleared(p, start, s, todo)
  {
    hide Referenced, Names;
    var m := ManifestOf(start.head);
    forall n | Overdue(p, start, n) && n !in todo ensures n !in s.objects {
      ReferencedIsNamed(m, n);
    }
  }

  lemma StillCleared(p: Params, start: State, s: State, t: State, todo: set<Name>)
    requires Cleared(p, start, s, todo) && NoneBack(start, s) && NoneBack(s, t)
    ensures Cleared(p, start, t, todo)
  {
    hide Names;
  }

  lemma LedNoneBack(p: Params, start: State, trace: seq<Event>, s: State)
    requires LedTo(p, start, trace, s)
    ensures NoneBack(start, s)
  {
    RunNoneBack(p, start, trace);
  }

  /** One more deletion attempt that did not fail. */
  lemma ClearedOne(p: Params, start: State, s: State, t: State, cutoff: int, todo: set<Name>, n: Name)
    requires Cleared(p, start, s, todo + {n}) && NoneBack(start, s) && cutoff >= start.clock - p.grace
    requires t.objects == if n in s.objects && s.objects[n].putAt <= cutoff then s.objects - {n} else s.objects
    ensures Cleared(p, start, t, todo)
  {
    hide Names;
  }

  lemma NamedNotDeleted(m: Manifest, deleted: set<Name>)
    requires deleted !! Referenced(m)
    ensures
      && (forall i | 0 <= i < |m.wal| :: m.wal[i].name !in deleted)
      && (forall i, n | 0 <= i < |m.shards| && n in m.shards[i].segments :: n !in deleted)
      && (forall i, n | 0 <= i < |m.shards| && m.shards[i].index.Some? && n in m.shards[i].index.value :: n !in deleted)
  {
    hide Referenced;
    forall n | n in deleted ensures !Names(m, n) {
      ReferencedIsNamed(m, n);
    }
  }

  lemma AllCleared(p: Params, start: State, s: State)
    requires Cleared(p, start, s, {})
    ensures forall n | Overdue(p, start, n) :: n !in s.objects
  {
  }

  /** Delete what was listed, one object at a time; a deletion that fails does not stop the others. */
  method Sweep(ns: Namespace, me: Actor, env: nat -> seq<Event>, faults: nat -> Fault, listed: set<Name>,
               ghost referenced: set<Name>, ghost at0: nat, cutoff: int, ghost start: State, ghost before: seq<Event>)
    returns (ok: bool, deleted: set<Name>, ghost trace: seq<Event>)
    requires LedTo(ns.bucket.p, start, before, ns.bucket.st) && ns.At(me, GcSweeping(referenced, at0, cutoff))
    requires (forall i :: Others(me, env(i))) && cutoff >= start.clock - ns.bucket.p.grace
    requires listed !! referenced && Cleared(ns.bucket.p, start, ns.bucket.st, listed)
    modifies ns.bucket
    ensures LedTo(ns.bucket.p, start, trace, ns.bucket.st) && deleted <= listed
    ensures ok ==> Cleared(ns.bucket.p, start, ns.bucket.st, {})
    ensures !ok ==> Faulty(faults)
  {
    hide Step, LedTo, Run, Others, CountTicks, Faulty, Cleared, NoneBack;
    ghost var p := ns.bucket.p;
    var slot, todo := 2, listed;
    ok, deleted, trace := true, {}, before;
    while todo != {}
      invariant ns.bucket.p == p && LedTo(p, start, trace, ns.bucket.st) &&
        ns.At(me, GcSweeping(referenced, at0, cutoff))
      invariant todo <= listed && deleted <= listed
      invariant ok ==> Cleared(p, start, ns.bucket.st, todo)
      invariant !ok ==> Faulty(faults)
      decreases todo
    {
      var n :| n in todo;
      ghost var was, left := ns.bucket.st, todo;
      todo := todo - {n};
      LedNoneBack(p, start, trace, was);
      RunNoneBack(p, was, env(slot));
      trace := ns.Await(me, env(slot), start, trace);
      LedNoneBack(p, start, trace, ns.bucket.st);
      if ok {
        StillCleared(p, start, was, ns.bucket.st, left);
        assert left == todo + {n};
      }
      var fault := faults(slot);
      FaultAt(faults, slot);
      slot := slot + 1;
      ok := ok && fault == Fine;
      ghost var u := ns.bucket.st;
      if fault != Failed && n in ns.bucket.st.objects && ns.bucket.st.objects[n].putAt <= cutoff {
        ns.bucket.Delete(n);
        deleted := deleted + {n};
        GcDeleteIs(p, u, me, referenced, at0, cutoff, n);
        LedOnce(p, start, trace, u, GcDelete(me, n), ns.bucket.st);
        trace := trace + [GcDelete(me, n)];
      }
      if ok {
        ClearedOne(p, start, u, ns.bucket.st, cutoff, todo, n);
      }
    }
  }

  /** A collection: load, read the clock, list, delete what is old and unreferenced. `env(i)` is what others
      do ahead of its i-th request, and `faults(i)` what becomes of it. It is a run of the
      protocol. */
  method Collect(ns: Namespace, me: Actor, env: nat -> seq<Event>, faults: nat -> Fault)
    returns (ok: bool, deleted: set<Name>, ghost trace: seq<Event>)
    requires me !in ns.bucket.st.actors && (forall i :: Others(me, env(i))) && CountTicks(env(0)) <= ns.bucket.p.maxLag
    modifies ns.bucket
    ensures LedTo(ns.bucket.p, old(ns.bucket.st), trace, ns.bucket.st)
    ensures LiveStaysTrue(ns.bucket.p, old(ns.bucket.st), trace, ns.bucket.st)
    ensures var m := ManifestOf(old(ns.bucket.st).head);
      && (forall i | 0 <= i < |m.wal| :: m.wal[i].name !in deleted)
      && (forall i, n | 0 <= i < |m.shards| && n in m.shards[i].segments :: n !in deleted)
      && (forall i, n | 0 <= i < |m.shards| && m.shards[i].index.Some? && n in m.shards[i].index.value :: n !in deleted)
    ensures ok ==> forall n | Overdue(ns.bucket.p, old(ns.bucket.st), n) :: n !in ns.bucket.st.objects
    ensures !ok ==> Faulty(faults)
  {
    hide Step, LedTo, Run, Others, CountTicks, LiveStaysTrue, Referenced, Faulty, Names, Overdue, NoneBack;
    ghost var p, start := ns.bucket.p, ns.bucket.st;
    if faults(0) != Fine {
      FaultAt(faults, 0);
      NoEvents(p, start);
      StillTrue(p, start, [], start);
      return false, {}, [];
    }
    var v := ns.bucket.Load(ns.handle);
    var referenced, at0 := Referenced(ManifestOf(v)), ns.bucket.st.clock;
    ns.bucket.Note(me, GcLoaded(referenced, at0));
    GcLoadIs(p, start, me, ns.handle);
    NoEvents(p, start);
    LedOnce(p, start, [], start, GcLoad(me, ns.handle), ns.bucket.st);
    trace := ns.Await(me, env(0), start, [] + [GcLoad(me, ns.handle)]);

    ghost var s := ns.bucket.st;
    var cutoff := ns.bucket.st.clock - ns.bucket.p.grace;
    ns.bucket.Note(me, GcSweeping(referenced, at0, cutoff));
    GcCutoffIs(p, s, me, referenced, at0);
    LedOnce(p, start, trace, s, GcCutoff(me), ns.bucket.st);
    trace := ns.Await(me, env(1), start, trace + [GcCutoff(me)]);

    if faults(1) != Fine {
      FaultAt(faults, 1);
      StillTrue(p, start, trace, ns.bucket.st);
      return false, {}, trace;
    }
    var listed := set n | n in ns.bucket.st.objects && n !in referenced && ns.bucket.st.objects[n].putAt <= cutoff;
    LedNoneBack(p, start, trace, ns.bucket.st);
    OverdueIsListed(p, start, ns.bucket.st, cutoff, listed);
    ok, deleted, trace := Sweep(ns, me, env, faults, listed, referenced, at0, cutoff, start, trace);
    StillTrue(p, start, trace, ns.bucket.st);
    NamedNotDeleted(ManifestOf(start.head), deleted);
    if ok {
      AllCleared(p, start, ns.bucket.st);
    }
  }

  lemma GcLoadIs(p: Params, s: State, me: Actor, h: Handle)
    requires me !in s.actors
    ensures Step(p, s, GcLoad(me, h)) ==
      Become(Remember(s, h, s.head), me, GcLoaded(Referenced(ManifestOf(s.head)), s.clock))
  {
  }

  lemma GcCutoffIs(p: Params, s: State, me: Actor, referenced: set<Name>, at0: nat)
    requires me in s.actors && s.actors[me] == GcLoaded(referenced, at0) && s.clock <= at0 + p.maxLag
    ensures Step(p, s, GcCutoff(me)) == Become(s, me, GcSweeping(referenced, at0, s.clock - p.grace))
  {
  }

  lemma GcDeleteIs(p: Params, s: State, me: Actor, referenced: set<Name>, at0: nat, cutoff: int, n: Name)
    requires me in s.actors && s.actors[me] == GcSweeping(referenced, at0, cutoff)
    requires n in s.objects && n !in referenced && s.objects[n].putAt <= cutoff
    ensures Step(p, s, GcDelete(me, n)) == s.(objects := s.objects - {n})
  {
  }
}
