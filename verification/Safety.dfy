/** What every step of the protocol keeps, and what that says of every run. */
module Safety {
  import opened Wrappers
  import opened Records
  import opened Schemas
  import opened Protocol

  // ------------------------------------------------------------ lists of names and records

  lemma {:induction false} ReadConcat(objects: map<Name, Object>, a: seq<Name>, b: seq<Name>)
    ensures ReadObjects(objects, a + b) == ReadObjects(objects, a) + ReadObjects(objects, b)
    decreases |a|
  {
    if a == [] {
      assert a + b == b;
    } else {
      assert (a + b)[0] == a[0] && (a + b)[1..] == a[1..] + b;
      ReadConcat(objects, a[1..], b);
    }
  }

  lemma {:induction false} ReadSame(x: map<Name, Object>, y: map<Name, Object>, names: seq<Name>)
    requires forall n | n in names :: n in x && n in y && x[n].records == y[n].records
    ensures ReadObjects(x, names) == ReadObjects(y, names)
    decreases |names|
  {
    if names != [] {
      assert forall n | n in names[1..] :: n in names;
      ReadSame(x, y, names[1..]);
    }
  }

  lemma {:induction false} SegmentNamesConcat(a: seq<Shard>, b: seq<Shard>)
    ensures SegmentNames(a + b) == SegmentNames(a) + SegmentNames(b)
    decreases |a|
  {
    if a == [] {
      assert a + b == b;
    } else {
      assert (a + b)[0] == a[0] && (a + b)[1..] == a[1..] + b;
      SegmentNamesConcat(a[1..], b);
    }
  }

  lemma {:induction false} AnchoredHasName(shards: seq<Shard>)
    requires exists i | 0 <= i < |shards| :: shards[i].segments != []
    ensures SegmentNames(shards) != []
    decreases |shards|
  {
    var i :| 0 <= i < |shards| && shards[i].segments != [];
    if i > 0 {
      assert shards[1..][i - 1] == shards[i];
      AnchoredHasName(shards[1..]);
    }
  }

  lemma {:induction false} FlatConcat(a: seq<Commit>, b: seq<Commit>)
    ensures Flat(a + b) == Flat(a) + Flat(b)
    decreases |a|
  {
    if a == [] {
      assert a + b == b;
    } else {
      assert (a + b)[0] == a[0] && (a + b)[1..] == a[1..] + b;
      FlatConcat(a[1..], b);
    }
  }

  lemma TruthSplit(log: seq<Commit>, i: nat, j: nat)
    requires i <= j <= |log|
    ensures Truth(log[..j]) == Replay(Truth(log[..i]), Flat(log[i..j]))
  {
    assert log[..j] == log[..i] + log[i..j];
    FlatConcat(log[..i], log[i..j]);
    ReplayConcat(map[], Flat(log[..i]), Flat(log[i..j]));
  }

  // ------------------------------------------------------------ the invariant

  /** A remembered manifest is one that was really published under that token. */
  predicate Known(s: State, v: Option<Versioned>) {
    v.Some? ==> v.value.token in s.seen && s.seen[v.value.token] == v.value.manifest
  }

  function Start(m: Manifest): int { m.nextSeq - |m.wal| }

  predicate EntryFor(p: Params, e: WalEntry, c: Commit) {
    e == WalEntry(c.name, p.blobLen(c.records), |c.records|)
  }

  predicate WalIs(p: Params, log: seq<Commit>, m: Manifest) {
    && |m.wal| <= m.nextSeq <= |log|
    && forall i | 0 <= i < |m.wal| :: EntryFor(p, m.wal[i], log[Start(m) + i])
  }

  /** A manifest stands for a prefix of the log: its WAL is the end of that prefix, and replaying the
      WAL over its segments gives what the whole prefix means. */
  predicate Backed(p: Params, s: State, m: Manifest) {
    && WalIs(p, s.log, m)
    && Holds(s.stored, SegmentNames(m.shards))
    && Replay(Replay(map[], ReadObjects(s.stored, SegmentNames(m.shards))), Flat(s.log[Start(m)..m.nextSeq])) ==
        Truth(s.log[..m.nextSeq])
    && Sane(m.schema)
  }

  predicate Mine(s: State, a: Actor, names: seq<Name>) {
    forall n | n in names :: n in s.stored && s.stored[n].author == a
  }

  predicate BaseOk(p: Params, s: State, base: Manifest, epoch: nat) {
    && 1 <= epoch <= |s.epochs|
    && s.epochs[epoch - 1].shards == base.shards
    && s.epochs[epoch - 1].start == Start(base)
    && Backed(p, s, base)
  }

  ghost predicate JobOk(p: Params, s: State, a: Actor, job: Job) {
    && BaseOk(p, s, job.base, job.epoch)
    && job.base.nextSeq <= job.upTo <= |s.log|
    && job.live == Truth(s.log[..job.upTo])
    && |job.built| <= job.base.schema.Shards()
    && Mine(s, a, SegmentNames(job.built))
    && ReadObjects(s.stored, SegmentNames(job.built)) ==
        Buckets(p.hash, job.live, job.base.schema.Shards(), |job.built|)
  }

  /** Commit `q` is this call's: its batch and its schema as prepared on some published base, and published
      in a manifest that counts `q + 1` commits. */
  ghost predicate CommittedAt(p: Params, s: State, a: Actor, call: Call, q: nat) {
    && q < |s.log| && s.log[q].call == a
    && exists base, k :: Known(s, base) && Publishes(p, s, base, k, call, q)
  }

  predicate Publishes(p: Params, s: State, base: Option<Versioned>, k: Token, call: Call, q: nat)
    requires q < |s.log|
  {
    k in s.seen && s.seen[k].nextSeq == q + 1 && PrepareCall(p, base, call) == Ok((s.seen[k].schema, s.log[q].records))
  }

  ghost predicate PhaseOk(p: Params, s: State, a: Actor, phase: Phase) {
    match phase
    case WriteBased(_, _, base) => Known(s, base)
    case WriteStored(call, _, base, name, batch, schema) =>
      && Known(s, base)
      && Mine(s, a, [name]) && s.stored[name].records == batch
      && PrepareCall(p, base, call) == Ok((schema, batch))
    case WriteDecided(call, _, won) =>
      && Known(s, won)
      && (won.Some? ==> LoggedAt(phase).Some? && CommittedAt(p, s, a, call, LoggedAt(phase).value))
    case WriteDone(call, outcome, at) =>
      && (at.Some? ==> outcome.Acked? || outcome.Unknown?)
      && (outcome.Acked? ==> at == Some(outcome.seqno))
      && (at.Some? ==> CommittedAt(p, s, a, call, at.value))
    case ReadPending(_, got) => Known(s, Some(got))
    case CompactBased(_, _, loaded, epoch) => BaseOk(p, s, loaded, epoch)
    case CompactBuilding(job) => JobOk(p, s, a, job)
    case CompactReloaded(job, current) =>
      && JobOk(p, s, a, job) && Known(s, current)
      && |job.built| == job.base.schema.Shards()
      && ManifestOf(current).shards == job.base.shards
      && job.base.nextSeq <= ManifestOf(current).nextSeq
    case CompactDecided(_, got, _) => Known(s, Some(got))
    case _ => true
  }

  predicate CommitOk(s: State, i: nat)
    requires i < |s.log|
  {
    var c := s.log[i];
    && Mine(s, c.call, [c.name]) && s.stored[c.name].records == c.records
    && c.call in s.actors && LoggedAt(s.actors[c.call]) == Some(i)
  }

  predicate LogOk(s: State) {
    forall i | 0 <= i < |s.log| :: CommitOk(s, i)
  }

  /** Which compaction is this call's, if its CAS was won. */
  function EpochAt(phase: Phase): Option<nat> {
    match phase
    case CompactDecided(_, _, epoch) => Some(epoch)
    case CompactDone(Compacted(epoch)) => Some(epoch)
    case _ => None
  }

  predicate EpochOk(s: State, i: nat)
    requires i < |s.epochs|
  {
    var e := s.epochs[i];
    if i == 0 then e == Epoch(None, [], 0, 0)
    else
      && e.author.Some? && e.author.value in s.actors && EpochAt(s.actors[e.author.value]) == Some(i)
      && e.shards != [] && Mine(s, e.author.value, SegmentNames(e.shards))
  }

  predicate EpochsOk(s: State) {
    && s.epochs != []
    && (forall i | 0 <= i < |s.epochs| :: EpochOk(s, i))
    && s.epochs[|s.epochs| - 1].shards == ManifestOf(s.head).shards
    && s.epochs[|s.epochs| - 1].start == Start(ManifestOf(s.head))
  }

  predicate HeadOk(s: State) {
    && Known(s, s.head)
    && ManifestOf(s.head).nextSeq == |s.log|
  }

  predicate SeenOk(p: Params, s: State) {
    forall t | t in s.seen :: Backed(p, s, s.seen[t])
  }

  predicate StoreOk(s: State) {
    && (forall n | n in s.objects :: n in s.stored && s.stored[n] == s.objects[n])
    && (forall h | h in s.snapshots :: Known(s, Some(s.snapshots[h])))
    && (forall n | n in s.stored :: s.stored[n].author in s.actors)
  }

  ghost predicate Inv(p: Params, s: State) {
    StoreOk(s) && HeadOk(s) && SeenOk(p, s) && LogOk(s) && EpochsOk(s) && PhasesOk(p, s)
  }

  lemma StoreFacts(p: Params, s: State)
    requires Inv(p, s)
    ensures StoreOk(s) && HeadOk(s) && LogOk(s) && EpochsOk(s)
  {
  }

  lemma PhaseFact(p: Params, s: State, a: Actor)
    requires Inv(p, s) && a in s.actors
    ensures PhaseOk(p, s, a, s.actors[a])
  {
  }

  lemma InitInv(p: Params)
    ensures Inv(p, INIT)
  {
  }

  // ------------------------------------------------------------ history only grows

  predicate Later(s: State, t: State) {
    && (forall n | n in s.stored :: n in t.stored && t.stored[n] == s.stored[n])
    && (forall k | k in s.seen :: k in t.seen && t.seen[k] == s.seen[k])
    && |s.log| <= |t.log| && t.log[..|s.log|] == s.log
    && |s.epochs| <= |t.epochs| && t.epochs[..|s.epochs|] == s.epochs
  }

  lemma BackedLater(p: Params, s: State, t: State, m: Manifest)
    requires Later(s, t) && Backed(p, s, m)
    ensures Backed(p, t, m)
  {
    ReadSame(s.stored, t.stored, SegmentNames(m.shards));
    assert t.log[..m.nextSeq] == s.log[..m.nextSeq];
    assert t.log[Start(m)..m.nextSeq] == s.log[Start(m)..m.nextSeq];
    forall i | 0 <= i < |m.wal| ensures EntryFor(p, m.wal[i], t.log[Start(m) + i]) {
      assert t.log[Start(m) + i] == t.log[..|s.log|][Start(m) + i];
      assert EntryFor(p, m.wal[i], s.log[Start(m) + i]);
    }
  }

  lemma BaseLater(p: Params, s: State, t: State, base: Manifest, epoch: nat)
    requires Later(s, t) && BaseOk(p, s, base, epoch)
    ensures BaseOk(p, t, base, epoch)
  {
    BackedLater(p, s, t, base);
    assert t.epochs[epoch - 1] == t.epochs[..|s.epochs|][epoch - 1];
  }

  lemma JobLater(p: Params, s: State, t: State, a: Actor, job: Job)
    requires Later(s, t) && JobOk(p, s, a, job)
    ensures JobOk(p, t, a, job)
  {
    hide BaseOk, Buckets, Replay, Flat, SegmentNames;
    BaseLater(p, s, t, job.base, job.epoch);
    ReadSame(s.stored, t.stored, SegmentNames(job.built));
    assert t.log[..job.upTo] == s.log[..job.upTo];
  }

  lemma CommittedLater(p: Params, s: State, t: State, a: Actor, call: Call, q: nat)
    requires Later(s, t) && CommittedAt(p, s, a, call, q)
    ensures CommittedAt(p, t, a, call, q)
  {
    hide PrepareCall;
    assert t.log[q] == t.log[..|s.log|][q];
    var base, k :| Known(s, base) && Publishes(p, s, base, k, call, q);
    assert Known(t, base) && Publishes(p, t, base, k, call, q);
  }

  lemma PhaseLater(p: Params, s: State, t: State, a: Actor, phase: Phase)
    requires Later(s, t) && PhaseOk(p, s, a, phase)
    ensures PhaseOk(p, t, a, phase)
  {
    match phase
    case WriteDone(call, outcome, at) =>
      if at.Some? {
        CommittedLater(p, s, t, a, call, at.value);
      }
    case WriteDecided(call, _, won) =>
      if won.Some? {
        CommittedLater(p, s, t, a, call, LoggedAt(phase).value);
      }
    case CompactBased(_, _, loaded, epoch) => BaseLater(p, s, t, loaded, epoch);
    case CompactBuilding(job) => JobLater(p, s, t, a, job);
    case CompactReloaded(job, _) => JobLater(p, s, t, a, job);
    case _ =>
  }

  /** The call is over, or its CAS was won. */
  predicate Decided(phase: Phase) {
    phase.WriteDone? || phase.CompactDone? || LoggedAt(phase).Some? || EpochAt(phase).Some?
  }

  /** A finished call never moves; a won one can only finish, keeping what it won. */
  predicate Follows(x: Phase, y: Phase) {
    Decided(x) ==> y == x || ((x.WriteDecided? || x.CompactDecided?) && (y.WriteDone? || y.CompactDone?) &&
                              LoggedAt(y) == LoggedAt(x) && EpochAt(y) == EpochAt(x))
  }

  predicate DoneStays(s: State, t: State) {
    forall b | b in s.actors && Decided(s.actors[b]) :: b in t.actors && Follows(s.actors[b], t.actors[b])
  }

  /** A step that publishes nothing: only the actor `a` moves, and it owns every new object. */
  predicate Quiet(s: State, t: State, a: Actor) {
    && Later(s, t)
    && t.head == s.head && t.seen == s.seen && t.log == s.log && t.epochs == s.epochs
    && (forall b | b in t.actors && b != a :: b in s.actors && t.actors[b] == s.actors[b])
    && DoneStays(s, t)
  }

  lemma SeenLater(p: Params, s: State, t: State)
    requires SeenOk(p, s) && Later(s, t) && t.seen == s.seen
    ensures SeenOk(p, t)
  {
    hide Later, Backed;
    forall k | k in t.seen ensures Backed(p, t, t.seen[k]) {
      BackedLater(p, s, t, t.seen[k]);
    }
  }

  ghost predicate PhasesOk(p: Params, s: State) {
    forall a | a in s.actors :: PhaseOk(p, s, a, s.actors[a])
  }

  lemma PhasesLater(p: Params, s: State, t: State, a: Actor)
    requires PhasesOk(p, s) && Later(s, t)
    requires forall b | b in t.actors && b != a :: b in s.actors && t.actors[b] == s.actors[b]
    requires a in t.actors ==> PhaseOk(p, t, a, t.actors[a])
    ensures PhasesOk(p, t)
  {
    hide Later, PhaseOk;
    forall b | b in t.actors ensures PhaseOk(p, t, b, t.actors[b]) {
      if b != a {
        PhaseLater(p, s, t, b, s.actors[b]);
      }
    }
  }

  lemma EpochsLater(s: State, t: State)
    requires EpochsOk(s) && Later(s, t) && DoneStays(s, t) && t.epochs == s.epochs
    requires ManifestOf(t.head).shards == ManifestOf(s.head).shards &&
      Start(ManifestOf(t.head)) == Start(ManifestOf(s.head))
    ensures EpochsOk(t)
  {
    forall i | 0 <= i < |t.epochs| ensures EpochOk(t, i) {
      assert EpochOk(s, i);
    }
  }

  lemma LogLater(s: State, t: State)
    requires LogOk(s) && Later(s, t) && DoneStays(s, t) && t.log == s.log
    ensures LogOk(t)
  {
    forall i | 0 <= i < |t.log| ensures CommitOk(t, i) {
      assert CommitOk(s, i);
    }
  }

  lemma QuietKeeps(p: Params, s: State, t: State, a: Actor)
    requires Inv(p, s) && Quiet(s, t, a) && StoreOk(t)
    requires a in t.actors ==> PhaseOk(p, t, a, t.actors[a])
    ensures Inv(p, t)
  {
    hide Later, PhaseOk, SeenOk, PhasesOk, LogOk, EpochsOk;
    SeenLater(p, s, t);
    PhasesLater(p, s, t, a);
    EpochsLater(s, t);
    LogLater(s, t);
  }

  // ------------------------------------------------------------ what a manifest means

  lemma {:induction false} ReadEntries(stored: map<Name, Object>, names: seq<Name>, commits: seq<Commit>)
    requires |names| == |commits|
    requires forall i | 0 <= i < |names| ::
      names[i] == commits[i].name && names[i] in stored && stored[names[i]].records == commits[i].records
    ensures ReadObjects(stored, names) == Flat(commits)
    decreases |names|
  {
    if names != [] {
      assert names[0] == commits[0].name;
      forall i | 0 <= i < |names[1..]|
        ensures names[1..][i] == commits[1..][i].name && names[1..][i] in stored &&
                stored[names[1..][i]].records == commits[1..][i].records
      {
        assert names[1..][i] == names[i + 1] && commits[1..][i] == commits[i + 1];
      }
      ReadEntries(stored, names[1..], commits[1..]);
    }
  }

  /** Every manifest ever published materializes to the log prefix it counts. */
  lemma BackedMeansPrefix(p: Params, s: State, m: Manifest)
    requires LogOk(s) && Backed(p, s, m)
    ensures LiveOf(s.stored, m) == Truth(s.log[..m.nextSeq])
    ensures Holds(s.stored, SegmentNames(m.shards)) && Holds(s.stored, WalNames(m.wal))
  {
    var names, commits := WalNames(m.wal), s.log[Start(m)..m.nextSeq];
    forall i | 0 <= i < |names|
      ensures names[i] == commits[i].name && names[i] in s.stored && s.stored[names[i]].records == commits[i].records
    {
      assert EntryFor(p, m.wal[i], s.log[Start(m) + i]);
      assert commits[i] == s.log[Start(m) + i];
      assert CommitOk(s, Start(m) + i);
      assert commits[i].name in [commits[i].name];
    }
    ReadEntries(s.stored, names, commits);
    ReplayConcat(map[], ReadObjects(s.stored, SegmentNames(m.shards)), Flat(commits));
  }

  lemma HeadBacked(p: Params, s: State)
    requires Inv(p, s)
    ensures Backed(p, s, ManifestOf(s.head)) && BaseOk(p, s, ManifestOf(s.head), |s.epochs|)
    ensures Truth(s.log[..|s.log|]) == Truth(s.log)
  {
    assert s.log[..|s.log|] == s.log;
  }

  lemma TruthKeyed(log: seq<Commit>)
    ensures Keyed(Truth(log))
  {
    ReplayKeyed(map[], Flat(log));
  }

  // ------------------------------------------------------------ the quiet steps

  predicate Movable(s: State, a: Actor, phase: Phase) {
    a in s.actors ==> Follows(s.actors[a], phase)
  }

  lemma PhaseLocal(p: Params, s: State, t: State, a: Actor, phase: Phase)
    requires PhaseOk(p, s, a, phase)
    requires t.stored == s.stored && t.seen == s.seen && t.log == s.log && t.epochs == s.epochs
    ensures PhaseOk(p, t, a, phase)
  {
    hide PhaseOk;
    assert s.log[..|s.log|] == s.log && s.epochs[..|s.epochs|] == s.epochs;
    PhaseLater(p, s, t, a, phase);
  }

  /** A step that only moves one actor, after possibly remembering a manifest. */
  lemma MoveKeeps(p: Params, s: State, h: Handle, v: Option<Versioned>, a: Actor, phase: Phase)
    requires Inv(p, s) && Known(s, v) && Movable(s, a, phase) && PhaseOk(p, s, a, phase)
    ensures Inv(p, Become(Remember(s, h, v), a, phase))
  {
    hide Inv, PhaseOk, LogOk, EpochsOk;
    var t := Become(Remember(s, h, v), a, phase);
    StoreFacts(p, s);
    assert s.log[..|s.log|] == s.log && s.epochs[..|s.epochs|] == s.epochs;
    PhaseLocal(p, s, t, a, phase);
    QuietKeeps(p, s, t, a);
  }

  lemma KeepsForget(p: Params, s: State, h: Handle)
    requires Inv(p, s)
    ensures Inv(p, s.(snapshots := s.snapshots - {h}))
  {
    hide PhaseOk, PhasesOk, LogOk, EpochsOk, SeenOk;
    var t := s.(snapshots := s.snapshots - {h});
    assert s.log[..|s.log|] == s.log && s.epochs[..|s.epochs|] == s.epochs;
    SeenLater(p, s, t);
    LogLater(s, t);
    EpochsLater(s, t);
    PhasesStay(p, s, t);
  }

  lemma PhasesStay(p: Params, s: State, t: State)
    requires PhasesOk(p, s) && t.actors == s.actors
    requires t.stored == s.stored && t.seen == s.seen && t.log == s.log && t.epochs == s.epochs
    ensures PhasesOk(p, t)
  {
    hide PhaseOk;
    forall a | a in t.actors ensures PhaseOk(p, t, a, t.actors[a]) {
      PhaseLocal(p, s, t, a, s.actors[a]);
    }
  }

  /** Time passes, or an object is deleted. */
  lemma KeepsWorld(p: Params, s: State, clock: nat, doomed: set<Name>)
    requires Inv(p, s)
    ensures Inv(p, s.(clock := clock, objects := s.objects - doomed))
  {
    hide PhaseOk, PhasesOk, LogOk, EpochsOk, SeenOk;
    var t := s.(clock := clock, objects := s.objects - doomed);
    assert s.log[..|s.log|] == s.log && s.epochs[..|s.epochs|] == s.epochs;
    SeenLater(p, s, t);
    LogLater(s, t);
    EpochsLater(s, t);
    PhasesStay(p, s, t);
  }

  lemma KeepsSimple(p: Params, s: State, e: Event)
    requires Inv(p, s)
    requires e.BeginWrite? || e.ReaderGet? || e.ReaderRemember? || e.GcLoad? || e.GcCutoff?
    ensures Inv(p, Step(p, s, e))
  {
    hide Inv, DoCompactPut, DoWriterCas, DoCompactCas, DoWriterPut, DoCompactReload, DoCompactRead, DoBeginCompact,
        BaseOk, JobOk, Referenced, Become, Remember;
    var t := Step(p, s, e);
    HeadKnown(p, s);
    if t != s {
      if e.a in s.actors {
        PhaseFact(p, s, e.a);
      }
      match e
      case BeginWrite(a, call) => MoveKeeps(p, s, 0, None, a, WriteStart(call, 1)); NoRemember(s);
      case ReaderGet(a, h) => MoveKeeps(p, s, 0, None, a, ReadPending(h, s.head.value)); NoRemember(s);
      case ReaderRemember(a) => MoveKeeps(p, s, s.actors[a].handle, Some(s.actors[a].got), a, Dead);
      case GcLoad(a, h) => MoveKeeps(p, s, h, s.head, a, GcLoaded(Referenced(ManifestOf(s.head)), s.clock));
      case GcCutoff(a) =>
        MoveKeeps(p, s, 0, None, a, GcSweeping(s.actors[a].refs, s.actors[a].at0, s.clock - p.grace));
        NoRemember(s);
    }
  }

  lemma NoRemember(s: State)
    ensures forall h :: Remember(s, h, None) == s
  {
  }

  lemma HeadKnown(p: Params, s: State)
    requires Inv(p, s)
    ensures Known(s, s.head)
    ensures forall h | h in s.snapshots :: Known(s, Some(s.snapshots[h]))
  {
    hide SeenOk, LogOk, EpochsOk, PhasesOk;
  }

  lemma KeepsWriterLoad(p: Params, s: State, a: Actor)
    requires Inv(p, s)
    ensures Inv(p, DoWriterLoad(s, a))
  {
    hide Inv, BaseOk, JobOk;
    if DoWriterLoad(s, a) != s {
      var ph := s.actors[a];
      HeadKnown(p, s);
      if ph.attempt == 1 && ph.call.handle in s.snapshots {
        MoveKeeps(p, s, 0, None, a, WriteBased(ph.call, ph.attempt, Some(s.snapshots[ph.call.handle])));
      } else {
        MoveKeeps(p, s, ph.call.handle, s.head, a, WriteBased(ph.call, ph.attempt, s.head));
      }
    }
  }

  /** A step whose only further effect is to PUT new objects of the actor's own. */
  predicate Puts(s: State, t: State, a: Actor, put: map<Name, Object>, phase: Phase) {
    && (forall n | n in put :: n !in s.stored && put[n].author == a)
    && t == s.(objects := s.objects + put, stored := s.stored + put, actors := s.actors[a := phase])
  }

  lemma PutKeeps(p: Params, s: State, t: State, a: Actor, put: map<Name, Object>, phase: Phase)
    requires Inv(p, s) && Movable(s, a, phase) && Puts(s, t, a, put, phase) && PhaseOk(p, t, a, phase)
    ensures Inv(p, t)
  {
    hide Inv, PhaseOk, LogOk, EpochsOk, DoneStays, Follows;
    StoreFacts(p, s);
    OthersStay(s, t, a);
    assert s.log[..|s.log|] == s.log && s.epochs[..|s.epochs|] == s.epochs;
    assert Quiet(s, t, a);
    QuietKeeps(p, s, t, a);
  }

  /** A writer's PUT stores its prepared batch, or reports the batch as rejected. */
  lemma WriterPutForms(p: Params, s: State, a: Actor, name: Name)
    requires DoWriterPut(p, s, a, name) != s
    ensures a in s.actors && s.actors[a].WriteBased?
    ensures var t, ph := DoWriterPut(p, s, a, name), s.actors[a];
      match PrepareCall(p, ph.base, ph.call)
      case Err(e) => t == Become(s, a, WriteDone(ph.call, Rejected(e), None))
      case Ok((schema, batch)) =>
        Puts(s, t, a, map[name := Object(batch, s.clock, a)],
            WriteStored(ph.call, ph.attempt, ph.base, name, batch, schema))
  {
    hide PrepareCall;
  }

  lemma StoredPhaseOk(p: Params, s: State, t: State, a: Actor, ph: Phase, name: Name, batch: seq<Record>,
                      schema: Schema)
    requires ph.WriteBased? && PhaseOk(p, s, a, ph) && PrepareCall(p, ph.base, ph.call) == Ok((schema, batch))
    requires Puts(s, t, a, map[name := Object(batch, s.clock, a)],
      WriteStored(ph.call, ph.attempt, ph.base, name, batch, schema))
    ensures PhaseOk(p, t, a, WriteStored(ph.call, ph.attempt, ph.base, name, batch, schema))
  {
    hide PrepareCall;
  }

  lemma RejectedPhaseOk(p: Params, s: State, a: Actor, call: Call, e: SchemaError)
    ensures PhaseOk(p, s, a, WriteDone(call, Rejected(e), None))
  {
  }

  lemma KeepsWriterPut(p: Params, s: State, a: Actor, name: Name)
    requires Inv(p, s)
    ensures Inv(p, DoWriterPut(p, s, a, name))
  {
    hide Inv, PrepareCall, DoWriterPut, PhaseOk, Puts;
    var t := DoWriterPut(p, s, a, name);
    if t != s {
      WriterPutForms(p, s, a, name);
      PhaseFact(p, s, a);
      var ph := s.actors[a];
      match PrepareCall(p, ph.base, ph.call)
      case Err(e) =>
        RejectedPhaseOk(p, s, a, ph.call, e);
        MoveKeeps(p, s, 0, None, a, WriteDone(ph.call, Rejected(e), None));
      case Ok((schema, batch)) =>
        var next := WriteStored(ph.call, ph.attempt, ph.base, name, batch, schema);
        StoredPhaseOk(p, s, t, a, ph, name, batch, schema);
        PutKeeps(p, s, t, a, map[name := Object(batch, s.clock, a)], next);
    }
  }

  lemma KeepsBeginCompact(p: Params, s: State, a: Actor, h: Handle, build: bool)
    requires Inv(p, s)
    ensures Inv(p, DoBeginCompact(s, a, h, build))
  {
    hide Inv, JobOk, BaseOk, NothingToDo, Become, Remember;
    if DoBeginCompact(s, a, h, build) != s {
      HeadKnown(p, s);
      HeadBacked(p, s);
      if NothingToDo(ManifestOf(s.head), build) {
        MoveKeeps(p, s, h, s.head, a, CompactDone(Nothing));
      } else {
        MoveKeeps(p, s, h, s.head, a, CompactBased(h, build, ManifestOf(s.head), |s.epochs|));
      }
    }
  }

  /** What a compaction reads is what the log means at that moment. */
  lemma HeadReads(p: Params, s: State)
    requires Inv(p, s)
    requires Holds(s.objects, SegmentNames(ManifestOf(s.head).shards)) &&
      Holds(s.objects, WalNames(ManifestOf(s.head).wal))
    ensures LiveOf(s.objects, ManifestOf(s.head)) == Truth(s.log)
  {
    hide Inv, LogOk, EpochsOk, Backed;
    var m := ManifestOf(s.head);
    StoreFacts(p, s);
    HeadBacked(p, s);
    BackedMeansPrefix(p, s, m);
    ReadSame(s.objects, s.stored, SegmentNames(m.shards));
    ReadSame(s.objects, s.stored, WalNames(m.wal));
  }

  lemma BasedPhase(p: Params, s: State, a: Actor)
    requires Inv(p, s) && a in s.actors && s.actors[a].CompactBased?
    ensures BaseOk(p, s, s.actors[a].loaded, s.actors[a].epoch)
    ensures s.actors[a].loaded.nextSeq <= |s.log| && s.actors[a].loaded.schema.Shards() >= 1
  {
    hide Inv;
    PhaseFact(p, s, a);
  }

  lemma JobPhase(p: Params, s: State, a: Actor)
    requires Inv(p, s) && a in s.actors && (s.actors[a].CompactBuilding? || s.actors[a].CompactReloaded?)
    ensures JobOk(p, s, a, s.actors[a].job)
    ensures s.actors[a].job.base.nextSeq <= |s.log|
  {
    hide Inv;
    PhaseFact(p, s, a);
  }

  lemma BuildingPhase(p: Params, s: State, a: Actor, job: Job)
    requires JobOk(p, s, a, job)
    ensures PhaseOk(p, s, a, CompactBuilding(job))
  {
  }

  lemma NewJob(p: Params, s: State, a: Actor, job: Job)
    requires BaseOk(p, s, job.base, job.epoch) && job.base.nextSeq <= |s.log| && job.built == []
    requires job.upTo == |s.log| && job.live == Truth(s.log)
    ensures JobOk(p, s, a, job)
  {
    assert s.log[..|s.log|] == s.log;
  }

  lemma KeepsCompactRead(p: Params, s: State, a: Actor)
    requires Inv(p, s)
    ensures Inv(p, DoCompactRead(s, a))
  {
    hide Inv, JobOk, BaseOk, PhaseOk, Become, Remember, LiveOf, Truth;
    if DoCompactRead(s, a) != s {
      var ph, m := s.actors[a], ManifestOf(s.head);
      HeadKnown(p, s);
      BasedPhase(p, s, a);
      if Holds(s.objects, SegmentNames(m.shards)) && Holds(s.objects, WalNames(m.wal)) {
        HeadReads(p, s);
        var job := Job(ph.handle, ph.build, ph.loaded, ph.epoch, LiveOf(s.objects, m), |s.log|, [], None, 1);
        NewJob(p, s, a, job);
        BuildingPhase(p, s, a, job);
        MoveKeeps(p, s, ph.handle, s.head, a, CompactBuilding(job));
      } else {
        DonePhase(p, s, a, Unreadable);
        MoveKeeps(p, s, ph.handle, s.head, a, CompactDone(Unreadable));
      }
    }
  }

  lemma DonePhase(p: Params, s: State, a: Actor, result: CompactOutcome)
    ensures PhaseOk(p, s, a, CompactDone(result))
  {
  }

  lemma KeepsCompactReload(p: Params, s: State, a: Actor)
    requires Inv(p, s)
    ensures Inv(p, DoCompactReload(s, a))
  {
    hide Inv, JobOk, PhaseOk, Become, Remember;
    if DoCompactReload(s, a) != s {
      var job := s.actors[a].job;
      HeadKnown(p, s);
      JobPhase(p, s, a);
      if ManifestOf(s.head).shards != job.base.shards {
        DonePhase(p, s, a, Stale);
        MoveKeeps(p, s, job.handle, s.head, a, CompactDone(Stale));
      } else {
        ReloadedPhase(p, s, a, job);
        MoveKeeps(p, s, job.handle, s.head, a, CompactReloaded(job, s.head));
      }
    }
  }

  lemma ReloadedPhase(p: Params, s: State, a: Actor, job: Job)
    requires Inv(p, s) && JobOk(p, s, a, job) && |job.built| >= job.base.schema.Shards()
    requires ManifestOf(s.head).shards == job.base.shards
    ensures PhaseOk(p, s, a, CompactReloaded(job, s.head))
  {
    hide Inv, JobOk, SeenOk, LogOk, EpochsOk, StoreOk;
    StoreFacts(p, s);
    JobBehind(p, s, a, job);
  }

  lemma JobBehind(p: Params, s: State, a: Actor, job: Job)
    requires JobOk(p, s, a, job)
    ensures job.base.nextSeq <= |s.log| && job.base.schema.Shards() >= 1 && |job.built| <= job.base.schema.Shards()
  {
    hide BaseOk, Buckets, ReadObjects, SegmentNames, Truth, Mine;
    BaseBehind(p, s, job.base, job.epoch);
  }

  lemma BaseBehind(p: Params, s: State, base: Manifest, epoch: nat)
    requires BaseOk(p, s, base, epoch)
    ensures base.nextSeq <= |s.log| && base.schema.Shards() >= 1
  {
  }

  /** What a job needs of the shard just written. */
  lemma PutKeepsBuilt(p: Params, s: State, t: State, job: Job, last: Shard)
    requires ReadObjects(t.stored, SegmentNames(job.built)) ==
      Buckets(p.hash, job.live, job.base.schema.Shards(), |job.built|)
    requires ReadObjects(t.stored, last.segments) == NextBucket(p, job)
    ensures SegmentNames(job.built + [last]) == SegmentNames(job.built) + last.segments
    ensures ReadObjects(t.stored, SegmentNames(job.built + [last])) ==
            Buckets(p.hash, job.live, job.base.schema.Shards(), |job.built| + 1)
  {
    SegmentNamesConcat(job.built, [last]);
    assert SegmentNames([last]) == last.segments + SegmentNames([last][1..]);
    ReadConcat(t.stored, SegmentNames(job.built), last.segments);
  }

  lemma PutKeepsJob(p: Params, s: State, t: State, a: Actor, job: Job, last: Shard, firstPut: Option<nat>)
    requires JobOk(p, s, a, job) && Later(s, t) && |job.built| < job.base.schema.Shards()
    requires Mine(t, a, last.segments)
    requires ReadObjects(t.stored, last.segments) == NextBucket(p, job)
    ensures JobOk(p, t, a, job.(built := job.built + [last], firstPut := firstPut))
  {
    hide BaseOk, Later, NextBucket, Bucket, Buckets, ReadObjects, SegmentNames, Truth;
    JobLater(p, s, t, a, job);
    PutKeepsBuilt(p, s, t, job, last);
  }

  lemma KeepsEmptyShard(p: Params, s: State, a: Actor, job: Job)
    requires Inv(p, s) && JobOk(p, s, a, job) && a in s.actors && s.actors[a].CompactBuilding? &&
      NextBucket(p, job) == []
    requires |job.built| < job.base.schema.Shards()
    ensures Inv(p, Become(s, a, CompactBuilding(job.(built := job.built + [EMPTY_SHARD]))))
  {
    hide Inv, JobOk, NextBucket, PhaseOk;
    assert s.log[..|s.log|] == s.log && s.epochs[..|s.epochs|] == s.epochs;
    assert Later(s, s);
    PutKeepsJob(p, s, s, a, job, EMPTY_SHARD, job.firstPut);
    BuildingPhase(p, s, a, job.(built := job.built + [EMPTY_SHARD]));
    MoveKeeps(p, s, 0, None, a, CompactBuilding(job.(built := job.built + [EMPTY_SHARD])));
  }

  lemma KeepsShard(p: Params, s: State, t: State, a: Actor, job: Job, segment: Name, index: seq<Name>, next: Job)
    requires Inv(p, s) && JobOk(p, s, a, job) && a in s.actors && s.actors[a].CompactBuilding?
    requires |job.built| < job.base.schema.Shards() && FreshNames(s, segment, index)
    requires next == job.(built := job.built + [Shard([segment], if job.build then Some(index) else None)],
      firstPut := next.firstPut)
    requires Puts(s, t, a, ShardObjects(NextBucket(p, job), segment, index, s.clock, a), CompactBuilding(next))
    ensures Inv(p, t)
  {
    hide Inv, JobOk, NextBucket, PhaseOk;
    assert s.log[..|s.log|] == s.log && s.epochs[..|s.epochs|] == s.epochs;
    assert Later(s, t);
    var last := Shard([segment], if job.build then Some(index) else None);
    assert t.stored[segment].records == NextBucket(p, job);
    assert ReadObjects(t.stored, [segment]) == NextBucket(p, job) + ReadObjects(t.stored, [segment][1..]);
    PutKeepsJob(p, s, t, a, job, last, next.firstPut);
    BuildingPhase(p, t, a, next);
    PutKeeps(p, s, t, a, ShardObjects(NextBucket(p, job), segment, index, s.clock, a), CompactBuilding(next));
  }

  lemma KeepsCompactPut(p: Params, s: State, a: Actor, segment: Name, index: seq<Name>)
    requires Inv(p, s)
    ensures Inv(p, DoCompactPut(p, s, a, segment, index))
  {
    hide Inv, JobOk, NextBucket;
    var t := DoCompactPut(p, s, a, segment, index);
    if t != s {
      JobPhase(p, s, a);
      var job := s.actors[a].job;
      if NextBucket(p, job) == [] {
        KeepsEmptyShard(p, s, a, job);
      } else {
        KeepsShard(p, s, t, a, job, segment, index, t.actors[a].job);
      }
    }
  }

  // ------------------------------------------------------------ the publishing steps

  lemma SameHead(s: State, expected: Option<Versioned>)
    requires HeadOk(s) && Known(s, expected) && Unchanged(s.head, expected)
    ensures ManifestOf(expected) == ManifestOf(s.head)
  {
  }

  /** A step that publishes `m`, by an actor that ends in one of the two final phases. */
  lemma SeenGrows(p: Params, s: State, t: State, m: Manifest, token: Token)
    requires SeenOk(p, s) && Later(s, t) && t.seen == s.seen[token := m] && Backed(p, t, m)
    ensures SeenOk(p, t)
  {
    hide Later, Backed;
    forall k | k in t.seen ensures Backed(p, t, t.seen[k]) {
      if k != token {
        BackedLater(p, s, t, s.seen[k]);
      }
    }
  }

  /** Publishing under a fitting token, with a longer history, keeps what was there. */
  lemma PublishedLater(s: State, t: State, m: Manifest, token: Token)
    requires TokenFits(s, token, m) && t == Publish(s, m, token).(log := t.log, epochs := t.epochs, actors := t.actors)
    requires |s.log| <= |t.log| && t.log[..|s.log|] == s.log && |s.epochs| <= |t.epochs| &&
      t.epochs[..|s.epochs|] == s.epochs
    ensures Later(s, t)
  {
  }

  lemma PublishKeeps(p: Params, s: State, t: State, a: Actor, m: Manifest, token: Token)
    requires Inv(p, s) && Later(s, t) && StoreOk(t)
    requires t.head == Some(Versioned(m, token)) && t.seen == s.seen[token := m]
    requires m.nextSeq == |t.log| && Backed(p, t, m)
    requires a in s.actors && a in t.actors && t.actors == s.actors[a := t.actors[a]] && PhaseOk(p, t, a, t.actors[a])
    requires LogOk(t) && EpochsOk(t)
    ensures Inv(p, t)
  {
    hide Later, Backed, StoreOk, LogOk, EpochsOk, SeenOk, PhaseOk, PhasesOk;
    SeenGrows(p, s, t, m, token);
    PhasesLater(p, s, t, a);
  }

  lemma NextWal(p: Params, log: seq<Commit>, m: Manifest, c: Commit, schema: Schema)
    requires WalIs(p, log, m) && m.nextSeq == |log|
    ensures WalIs(p, log + [c], NextManifest(p, m, c.name, c.records, schema))
  {
    var next := NextManifest(p, m, c.name, c.records, schema);
    forall i | 0 <= i < |next.wal| ensures EntryFor(p, next.wal[i], (log + [c])[Start(next) + i]) {
      if i < |m.wal| {
        assert EntryFor(p, m.wal[i], log[Start(m) + i]);
      }
    }
  }

  lemma NextLive(segments: Live, log: seq<Commit>, start: nat, c: Commit)
    requires start <= |log| && Replay(segments, Flat(log[start..])) == Truth(log)
    ensures Replay(segments, Flat((log + [c])[start..])) == Truth(log + [c])
  {
    assert (log + [c])[start..] == log[start..] + [c];
    FlatConcat(log[start..], [c]);
    FlatConcat(log, [c]);
    ReplayConcat(segments, Flat(log[start..]), Flat([c]));
    ReplayConcat(map[], Flat(log), Flat([c]));
  }

  lemma NextBacked(p: Params, s: State, t: State, m: Manifest, c: Commit, schema: Schema)
    requires Later(s, t) && Backed(p, s, m) && m.nextSeq == |s.log| && t.log == s.log + [c] && Sane(schema)
    ensures Backed(p, t, NextManifest(p, m, c.name, c.records, schema))
  {
    hide Replay, Flat, ReadObjects, SegmentNames, EntryFor;
    var next := NextManifest(p, m, c.name, c.records, schema);
    NextWal(p, s.log, m, c, schema);
    ReadSame(s.stored, t.stored, SegmentNames(m.shards));
    assert s.log[Start(m)..|s.log|] == s.log[Start(m)..] && s.log[..|s.log|] == s.log;
    assert t.log[Start(m)..|t.log|] == t.log[Start(m)..] && t.log[..|t.log|] == t.log;
    NextLive(Replay(map[], ReadObjects(s.stored, SegmentNames(m.shards))), s.log, Start(m), c);
  }

  lemma LostWriterCas(p: Params, s: State, h: Handle, a: Actor, phase: Phase)
    requires Inv(p, s) && Movable(s, a, phase) &&
      (phase.WriteStart? || (phase.WriteDone? && phase.outcome == Contended && phase.at == None))
    ensures Inv(p, Become(s.(snapshots := s.snapshots - {h}), a, phase))
  {
    hide Inv, JobOk, BaseOk;
    var forgot := s.(snapshots := s.snapshots - {h});
    KeepsForget(p, s, h);
    MoveKeeps(p, forgot, 0, None, a, phase);
  }

  lemma NewCommitOk(s: State, t: State, c: Commit)
    requires LogOk(s) && Later(s, t) && t.log == s.log + [c]
    requires forall b | b in s.actors && b != c.call :: b in t.actors && t.actors[b] == s.actors[b]
    requires c.call in s.actors && LoggedAt(s.actors[c.call]).None?
    requires Mine(t, c.call, [c.name]) && t.stored[c.name].records == c.records
    requires c.call in t.actors && LoggedAt(t.actors[c.call]) == Some(|s.log|)
    ensures LogOk(t)
  {
    forall i | 0 <= i < |t.log| ensures CommitOk(t, i) {
      if i < |s.log| {
        assert CommitOk(s, i) && s.log[i].name in [s.log[i].name];
      }
    }
  }

  lemma StoredPhase(p: Params, s: State, a: Actor)
    requires Inv(p, s) && a in s.actors && s.actors[a].WriteStored?
    ensures Known(s, s.actors[a].base) && Mine(s, a, [s.actors[a].name])
    ensures s.stored[s.actors[a].name].records == s.actors[a].batch
    ensures PrepareCall(p, s.actors[a].base, s.actors[a].call) == Ok((s.actors[a].schema, s.actors[a].batch))
    ensures s.actors[a].name in [s.actors[a].name]
  {
    hide Inv, PrepareCall;
    PhaseFact(p, s, a);
  }

  lemma DecidedPhase(p: Params, s: State, t: State, a: Actor, ph: Phase, got: Versioned)
    requires ph.WriteStored? && Known(t, ph.base) && Known(t, Some(got))
    requires PrepareCall(p, ph.base, ph.call) == Ok((ph.schema, ph.batch))
    requires |t.log| == |s.log| + 1 && t.log[|s.log|] == Commit(a, ph.name, ph.batch)
    requires got.manifest.nextSeq == |s.log| + 1 && got.manifest.schema == ph.schema
    ensures PhaseOk(p, t, a, WriteDecided(ph.call, ph.attempt, Some(got)))
    ensures LoggedAt(WriteDecided(ph.call, ph.attempt, Some(got))) == Some(|s.log|)
  {
    hide PrepareCall;
    assert Publishes(p, t, ph.base, got.token, ph.call, |s.log|);
  }

  lemma WonWriterCas(p: Params, s: State, t: State, a: Actor, token: Token)
    requires Inv(p, s) && a in s.actors && s.actors[a].WriteStored?
    requires ManifestOf(s.actors[a].base) == ManifestOf(s.head)
    requires var ph := s.actors[a];
      var m := NextManifest(p, ManifestOf(ph.base), ph.name, ph.batch, ph.schema);
      && TokenFits(s, token, m)
      && t == Publish(s, m, token).(
                log := s.log + [Commit(a, ph.name, ph.batch)],
                actors := s.actors[a := WriteDecided(ph.call, ph.attempt, Some(Versioned(m, token)))])
    ensures Inv(p, t)
  {
    hide Inv, PhaseOk, Backed, LogOk, EpochsOk, PrepareCall, SeenOk, PhasesOk, Later;
    var ph := s.actors[a];
    var base, c := ManifestOf(ph.base), Commit(a, ph.name, ph.batch);
    var m := NextManifest(p, base, ph.name, ph.batch, ph.schema);
    StoreFacts(p, s);
    HeadBacked(p, s);
    StoredPhase(p, s, a);
    PreparedSane(p, s, ph.base, ph.call);
    assert t.epochs[..|s.epochs|] == s.epochs && t.log[..|s.log|] == s.log;
    PublishedLater(s, t, m, token);
    NextBacked(p, s, t, base, c, ph.schema);
    DecidedPhase(p, s, t, a, ph, Versioned(m, token));
    NewCommitOk(s, t, c);
    EpochsLater(s, t);
    PublishKeeps(p, s, t, a, m, token);
  }

  lemma PreparedSane(p: Params, s: State, base: Option<Versioned>, call: Call)
    requires Backed(p, s, ManifestOf(base)) && PrepareCall(p, base, call).Ok?
    ensures Sane(PrepareCall(p, base, call).value.0)
  {
    var m := ManifestOf(base);
    PrepareSane(p.host, m.schema, m.HasData(), call.config, call.records);
  }

  lemma KeepsWriterCas(p: Params, s: State, a: Actor, token: Token)
    requires Inv(p, s)
    ensures Inv(p, DoWriterCas(p, s, a, token))
  {
    hide Inv, PrepareCall, NextManifest, SeenOk, LogOk, EpochsOk;
    var t := DoWriterCas(p, s, a, token);
    if t != s {
      var ph := s.actors[a];
      if Unchanged(s.head, ph.base) {
        StoredPhase(p, s, a);
        StoreFacts(p, s);
        SameHead(s, ph.base);
        WonWriterCas(p, s, t, a, token);
      } else {
        MoveKeeps(p, s, 0, None, a, WriteDecided(ph.call, ph.attempt, None));
      }
    }
  }

  /** Learning what the store decided changes nothing but what the caller knows. */
  lemma KeepsCasReply(p: Params, s: State, a: Actor, lost: bool)
    requires Inv(p, s)
    ensures Inv(p, DoCasReply(s, a, lost))
  {
    hide Inv, JobOk, BaseOk, PrepareCall, Become, Remember, CommittedAt;
    if a in s.actors {
      PhaseFact(p, s, a);
      NoRemember(s);
      var ph := s.actors[a];
      match ph
      case WriteDecided(call, attempt, won) =>
        var q := LoggedAt(ph);
        if lost {
          MoveKeeps(p, s, 0, None, a, WriteDone(call, Unknown, q));
        } else if won.Some? {
          MoveKeeps(p, s, call.handle, won, a, WriteDone(call, Acked(q.value), q));
        } else if attempt >= MAX_CAS_ATTEMPTS {
          LostWriterCas(p, s, call.handle, a, WriteDone(call, Contended, None));
        } else {
          LostWriterCas(p, s, call.handle, a, WriteStart(call, attempt + 1));
        }
      case CompactDecided(h, got, epoch) =>
        MoveKeeps(p, s, h, if lost then None else Some(got), a, CompactDone(Compacted(epoch)));
      case _ =>
    }
  }

  lemma KeepsCrash(p: Params, s: State, a: Actor)
    requires Inv(p, s)
    ensures Inv(p, DoCrash(s, a))
  {
    hide Inv, JobOk, BaseOk, DoCasReply, Become, Remember;
    if DoCrash(s, a) != s {
      if s.actors[a].WriteDecided? || s.actors[a].CompactDecided? {
        KeepsCasReply(p, s, a, true);
      } else {
        MoveKeeps(p, s, 0, None, a, Dead);
        NoRemember(s);
      }
    }
  }

  lemma {:induction false} RetainSuffix(a: seq<WalEntry>, b: seq<WalEntry>, consumed: seq<Name>)
    requires forall i | 0 <= i < |a| :: a[i].name in consumed
    requires forall i | 0 <= i < |b| :: b[i].name !in consumed
    ensures Retain(a + b, consumed) == b
    decreases |a| + |b|
  {
    if a != [] {
      assert (a + b)[0] == a[0] && (a + b)[1..] == a[1..] + b;
      RetainSuffix(a[1..], b, consumed);
    } else if b != [] {
      assert a + b == b;
      assert b[1..] == [] + b[1..];
      RetainSuffix([], b[1..], consumed);
    }
  }

  /** Log names are distinct, because each belongs to the one call that committed it. */
  lemma LogNamesDistinct(s: State, i: nat, j: nat)
    requires LogOk(s) && i < |s.log| && j < |s.log| && s.log[i].name == s.log[j].name
    ensures i == j
  {
    assert CommitOk(s, i) && CommitOk(s, j);
    assert s.log[i].name in [s.log[i].name] && s.log[j].name in [s.log[j].name];
  }

  lemma EntryNames(p: Params, log: seq<Commit>, m: Manifest)
    requires WalIs(p, log, m)
    ensures forall i | 0 <= i < |m.wal| :: m.wal[i].name == log[Start(m) + i].name
  {
    forall i | 0 <= i < |m.wal| ensures m.wal[i].name == log[Start(m) + i].name {
      assert EntryFor(p, m.wal[i], log[Start(m) + i]);
    }
  }

  /** Dropping what a compaction consumed leaves exactly the entries that arrived since its base. */
  lemma RetainedWal(p: Params, s: State, base: Manifest, current: Manifest)
    requires LogOk(s) && WalIs(p, s.log, base) && WalIs(p, s.log, current)
    requires Start(base) == Start(current) && base.nextSeq <= current.nextSeq
    ensures Retain(current.wal, WalNames(base.wal)) == current.wal[|base.wal|..]
  {
    hide LogOk, EntryFor;
    EntryNames(p, s.log, base);
    EntryNames(p, s.log, current);
    var a, b := current.wal[..|base.wal|], current.wal[|base.wal|..];
    var consumed := WalNames(base.wal);
    forall i | 0 <= i < |a| ensures a[i].name in consumed {
      assert consumed[i] == a[i].name;
    }
    forall i | 0 <= i < |b| ensures b[i].name !in consumed {
      if b[i].name in consumed {
        var j :| 0 <= j < |consumed| && consumed[j] == b[i].name;
        LogNamesDistinct(s, Start(base) + j, Start(current) + |base.wal| + i);
      }
    }
    assert current.wal == a + b;
    RetainSuffix(a, b, consumed);
  }

  lemma FoldedWal(p: Params, s: State, base: Manifest, current: Manifest, folded: Manifest)
    requires LogOk(s) && WalIs(p, s.log, base) && WalIs(p, s.log, current)
    requires Start(base) == Start(current) && base.nextSeq <= current.nextSeq
    requires folded.wal == Retain(current.wal, WalNames(base.wal)) && folded.nextSeq == current.nextSeq
    ensures WalIs(p, s.log, folded) && Start(folded) == base.nextSeq
  {
    hide LogOk, EntryFor;
    RetainedWal(p, s, base, current);
    forall i | 0 <= i < |folded.wal| ensures EntryFor(p, folded.wal[i], s.log[Start(folded) + i]) {
      assert folded.wal[i] == current.wal[|base.wal| + i];
    }
  }

  /** A segment that already holds part of the retained tail still replays to the truth. */
  lemma FoldedLive(log: seq<Commit>, from: nat, upTo: nat)
    requires from <= upTo <= |log|
    ensures Replay(Truth(log[..upTo]), Flat(log[from..])) == Truth(log)
  {
    var folded, later := Flat(log[from..upTo]), Flat(log[upTo..]);
    assert log[from..] == log[from..upTo] + log[upTo..];
    FlatConcat(log[from..upTo], log[upTo..]);
    TruthSplit(log, from, upTo);
    ReplayOverlap(Truth(log[..from]), folded, later);
    assert log[..|log|] == log && log[from..|log|] == log[from..];
    TruthSplit(log, from, |log|);
  }

  lemma JobReplays(p: Params, s: State, a: Actor, job: Job)
    requires JobOk(p, s, a, job) && |job.built| == job.base.schema.Shards()
    ensures Replay(map[], ReadObjects(s.stored, SegmentNames(job.built))) == Truth(s.log[..job.upTo])
    ensures Holds(s.stored, SegmentNames(job.built)) && job.built != []
    ensures Sane(job.base.schema)
  {
    hide Buckets;
    TruthKeyed(s.log[..job.upTo]);
    BaseBehind(p, s, job.base, job.epoch);
    BucketsMaterialize(p.hash, job.live, job.base.schema.Shards());
  }

  lemma FoldedBacked(p: Params, s: State, a: Actor, job: Job, current: Manifest)
    requires LogOk(s) && JobOk(p, s, a, job) && |job.built| == job.base.schema.Shards()
    requires Backed(p, s, current) && current.nextSeq == |s.log| && Start(job.base) == Start(current)
    ensures Backed(p, s, Folded(current, job)) && Start(Folded(current, job)) == job.base.nextSeq
  {
    hide LogOk, Replay, ReadObjects, Flat, Truth, SegmentNames, Retain, Buckets, EntryFor;
    var m := Folded(current, job);
    JobReplays(p, s, a, job);
    FoldedWal(p, s, job.base, current, m);
    FoldedLive(s.log, job.base.nextSeq, job.upTo);
    assert s.log[job.base.nextSeq..|s.log|] == s.log[job.base.nextSeq..] && s.log[..|s.log|] == s.log;
  }

  /** An anchored shard list names its epoch: no later compaction can bring it back. */
  lemma AnchoredOnce(s: State, i: nat, j: nat)
    requires EpochsOk(s) && i < |s.epochs| && j < |s.epochs|
    requires s.epochs[i].shards == s.epochs[j].shards && Anchored(s.epochs[i].shards)
    ensures i == j
  {
    assert EpochOk(s, i) && EpochOk(s, j);
    if s.epochs[i].shards != [] {
      AnchoredHasName(s.epochs[i].shards);
      var n := SegmentNames(s.epochs[i].shards)[0];
      assert n in SegmentNames(s.epochs[i].shards);
      if i != 0 && j != 0 {
        assert s.stored[n].author == s.epochs[i].author.value == s.epochs[j].author.value;
      }
    }
  }

  lemma NewEpochOk(s: State, t: State, a: Actor, m: Manifest)
    requires EpochsOk(s) && Later(s, t) && a in s.actors && EpochAt(s.actors[a]).None?
    requires a in t.actors && t.actors == s.actors[a := t.actors[a]] && EpochAt(t.actors[a]) == Some(|s.epochs|)
    requires |t.epochs| == |s.epochs| + 1 && ManifestOf(t.head) == m
    requires t.epochs[|s.epochs|] == Epoch(Some(a), m.shards, Start(m), t.epochs[|s.epochs|].upTo)
    requires m.shards != [] && Mine(t, a, SegmentNames(m.shards))
    ensures EpochsOk(t)
  {
    forall i | 0 <= i < |t.epochs| ensures EpochOk(t, i) {
      if i < |s.epochs| {
        assert EpochOk(s, i);
        assert t.epochs[i] == t.epochs[..|s.epochs|][i];
      }
    }
  }

  lemma ReloadedFacts(p: Params, s: State, a: Actor)
    requires Inv(p, s) && a in s.actors && s.actors[a].CompactReloaded?
    ensures JobOk(p, s, a, s.actors[a].job) && Known(s, s.actors[a].current)
    ensures |s.actors[a].job.built| == s.actors[a].job.base.schema.Shards()
    ensures ManifestOf(s.actors[a].current).shards == s.actors[a].job.base.shards
  {
    hide Inv, JobOk;
    PhaseFact(p, s, a);
  }

  lemma JobEpoch(p: Params, s: State, a: Actor, job: Job)
    requires JobOk(p, s, a, job)
    ensures 1 <= job.epoch <= |s.epochs|
    ensures s.epochs[job.epoch - 1].shards == job.base.shards && s.epochs[job.epoch - 1].start == Start(job.base)
  {
    hide Backed, Buckets, ReadObjects, SegmentNames, Truth, Mine;
  }

  lemma SameEpoch(s: State, job: Job)
    requires EpochsOk(s) && ManifestOf(s.head).shards == job.base.shards
    requires 1 <= job.epoch <= |s.epochs|
    requires s.epochs[job.epoch - 1].shards == job.base.shards && s.epochs[job.epoch - 1].start == Start(job.base)
    requires !Overlapped(s, job) || Anchored(job.base.shards)
    ensures job.epoch == |s.epochs| && Start(job.base) == Start(ManifestOf(s.head))
  {
    hide EpochOk, Anchored;
    if Overlapped(s, job) {
      AnchoredOnce(s, job.epoch - 1, |s.epochs| - 1);
    }
  }

  /** What a compaction that still may commit has built is a fold of the whole log. */
  lemma FoldFacts(p: Params, s: State, a: Actor)
    requires Inv(p, s) && a in s.actors && s.actors[a].CompactReloaded?
    requires ManifestOf(s.actors[a].current) == ManifestOf(s.head)
    requires !Overlapped(s, s.actors[a].job) || Anchored(s.actors[a].job.base.shards)
    ensures var job := s.actors[a].job;
      var m := Folded(ManifestOf(s.head), job);
      && Backed(p, s, m) && m.nextSeq == |s.log| && m.shards == job.built != [] && Mine(s, a, SegmentNames(m.shards))
      && Start(m) == job.base.nextSeq <= job.upTo <= |s.log|
      && Replay(map[], ReadObjects(s.stored, SegmentNames(job.built))) == Truth(s.log[..job.upTo])
  {
    hide Inv, PhaseOk, Backed, LogOk, EpochsOk, SeenOk, PhasesOk, Anchored, Retain, Buckets;
    var job := s.actors[a].job;
    StoreFacts(p, s);
    HeadBacked(p, s);
    ReloadedFacts(p, s, a);
    JobEpoch(p, s, a, job);
    SameEpoch(s, job);
    FoldedBacked(p, s, a, job, ManifestOf(s.head));
    JobReplays(p, s, a, job);
  }

  lemma MayDecide(x: Phase, y: Phase)
    requires !Decided(x)
    ensures Follows(x, y)
  {
  }

  lemma OthersStay(s: State, t: State, a: Actor)
    requires a in t.actors && t.actors == s.actors[a := t.actors[a]] && Movable(s, a, t.actors[a])
    ensures DoneStays(s, t)
  {
  }

  lemma WonCompactCas(p: Params, s: State, t: State, a: Actor, token: Token)
    requires Inv(p, s) && a in s.actors && s.actors[a].CompactReloaded?
    requires ManifestOf(s.actors[a].current) == ManifestOf(s.head)
    requires !Overlapped(s, s.actors[a].job) || Anchored(s.actors[a].job.base.shards)
    requires var job := s.actors[a].job;
      var m := Folded(ManifestOf(s.head), job);
      && TokenFits(s, token, m)
      && t == Publish(s, m, token).(
                epochs := s.epochs + [Epoch(Some(a), m.shards, Start(m), job.upTo)],
                actors := s.actors[a := CompactDecided(job.handle, Versioned(m, token), |s.epochs|)])
    ensures Inv(p, t)
  {
    hide Inv, PhaseOk, Backed, LogOk, EpochsOk, SeenOk, HeadOk, PhasesOk, Anchored, Folded, Follows, JobOk, Later,
      DoneStays;
    var job := s.actors[a].job;
    var m := Folded(ManifestOf(s.head), job);
    StoreFacts(p, s);
    FoldFacts(p, s, a);
    assert Movable(s, a, t.actors[a]) by { MayDecide(s.actors[a], t.actors[a]); }
    OthersStay(s, t, a);
    assert t.epochs[..|s.epochs|] == s.epochs && t.log[..|s.log|] == s.log;
    PublishedLater(s, t, m, token);
    BackedLater(p, s, t, m);
    LogLater(s, t);
    NewEpochOk(s, t, a, m);
    FoldedPhase(p, t, a, job.handle, Versioned(m, token), |s.epochs|);
    PublishKeeps(p, s, t, a, m, token);
  }

  lemma FoldedPhase(p: Params, t: State, a: Actor, h: Handle, got: Versioned, epoch: nat)
    requires Known(t, Some(got))
    ensures PhaseOk(p, t, a, CompactDecided(h, got, epoch))
  {
  }

  lemma AttemptKeepsJob(p: Params, s: State, a: Actor, job: Job, attempt: nat)
    requires JobOk(p, s, a, job)
    ensures JobOk(p, s, a, job.(attempt := attempt))
  {
    hide BaseOk;
  }

  lemma LostCompactCas(p: Params, s: State, a: Actor, job: Job, phase: Phase)
    requires Inv(p, s) && a in s.actors && s.actors[a].CompactReloaded? && JobOk(p, s, a, job)
    requires phase == CompactDone(Lost) || phase == CompactBuilding(job.(attempt := job.attempt + 1))
    ensures Inv(p, Become(s, a, phase))
  {
    hide Inv, JobOk, PhaseOk;
    if phase.CompactDone? {
      DonePhase(p, s, a, Lost);
    } else {
      AttemptKeepsJob(p, s, a, job, job.attempt + 1);
      BuildingPhase(p, s, a, phase.job);
    }
    MoveKeeps(p, s, 0, None, a, phase);
  }

  /** A compaction's CAS publishes its fold, or only moves the compactor on. */
  lemma CompactCasForms(p: Params, s: State, a: Actor, token: Token)
    requires a in s.actors && s.actors[a].CompactReloaded? && DoCompactCas(p, s, a, token) != s
    ensures var t, job, current := DoCompactCas(p, s, a, token), s.actors[a].job, s.actors[a].current;
      var m := Folded(ManifestOf(current), job);
      if Unchanged(s.head, current) then
        && TokenFits(s, token, m)
        && t == Publish(s, m, token).(
                  epochs := s.epochs + [Epoch(Some(a), m.shards, Start(m), job.upTo)],
                  actors := s.actors[a := CompactDecided(job.handle, Versioned(m, token), |s.epochs|)])
      else t == Become(s, a, CompactDone(Lost)) || t == Become(s, a, CompactBuilding(job.(attempt := job.attempt + 1)))
  {
    hide Folded;
  }

  lemma KeepsCompactCas(p: Params, s: State, a: Actor, token: Token)
    requires Inv(p, s) && Guarded(s, CompactCas(a, token))
    ensures Inv(p, DoCompactCas(p, s, a, token))
  {
    hide Inv, JobOk, Folded, LogOk, EpochsOk, Anchored, StoreOk, SeenOk, HeadOk, Known, PhaseOk, Publish, DoCompactCas,
        Unchanged;
    var t := DoCompactCas(p, s, a, token);
    if t != s {
      CompactCasActs(p, s, a, token);
      var ph := s.actors[a];
      CompactCasForms(p, s, a, token);
      ReloadedFacts(p, s, a);
      if Unchanged(s.head, ph.current) {
        StoreFacts(p, s);
        SameHead(s, ph.current);
        WonCompactCas(p, s, t, a, token);
      } else {
        LostCompactCas(p, s, a, ph.job, t.actors[a]);
      }
    }
  }

  lemma CompactCasActs(p: Params, s: State, a: Actor, token: Token)
    requires DoCompactCas(p, s, a, token) != s
    ensures a in s.actors && s.actors[a].CompactReloaded? && a in DoCompactCas(p, s, a, token).actors
  {
    hide Folded;
  }

  // ------------------------------------------------------------ every run

  /** Every step keeps the invariant. */
  lemma StepKeeps(p: Params, s: State, e: Event)
    requires Inv(p, s) && Guarded(s, e)
    ensures Inv(p, Step(p, s, e))
  {
    hide Inv, DoWriterPut, DoWriterCas, DoWriterLoad, DoBeginCompact, DoCompactRead, DoCompactPut, DoCompactReload,
        DoCompactCas, DoCasReply, DoCrash, Guarded;
    match e
    case Tick => KeepsWorld(p, s, s.clock + 1, {}); assert s.objects - {} == s.objects;
    case GcDelete(a, name) => KeepsWorld(p, s, s.clock, {name});
    case WriterLoad(a) => KeepsWriterLoad(p, s, a);
    case WriterPut(a, name) => KeepsWriterPut(p, s, a, name);
    case WriterCas(a, token) => KeepsWriterCas(p, s, a, token);
    case BeginCompact(a, h, build) => KeepsBeginCompact(p, s, a, h, build);
    case CompactRead(a) => KeepsCompactRead(p, s, a);
    case CompactPut(a, segment, index) => KeepsCompactPut(p, s, a, segment, index);
    case CompactReload(a) => KeepsCompactReload(p, s, a);
    case CompactCas(a, token) => KeepsCompactCas(p, s, a, token);
    case CasReply(a, lost) => KeepsCasReply(p, s, a, lost);
    case Crash(a) => KeepsCrash(p, s, a);
    case _ => KeepsSimple(p, s, e);
  }

  lemma {:induction false} RunKeeps(p: Params, s: State, events: seq<Event>)
    requires Inv(p, s) && GuardedRun(p, s, events)
    ensures Inv(p, Run(p, s, events))
    decreases |events|
  {
    hide Inv, Step, Guarded;
    if events != [] {
      StepKeeps(p, s, events[0]);
      RunKeeps(p, Step(p, s, events[0]), events[1..]);
    }
  }

  /** In every reachable state the manifest's segments and then its WAL materialize to the fold of
      every committed batch in commit order; the same holds, for the prefix it counts, of every
      manifest ever published. */
  lemma LiveSetIsTheLog(p: Params, events: seq<Event>)
    requires GuardedRun(p, INIT, events)
    ensures var s := Run(p, INIT, events);
      && LiveOf(s.stored, ManifestOf(s.head)) == Truth(s.log)
      && forall k | k in s.seen :: s.seen[k].nextSeq <= |s.log| && LiveOf(s.stored, s.seen[k]) ==
          Truth(s.log[..s.seen[k].nextSeq])
  {
    var s := Run(p, INIT, events);
    InitInv(p);
    RunKeeps(p, INIT, events);
    HeadBacked(p, s);
    BackedMeansPrefix(p, s, ManifestOf(s.head));
    forall k | k in s.seen
      ensures s.seen[k].nextSeq <= |s.log| && LiveOf(s.stored, s.seen[k]) == Truth(s.log[..s.seen[k].nextSeq])
    {
      SeenBacked(p, s, k);
      BackedMeansPrefix(p, s, s.seen[k]);
    }
  }

  lemma SeenBacked(p: Params, s: State, k: Token)
    requires Inv(p, s) && k in s.seen
    ensures Backed(p, s, s.seen[k]) && s.seen[k].nextSeq <= |s.log|
  {
  }
}
