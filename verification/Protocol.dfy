/** The commit, compaction and garbage-collection protocol as atomic steps of concurrent actors over
    one object store (src/store.rs). A step is one request to the store, or one local decision. */
module Protocol {
  import opened Wrappers
  import opened Values
  import opened Records
  import opened Schemas

  type Name = nat
  type Token = nat
  type Actor = nat
  type Handle = nat

  const MAX_CAS_ATTEMPTS: nat := 100

  /** What a deployment fixes. `maxCommit` bounds the time from an actor's first PUT to its CAS,
      `maxLag` the time from a collector's manifest load to its clock reading. */
  datatype Params = Params(
    host: Host,
    hash: Id -> nat,
    blobLen: seq<Record> -> nat,
    maxCommit: nat,
    maxLag: nat,
    grace: nat
  )

  datatype WalEntry = WalEntry(name: Name, bytes: nat, records: nat)

  /** `index` holds the names of every index object of the shard. */
  datatype Shard = Shard(segments: seq<Name>, index: Option<seq<Name>>)

  const EMPTY_SHARD := Shard([], None)

  datatype Manifest = Manifest(nextSeq: nat, wal: seq<WalEntry>, shards: seq<Shard>, schema: Schema) {
    predicate HasData() {
      wal != [] || exists i | 0 <= i < |shards| :: shards[i].segments != []
    }
  }

  const EMPTY_MANIFEST := Manifest(0, [], [], EMPTY_SCHEMA)

  datatype Versioned = Versioned(manifest: Manifest, token: Token)

  /** `author` records who PUT the object; no actor reads it. */
  datatype Object = Object(records: seq<Record>, putAt: nat, author: Actor)

  datatype Call = Call(handle: Handle, records: seq<Record>, config: WriteConfig)

  /** `Unknown` is a call whose CAS was decided but whose reply was lost on the way back. */
  datatype Outcome = Acked(seqno: nat) | Rejected(error: SchemaError) | Contended | Unknown

  datatype Job = Job(
    handle: Handle, build: bool, base: Manifest, epoch: nat, live: Live, upTo: nat,
    built: seq<Shard>, firstPut: Option<nat>, attempt: nat)

  datatype CompactOutcome = Nothing | Unreadable | Stale | Lost | Compacted(epoch: nat)

  datatype Phase =
    | WriteStart(call: Call, attempt: nat)
    | WriteBased(call: Call, attempt: nat, base: Option<Versioned>)
    | WriteStored(call: Call, attempt: nat, base: Option<Versioned>, name: Name, batch: seq<Record>, schema: Schema)
    | WriteDecided(call: Call, attempt: nat, won: Option<Versioned>)
    | WriteDone(call: Call, outcome: Outcome, at: Option<nat>)
    | ReadPending(handle: Handle, got: Versioned)
    | CompactBased(handle: Handle, build: bool, loaded: Manifest, epoch: nat)
    | CompactBuilding(job: Job)
    | CompactReloaded(job: Job, current: Option<Versioned>)
    | CompactDecided(handle: Handle, got: Versioned, epoch: nat)
    | CompactDone(result: CompactOutcome)
    | GcLoaded(refs: set<Name>, at0: nat)
    | GcSweeping(refs: set<Name>, at0: nat, cutoff: int)
    | Dead

  datatype Commit = Commit(call: Actor, name: Name, records: seq<Record>)

  /** A job's `epoch` counts the compactions committed when it loaded its base (plus the initial one).
      One committed compaction: its author, its shard list, the log position its WAL starts at, and the
      log position its segments run up to: the records came from a load later than its base's. */
  datatype Epoch = Epoch(author: Option<Actor>, shards: seq<Shard>, start: int, upTo: nat)

  /** The store, the handles, the actors; then history that no actor reads: every object ever PUT,
      every manifest ever published, every committed batch, every committed compaction. */
  datatype State = State(
    clock: nat,
    objects: map<Name, Object>,
    head: Option<Versioned>,
    snapshots: map<Handle, Versioned>,
    actors: map<Actor, Phase>,
    stored: map<Name, Object>,
    seen: map<Token, Manifest>,
    log: seq<Commit>,
    epochs: seq<Epoch>
  )

  const INIT := State(0, map[], None, map[], map[], map[], map[], [], [Epoch(None, [], 0, 0)])

  datatype Event =
    | Tick
    | Crash(a: Actor)
    | BeginWrite(a: Actor, call: Call)
    | WriterLoad(a: Actor)
    | WriterPut(a: Actor, name: Name)
    | WriterCas(a: Actor, token: Token)
    | ReaderGet(a: Actor, h: Handle)
    | ReaderRemember(a: Actor)
    | BeginCompact(a: Actor, h: Handle, build: bool)
    | CompactRead(a: Actor)
    | CompactPut(a: Actor, segment: Name, index: seq<Name>)
    | CompactReload(a: Actor)
    | CompactCas(a: Actor, token: Token)
    | CasReply(a: Actor, lost: bool)
    | GcLoad(a: Actor, h: Handle)
    | GcCutoff(a: Actor)
    | GcDelete(a: Actor, name: Name)

  // ------------------------------------------------------------ reading

  function ManifestOf(v: Option<Versioned>): Manifest {
    if v.Some? then v.value.manifest else EMPTY_MANIFEST
  }

  function SegmentNames(shards: seq<Shard>): seq<Name> {
    if shards == [] then [] else shards[0].segments + SegmentNames(shards[1..])
  }

  function WalNames(wal: seq<WalEntry>): (r: seq<Name>)
    ensures |r| == |wal|
  {
    seq(|wal|, i requires 0 <= i < |wal| => wal[i].name)
  }

  function IndexNames(shards: seq<Shard>): seq<Name> {
    if shards == [] then []
    else (if shards[0].index.Some? then shards[0].index.value else []) + IndexNames(shards[1..])
  }

  /** Every object a manifest keeps alive. */
  function Referenced(m: Manifest): set<Name> {
    (set n | n in WalNames(m.wal)) + (set n | n in SegmentNames(m.shards)) + (set n | n in IndexNames(m.shards))
  }

  /** `m` names the object `n`: as a WAL entry, a segment or an index object. */
  predicate Names(m: Manifest, n: Name) {
    || (exists i :: 0 <= i < |m.wal| && m.wal[i].name == n)
    || (exists i :: 0 <= i < |m.shards| && n in m.shards[i].segments)
    || (exists i :: 0 <= i < |m.shards| && m.shards[i].index.Some? && n in m.shards[i].index.value)
  }

  lemma {:induction false} ShardNames(shards: seq<Shard>, n: Name)
    ensures n in SegmentNames(shards) <==> exists i :: 0 <= i < |shards| && n in shards[i].segments
    ensures n in IndexNames(shards) <==>
            exists i :: 0 <= i < |shards| && shards[i].index.Some? && n in shards[i].index.value
    decreases |shards|
  {
    if shards != [] {
      var rest := shards[1..];
      ShardNames(rest, n);
      assert forall i | 0 <= i < |rest| :: rest[i] == shards[i + 1];
      assert forall i | 0 < i < |shards| :: shards[i] == rest[i - 1];
    }
  }

  /** What is kept alive is what the manifest names, no more and no less. */
  lemma ReferencedIsNamed(m: Manifest, n: Name)
    ensures n in Referenced(m) <==> Names(m, n)
  {
    ShardNames(m.shards, n);
    var names := WalNames(m.wal);
    if n in names {
      var i :| 0 <= i < |names| && names[i] == n;
      assert m.wal[i].name == n;
    }
    if i :| 0 <= i < |m.wal| && m.wal[i].name == n {
      assert names[i] == n;
    }
  }

  function ReadObjects(objects: map<Name, Object>, names: seq<Name>): seq<Record> {
    if names == [] then []
    else (if names[0] in objects then objects[names[0]].records else []) + ReadObjects(objects, names[1..])
  }

  /** Segments first, then the WAL. */
  function AllRecords(objects: map<Name, Object>, m: Manifest): seq<Record> {
    ReadObjects(objects, SegmentNames(m.shards)) + ReadObjects(objects, WalNames(m.wal))
  }

  predicate Holds(objects: map<Name, Object>, names: seq<Name>) {
    forall n | n in names :: n in objects
  }

  /** The live set a manifest names. */
  function LiveOf(objects: map<Name, Object>, m: Manifest): Live {
    Replay(map[], AllRecords(objects, m))
  }

  function Flat(log: seq<Commit>): seq<Record> {
    if log == [] then [] else log[0].records + Flat(log[1..])
  }

  /** What the committed batches mean, in commit order. */
  function Truth(log: seq<Commit>): Live {
    Replay(map[], Flat(log))
  }

  // ------------------------------------------------------------ writers

  function Remember(s: State, h: Handle, v: Option<Versioned>): State {
    if v.Some? then s.(snapshots := s.snapshots[h := v.value]) else s
  }

  function Become(s: State, a: Actor, phase: Phase): State {
    s.(actors := s.actors[a := phase])
  }

  /** A conditional PUT succeeds when the stored version token is the expected one, or, for a create,
      when there is no manifest. */
  predicate Unchanged(head: Option<Versioned>, expected: Option<Versioned>) {
    if expected.None? then head.None? else head.Some? && head.value.token == expected.value.token
  }

  /** Equal tokens mean equal content: a token may come back only with what it stood for. */
  predicate TokenFits(s: State, token: Token, m: Manifest) {
    token in s.seen ==> s.seen[token] == m
  }

  function Publish(s: State, m: Manifest, token: Token): State {
    s.(head := Some(Versioned(m, token)), seen := s.seen[token := m])
  }

  function DoBeginWrite(s: State, a: Actor, call: Call): State {
    if a in s.actors then s else Become(s, a, WriteStart(call, 1))
  }

  /** The first attempt trusts the remembered manifest; every later one loads. */
  function DoWriterLoad(s: State, a: Actor): State {
    if !(a in s.actors && s.actors[a].WriteStart?) then s
    else
      var ph := s.actors[a];
      var h := ph.call.handle;
      if ph.attempt == 1 && h in s.snapshots then
        Become(s, a, WriteBased(ph.call, ph.attempt, Some(s.snapshots[h])))
      else
        Become(Remember(s, h, s.head), a, WriteBased(ph.call, ph.attempt, s.head))
  }

  function PrepareCall(p: Params, base: Option<Versioned>, call: Call): Result<(Schema, seq<Record>), SchemaError> {
    var m := ManifestOf(base);
    Prepare(p.host, m.schema, m.HasData(), call.config, call.records)
  }

  function DoWriterPut(p: Params, s: State, a: Actor, name: Name): State {
    if !(a in s.actors && s.actors[a].WriteBased? && name !in s.stored) then s
    else
      var ph := s.actors[a];
      match PrepareCall(p, ph.base, ph.call)
      case Err(e) => Become(s, a, WriteDone(ph.call, Rejected(e), None))
      case Ok((schema, batch)) =>
        var put := Object(batch, s.clock, a);
        Become(s.(objects := s.objects[name := put], stored := s.stored[name := put]),
               a, WriteStored(ph.call, ph.attempt, ph.base, name, batch, schema))
  }

  function NextManifest(p: Params, m: Manifest, name: Name, batch: seq<Record>, schema: Schema): Manifest {
    m.(nextSeq := m.nextSeq + 1, wal := m.wal + [WalEntry(name, p.blobLen(batch), |batch|)], schema := schema)
  }

  predicate InTime(p: Params, s: State, putAt: nat) {
    s.clock <= putAt + p.maxCommit
  }

  /** The store decides; the writer learns of it when the reply arrives. */
  function DoWriterCas(p: Params, s: State, a: Actor, token: Token): State {
    if !(a in s.actors && s.actors[a].WriteStored? && s.actors[a].name in s.stored) then s
    else
      var ph := s.actors[a];
      if !InTime(p, s, s.stored[ph.name].putAt) then s
      else if Unchanged(s.head, ph.base) then
        var m := NextManifest(p, ManifestOf(ph.base), ph.name, ph.batch, ph.schema);
        if !TokenFits(s, token, m) then s
        else
          var published := Publish(s, m, token).(log := s.log + [Commit(a, ph.name, ph.batch)]);
          Become(published, a, WriteDecided(ph.call, ph.attempt, published.head))
      else Become(s, a, WriteDecided(ph.call, ph.attempt, None))
  }

  /** Where in the log a call stands, if its CAS was won. */
  function LoggedAt(phase: Phase): Option<nat> {
    match phase
    case WriteDone(_, _, at) => at
    case WriteDecided(_, _, Some(got)) => if got.manifest.nextSeq > 0 then Some(got.manifest.nextSeq - 1) else None
    case _ => None
  }

  /** A won CAS is remembered and acknowledged, a lost one forgotten and retried. */
  function WriterLearns(s: State, a: Actor, ph: Phase): State
    requires ph.WriteDecided?
  {
    var h := ph.call.handle;
    if ph.won.Some? then
      if LoggedAt(ph).None? then s
      else Become(Remember(s, h, ph.won), a, WriteDone(ph.call, Acked(LoggedAt(ph).value), LoggedAt(ph)))
    else
      var forgot := s.(snapshots := s.snapshots - {h});
      if ph.attempt >= MAX_CAS_ATTEMPTS then Become(forgot, a, WriteDone(ph.call, Contended, None))
      else Become(forgot, a, WriteStart(ph.call, ph.attempt + 1))
  }

  /** The reply to a conditional PUT arrives, however late that is, or is lost. */
  function DoCasReply(s: State, a: Actor, lost: bool): State {
    if a !in s.actors then s
    else
      match s.actors[a]
      case WriteDecided(call, _, _) =>
        if lost then Become(s, a, WriteDone(call, Unknown, LoggedAt(s.actors[a]))) else WriterLearns(s, a, s.actors[a])
      case CompactDecided(h, got, epoch) =>
        Become(if lost then s else Remember(s, h, Some(got)), a, CompactDone(Compacted(epoch)))
      case _ => s
  }

  // ------------------------------------------------------------ readers and their snapshots

  function DoReaderGet(s: State, a: Actor, h: Handle): State {
    if a in s.actors || s.head.None? then s else Become(s, a, ReadPending(h, s.head.value))
  }

  /** A load remembers what it got when its reply arrives, however late that is. */
  function DoReaderRemember(s: State, a: Actor): State {
    if !(a in s.actors && s.actors[a].ReadPending?) then s
    else Become(Remember(s, s.actors[a].handle, Some(s.actors[a].got)), a, Dead)
  }

  // ------------------------------------------------------------ compaction

  predicate NothingToDo(m: Manifest, build: bool) {
    && m.wal == [] && m.shards != []
    && ((forall i | 0 <= i < |m.shards| :: m.shards[i].index.Some?) || !build)
  }

  function DoBeginCompact(s: State, a: Actor, h: Handle, build: bool): State {
    if a in s.actors then s
    else
      var m := ManifestOf(s.head);
      var loaded := Remember(s, h, s.head);
      if NothingToDo(m, build) then Become(loaded, a, CompactDone(Nothing))
      else Become(loaded, a, CompactBased(h, build, m, |s.epochs|))
  }

  /** The records come from a second, later load of the manifest. */
  function DoCompactRead(s: State, a: Actor): State {
    if !(a in s.actors && s.actors[a].CompactBased?) then s
    else
      var ph := s.actors[a];
      var m := ManifestOf(s.head);
      var known := Remember(s, ph.handle, s.head);
      if Holds(s.objects, SegmentNames(m.shards)) && Holds(s.objects, WalNames(m.wal)) then
        Become(known, a, CompactBuilding(
          Job(ph.handle, ph.build, ph.loaded, ph.epoch, LiveOf(s.objects, m), |s.log|, [], None, 1)))
      else Become(known, a, CompactDone(Unreadable))
  }

  predicate FreshNames(s: State, segment: Name, index: seq<Name>) {
    && segment !in s.stored && segment !in index
    && (forall i | 0 <= i < |index| :: index[i] !in s.stored)
    && (forall i, j | 0 <= i < j < |index| :: index[i] != index[j])
  }

  function ShardObjects(bucket: seq<Record>, segment: Name, index: seq<Name>, at: nat, a: Actor): map<Name, Object> {
    (map n | n in index :: Object([], at, a))[segment := Object(bucket, at, a)]
  }

  /** Writes the next shard: nothing for an empty bucket, else a segment and its index objects. */
  function PutShard(s: State, a: Actor, job: Job, bucket: seq<Record>, segment: Name, index: seq<Name>): State {
    if bucket == [] then
      Become(s, a, CompactBuilding(job.(built := job.built + [EMPTY_SHARD])))
    else if !FreshNames(s, segment, index) || (!job.build && index != []) then s
    else
      var put := ShardObjects(bucket, segment, index, s.clock, a);
      var shard := Shard([segment], if job.build then Some(index) else None);
      var first := if job.firstPut.Some? then job.firstPut else Some(s.clock);
      Become(s.(objects := s.objects + put, stored := s.stored + put), a,
             CompactBuilding(job.(built := job.built + [shard], firstPut := first)))
  }

  function NextBucket(p: Params, job: Job): seq<Record> {
    Bucket(p.hash, job.live, job.base.schema.Shards(), |job.built|)
  }

  function DoCompactPut(p: Params, s: State, a: Actor, segment: Name, index: seq<Name>): State {
    if !(a in s.actors && s.actors[a].CompactBuilding?) then s
    else
      var job := s.actors[a].job;
      if |job.built| >= job.base.schema.Shards() then s
      else PutShard(s, a, job, NextBucket(p, job), segment, index)
  }

  /** The staleness check compares shard lists. */
  function DoCompactReload(s: State, a: Actor): State {
    if !(a in s.actors && s.actors[a].CompactBuilding?) then s
    else
      var job := s.actors[a].job;
      if |job.built| < job.base.schema.Shards() then s
      else
        var loaded := Remember(s, job.handle, s.head);
        if ManifestOf(s.head).shards != job.base.shards then Become(loaded, a, CompactDone(Stale))
        else Become(loaded, a, CompactReloaded(job, s.head))
  }

  /** Keep the WAL entries that were not consumed. */
  function Retain(wal: seq<WalEntry>, consumed: seq<Name>): seq<WalEntry> {
    if wal == [] then []
    else if wal[0].name in consumed then Retain(wal[1..], consumed)
    else [wal[0]] + Retain(wal[1..], consumed)
  }

  function Folded(m: Manifest, job: Job): Manifest {
    m.(wal := Retain(m.wal, WalNames(job.base.wal)), shards := job.built)
  }

  function DoCompactCas(p: Params, s: State, a: Actor, token: Token): State {
    if !(a in s.actors && s.actors[a].CompactReloaded?) then s
    else
      var job, current := s.actors[a].job, s.actors[a].current;
      if job.firstPut.Some? && !InTime(p, s, job.firstPut.value) then s
      else if Unchanged(s.head, current) then
        var m := Folded(ManifestOf(current), job);
        if !TokenFits(s, token, m) then s
        else
          var published := Publish(s, m, token).(
            epochs := s.epochs + [Epoch(Some(a), m.shards, m.nextSeq - |m.wal|, job.upTo)]);
          Become(published, a, CompactDecided(job.handle, Versioned(m, token), |s.epochs|))
      else if job.attempt >= MAX_CAS_ATTEMPTS then Become(s, a, CompactDone(Lost))
      else Become(s, a, CompactBuilding(job.(attempt := job.attempt + 1)))
  }

  // ------------------------------------------------------------ garbage collection

  function DoGcLoad(s: State, a: Actor, h: Handle): State {
    if a in s.actors then s
    else Become(Remember(s, h, s.head), a, GcLoaded(Referenced(ManifestOf(s.head)), s.clock))
  }

  function DoGcCutoff(p: Params, s: State, a: Actor): State {
    if !(a in s.actors && s.actors[a].GcLoaded? && s.clock <= s.actors[a].at0 + p.maxLag) then s
    else Become(s, a, GcSweeping(s.actors[a].refs, s.actors[a].at0, s.clock - p.grace))
  }

  /** Unreferenced and not modified after the cutoff. */
  function DoGcDelete(s: State, a: Actor, name: Name): State {
    if !(a in s.actors && s.actors[a].GcSweeping? && name in s.objects) then s
    else if name in s.actors[a].refs || s.objects[name].putAt > s.actors[a].cutoff then s
    else s.(objects := s.objects - {name})
  }

  /** A crash before the reply arrives loses the reply. */
  function DoCrash(s: State, a: Actor): State {
    if !(a in s.actors) || s.actors[a].WriteDone? || s.actors[a].CompactDone? then s
    else if s.actors[a].WriteDecided? || s.actors[a].CompactDecided? then DoCasReply(s, a, true)
    else Become(s, a, Dead)
  }

  // ------------------------------------------------------------ runs

  /** One step; an event that is not enabled changes nothing. */
  function Step(p: Params, s: State, e: Event): State {
    match e
    case Tick => s.(clock := s.clock + 1)
    case Crash(a) => DoCrash(s, a)
    case BeginWrite(a, call) => DoBeginWrite(s, a, call)
    case WriterLoad(a) => DoWriterLoad(s, a)
    case WriterPut(a, name) => DoWriterPut(p, s, a, name)
    case WriterCas(a, token) => DoWriterCas(p, s, a, token)
    case ReaderGet(a, h) => DoReaderGet(s, a, h)
    case ReaderRemember(a) => DoReaderRemember(s, a)
    case BeginCompact(a, h, build) => DoBeginCompact(s, a, h, build)
    case CompactRead(a) => DoCompactRead(s, a)
    case CompactPut(a, segment, index) => DoCompactPut(p, s, a, segment, index)
    case CompactReload(a) => DoCompactReload(s, a)
    case CompactCas(a, token) => DoCompactCas(p, s, a, token)
    case CasReply(a, lost) => DoCasReply(s, a, lost)
    case GcLoad(a, h) => DoGcLoad(s, a, h)
    case GcCutoff(a) => DoGcCutoff(p, s, a)
    case GcDelete(a, name) => DoGcDelete(s, a, name)
  }

  function Run(p: Params, s: State, events: seq<Event>): State
    decreases |events|
  {
    if events == [] then s else Run(p, Step(p, s, events[0]), events[1..])
  }

  /** A shard list that can occur only once: never compacted, or naming some segment. */
  predicate Anchored(shards: seq<Shard>) {
    shards == [] || exists i | 0 <= i < |shards| :: shards[i].segments != []
  }

  /** A compaction overlaps another when one committed after it loaded its base. */
  predicate Overlapped(s: State, job: Job) {
    job.epoch != |s.epochs|
  }

  /** The hypothesis on runs: a compaction that commits overlapped started from an anchored base. */
  predicate Guarded(s: State, e: Event) {
    e.CompactCas? && e.a in s.actors && s.actors[e.a].CompactReloaded? ==>
      Overlapped(s, s.actors[e.a].job) ==> Anchored(s.actors[e.a].job.base.shards)
  }

  ghost predicate GuardedRun(p: Params, s: State, events: seq<Event>)
    decreases |events|
  {
    events != [] ==> Guarded(s, events[0]) && GuardedRun(p, Step(p, s, events[0]), events[1..])
  }
}
