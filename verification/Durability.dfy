/** What an acknowledged write leaves behind: the caller's own records, for every later reader (src/store.rs). */
module Durability {
  import opened Wrappers
  import opened Values
  import opened Records
  import opened Schemas
  import opened Readings
  import Settings
  import opened Protocol
  import opened Safety
  import opened Runs
  import opened Typing

  lemma CommittedReads(p: Params, s: State, a: Actor, call: Call, q: nat)
    requires Inv(p, s) && CommittedAt(p, s, a, call, q)
    ensures ReadsBatch(p.host, call.records, s.log[q].records)
    ensures exists k :: k in s.seen && s.seen[k].nextSeq == q + 1 && TypedBatch(s.seen[k].schema, s.log[q].records)
  {
    hide Inv, Prepare, ReadsBatch, TypedBatch;
    var base, k :| Known(s, base) && Publishes(p, s, base, k, call, q);
    var m := ManifestOf(base);
    PrepareReads(p.host, m.schema, m.HasData(), call.config, call.records);
    PrepareTypes(p.host, m.schema, m.HasData(), call.config, call.records);
  }

  /** An acknowledged call's commit holds the caller's records, every one, in order, each the same mutation with
      its id and values read as the published schema declares them. */
  lemma AckedMeansWritten(p: Params, events: seq<Event>, a: Actor)
    requires GuardedRun(p, INIT, events)
    requires Done(Run(p, INIT, events), a) && Run(p, INIT, events).actors[a].outcome.Acked?
    ensures var s := Run(p, INIT, events);
      var call, q := s.actors[a].call, s.actors[a].outcome.seqno;
      && q < |s.log| && ReadsBatch(p.host, call.records, s.log[q].records)
      && exists k :: k in s.seen && s.seen[k].nextSeq == q + 1 && TypedBatch(s.seen[k].schema, s.log[q].records)
  {
    hide Step, Inv, CommittedAt, ReadsBatch, TypedBatch;
    var s := Run(p, INIT, events);
    InitInv(p);
    RunKeeps(p, INIT, events);
    AckedIsDurable(p, events, [], a);
    assert events + [] == events;
    CommittedReads(p, s, a, s.actors[a].call, s.actors[a].outcome.seqno);
  }

  /** No record from position `i` on is about `id`. */
  predicate Silent(records: seq<Record>, id: Id, i: nat) {
    forall j | i <= j < |records| :: records[j].Id() != id
  }

  lemma {:induction false} SilentKeeps(live: Live, records: seq<Record>, id: Id)
    requires Silent(records, id, 0)
    ensures At(Replay(live, records), id) == At(live, id)
    decreases |records|
  {
    if records != [] {
      assert forall j | 0 <= j < |records[1..]| :: records[1..][j] == records[j + 1];
      SilentKeeps(Apply(live, records[0]), records[1..], id);
    }
  }

  lemma LastUpsertStays(live: Live, records: seq<Record>, i: nat)
    requires i < |records| && records[i].Upsert? && Silent(records, records[i].doc.id, i + 1)
    ensures At(Replay(live, records), records[i].doc.id) == Some(records[i].doc)
  {
    var before, after, id := records[..i], records[i + 1..], records[i].doc.id;
    assert records == before + ([records[i]] + after);
    ReplayConcat(live, before, [records[i]] + after);
    assert ([records[i]] + after)[1..] == after;
    assert forall j | 0 <= j < |after| :: after[j] == records[i + 1 + j];
    SilentKeeps(Apply(Replay(live, before), records[i]), after, id);
  }

  lemma {:induction false} SilentLog(log: seq<Commit>, id: Id)
    requires forall r | 0 <= r < |log| :: Silent(log[r].records, id, 0)
    ensures Silent(Flat(log), id, 0)
    decreases |log|
  {
    if log != [] {
      SilentLog(log[1..], id);
    }
  }

  lemma LoggedUpsertStays(log: seq<Commit>, q: nat, i: nat)
    requires q < |log| && i < |log[q].records| && log[q].records[i].Upsert?
    requires var id := log[q].records[i].doc.id;
      Silent(log[q].records, id, i + 1) && forall r | q < r < |log| :: Silent(log[r].records, id, 0)
    ensures At(Truth(log), log[q].records[i].doc.id) == Some(log[q].records[i].doc)
  {
    hide Replay;
    var rs, before, after := log[q].records, log[..q], log[q + 1..];
    assert log == before + ([log[q]] + after);
    FlatConcat(before, [log[q]] + after);
    assert ([log[q]] + after)[1..] == after;
    SilentLog(after, rs[i].doc.id);
    ReplayConcat(map[], Flat(before), rs + Flat(after));
    var tail := rs + Flat(after);
    forall j | i + 1 <= j < |tail| ensures tail[j].Id() != rs[i].doc.id {
      if j >= |rs| {
        assert tail[j] == Flat(after)[j - |rs|];
      }
    }
    LastUpsertStays(Replay(map[], Flat(before)), tail, i);
  }

  /** A document that a call upserted and was acknowledged is what every later manifest holds under its id, with the
      caller's vector and attributes, until another record is about that id: across other writes, retries,
      compactions, collections and crashes. */
  lemma AckedIsReadBack(p: Params, events: seq<Event>, later: seq<Event>, a: Actor, i: nat)
    requires GuardedRun(p, INIT, events) && GuardedRun(p, INIT, events + later)
    requires Done(Run(p, INIT, events), a) && Run(p, INIT, events).actors[a].outcome.Acked?
    requires i < |Run(p, INIT, events).actors[a].call.records|
    requires Run(p, INIT, events).actors[a].call.records[i].Upsert?
    ensures var s, t := Run(p, INIT, events), Run(p, INIT, events + later);
      var d, q := s.actors[a].call.records[i].doc, s.actors[a].outcome.seqno;
      && q < |t.log| && i < |t.log[q].records| && t.log[q].records[i].Upsert?
      && var w := t.log[q].records[i].doc;
      && ReadsId(p.host, d.id, w.id) && w.vector == d.vector && ReadsAttrs(p.host, d.attrs, w.attrs)
      && (Silent(t.log[q].records, w.id, i + 1) && (forall r | q < r < |t.log| :: Silent(t.log[r].records, w.id, 0))
          ==> At(LiveOf(t.stored, ManifestOf(t.head)), w.id) == Some(w))
  {
    hide Step, Run, GuardedRun, Inv, CommittedAt, Truth, LiveOf, ReadsId, ReadsAttrs;
    var s, t := Run(p, INIT, events), Run(p, INIT, events + later);
    AckedMeansWritten(p, events, a);
    AckedIsDurable(p, events, later, a);
    LiveSetIsTheLog(p, events + later);
    var q := s.actors[a].outcome.seqno;
    var d, w := s.actors[a].call.records[i], t.log[q].records[i];
    assert ReadsRecord(p.host, d, w);
    var id := w.doc.id;
    if Silent(t.log[q].records, id, i + 1) && forall r | q < r < |t.log| :: Silent(t.log[r].records, id, 0) {
      LoggedUpsertStays(t.log, q, i);
    }
  }

  /** Under `k` the attributes hold what the last record that says so gives: the value of an upsert, or of a patch
      unless it is null; and nothing if no record says. */
  ghost predicate IsLastWord(attrs: Attrs, records: seq<Record>, id: Id, k: string) {
    && (k in attrs ==> exists i :: LastWord(records, id, k, i))
    && (forall i | LastWord(records, id, k, i) && records[i].Upsert? :: SameAt(attrs, records[i].doc.attrs, k))
    && (forall i | LastWord(records, id, k, i) && records[i].Patch? ::
          if records[i].attrs[k].Null? then k !in attrs else k in attrs && attrs[k] == records[i].attrs[k])
  }

  lemma ReplayIsLastWord(records: seq<Record>, id: Id, k: string)
    requires id in Replay(map[], records)
    ensures IsLastWord(Replay(map[], records)[id].attrs, records, id, k)
  {
    hide Replay, SameAt;
    AttributeIsLastWord(map[], records, id, k);
    if exists i | 0 <= i < |records| :: Speaks(records[i], id, k) {
      LastSpeaker(records, id, k);
    }
  }

  /** In every reachable state an attribute of a live document is the last word of the log on it. */
  lemma StoredIsLastWord(p: Params, events: seq<Event>, id: Id, k: string)
    requires GuardedRun(p, INIT, events)
    requires var s := Run(p, INIT, events); id in LiveOf(s.stored, ManifestOf(s.head))
    ensures var s := Run(p, INIT, events);
      IsLastWord(LiveOf(s.stored, ManifestOf(s.head))[id].attrs, Flat(s.log), id, k)
  {
    hide Step, Run, GuardedRun, LiveOf, Replay, Flat, IsLastWord;
    LiveSetIsTheLog(p, events);
    ReplayIsLastWord(Flat(Run(p, INIT, events).log), id, k);
  }

  lemma {:induction false} LastSpeaker(records: seq<Record>, id: Id, k: string)
    requires exists i | 0 <= i < |records| :: Speaks(records[i], id, k)
    ensures exists i :: LastWord(records, id, k, i)
    decreases |records|
  {
    var n := |records| - 1;
    if Speaks(records[n], id, k) {
      assert LastWord(records, id, k, n);
    } else {
      var i :| 0 <= i < |records| && Speaks(records[i], id, k);
      assert records[..n][i] == records[i];
      LastSpeaker(records[..n], id, k);
      var j :| LastWord(records[..n], id, k, j);
      assert LastWord(records, id, k, j);
    }
  }

  // ------------------------------------------------------------ what a manifest says of its objects

  /** Every WAL entry of the manifest names a stored object and gives its true size and number of records. */
  lemma WalSizesAreTrue(p: Params, events: seq<Event>, i: nat)
    requires GuardedRun(p, INIT, events) && i < |ManifestOf(Run(p, INIT, events).head).wal|
    ensures var s := Run(p, INIT, events);
      var e := ManifestOf(s.head).wal[i];
      && e.name in s.stored && e.records == |s.stored[e.name].records|
      && e.bytes == p.blobLen(s.stored[e.name].records)
  {
    hide Step, Run, GuardedRun, SeenOk, PhasesOk, EpochsOk;
    var s := Run(p, INIT, events);
    InitInv(p);
    RunKeeps(p, INIT, events);
    HeadBacked(p, s);
    var m := ManifestOf(s.head);
    assert EntryFor(p, m.wal[i], s.log[Start(m) + i]);
    assert CommitOk(s, Start(m) + i);
  }

  /** Once the namespace holds data, no step changes its metric or its shard count. */
  lemma DataFixesSettings(p: Params, events: seq<Event>, e: Event)
    requires GuardedRun(p, INIT, events)
    requires var m := ManifestOf(Run(p, INIT, events).head); m.wal != [] || exists x | x in m.shards :: x.segments != []
    ensures var s := Run(p, INIT, events);
      HeadSchema(Step(p, s, e)).metric == HeadSchema(s).metric &&
      HeadSchema(Step(p, s, e)).numShards == HeadSchema(s).numShards
  {
    hide Run, GuardedRun, Inv, Step;
    var s := Run(p, INIT, events);
    InitInv(p);
    RunKeeps(p, INIT, events);
    var m := ManifestOf(s.head);
    assert m.HasData() by {
      if m.wal == [] {
        var x :| x in m.shards && x.segments != [];
        var i :| 0 <= i < |m.shards| && m.shards[i] == x;
      }
    }
    HeadMoves(p, s, e);
    if e.WriterCas? && PreparedBy(p, s, e) && HeadSchema(Step(p, s, e)) == NextSchema(p, s, e) {
      var call := s.actors[e.a].call;
      PrepareFixes(p.host, m.schema, call.config, call.records);
    }
  }

  /** The acting writer's batch, prepared against the current manifest, is accepted. */
  predicate PreparedBy(p: Params, s: State, e: Event)
    requires e.WriterCas?
  {
    e.a in s.actors && s.actors[e.a].WriteStored? && PrepareCall(p, s.head, s.actors[e.a].call).Ok?
  }

  function NextSchema(p: Params, s: State, e: Event): Schema
    requires e.WriterCas? && PreparedBy(p, s, e)
  {
    PrepareCall(p, s.head, s.actors[e.a].call).value.0
  }

  /** Only a won CAS moves the head: a writer's to its own prepared schema, a compaction's keeping the schema. */
  lemma HeadMoves(p: Params, s: State, e: Event)
    requires Inv(p, s)
    ensures var t := Step(p, s, e);
      || HeadSchema(t) == HeadSchema(s)
      || (e.WriterCas? && PreparedBy(p, s, e) && HeadSchema(t) == NextSchema(p, s, e))
  {
    hide DoCompactCas, DoWriterCas, DoWriterPut, DoCompactPut, Inv, PrepareCall;
    match e
    case Tick =>
    case GcDelete(_, _) =>
    case WriterPut(a, name) => PutsKeepHead(p, s, a, name, []);
    case CompactPut(a, segment, index) => PutsKeepHead(p, s, a, segment, index);
    case WriterCas(a, token) => WriterCasMoves(p, s, a, token);
    case CompactCas(a, token) => CompactCasMoves(p, s, a, token);
    case _ => MovesOneActor(p, s, e);
  }

  lemma PutsKeepHead(p: Params, s: State, a: Actor, name: Name, index: seq<Name>)
    ensures DoWriterPut(p, s, a, name).head == s.head && DoCompactPut(p, s, a, name, index).head == s.head
  {
    hide PrepareCall, NextBucket;
  }

  lemma WriterCasMoves(p: Params, s: State, a: Actor, token: Token)
    requires Inv(p, s)
    ensures var t, e := DoWriterCas(p, s, a, token), WriterCas(a, token);
      HeadSchema(t) == HeadSchema(s) || (PreparedBy(p, s, e) && HeadSchema(t) == NextSchema(p, s, e))
  {
    hide Inv;
    var t := DoWriterCas(p, s, a, token);
    if t != s {
      PhaseFact(p, s, a);
      HeadKnown(p, s);
    }
  }

  lemma CompactCasMoves(p: Params, s: State, a: Actor, token: Token)
    requires Inv(p, s)
    ensures HeadSchema(DoCompactCas(p, s, a, token)) == HeadSchema(s)
  {
    hide Inv, DoCompactCas, JobOk;
    var t := DoCompactCas(p, s, a, token);
    if t != s {
      CompactCasActs(p, s, a, token);
      CompactCasForms(p, s, a, token);
      PhaseFact(p, s, a);
      HeadKnown(p, s);
    }
  }

  lemma PrepareFixes(h: Host, s: Schema, c: WriteConfig, records: seq<Record>)
    requires Prepare(h, s, true, c, records).Ok?
    ensures Prepare(h, s, true, c, records).value.0.metric == s.metric
    ensures Prepare(h, s, true, c, records).value.0.numShards == s.numShards
  {
    PrepareTypes(h, s, true, c, records);
    Settings.DeclareMerges(s, c, true);
    DeclareAccepts(s, c, true);
    Settings.AbsorbDeclares(h, Declare(s, c, true).value, records, "");
  }
}
