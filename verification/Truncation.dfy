/** Reads cut short by the scan cap, over manifests whose segments may run ahead of the retained WAL: a
    compaction's records come from a load later than its base's (src/store.rs). */
module Truncation {
  import opened Wrappers
  import opened Records
  import opened Schemas
  import opened Protocol
  import opened Safety
  import opened Runs
  import opened Overlap
  import opened Reads

  // ------------------------------------------------------------ how far the segments run

  /** A committed compaction's segments hold exactly the first `upTo` commits. */
  predicate FoldOf(s: State, e: Epoch) {
    && e.start <= e.upTo <= |s.log|
    && Holds(s.stored, SegmentNames(e.shards))
    && Replay(map[], ReadObjects(s.stored, SegmentNames(e.shards))) == Truth(s.log[..e.upTo])
  }

  /** The manifest carries the shards of compaction `i`, and all it folded in. */
  predicate Carries(s: State, m: Manifest, i: nat) {
    && i < |s.epochs| && s.epochs[i].shards == m.shards
    && s.epochs[i].start == Start(m) && s.epochs[i].upTo <= m.nextSeq
  }

  ghost predicate CarriesOne(s: State, m: Manifest) {
    exists i: nat :: Carries(s, m, i)
  }

  ghost predicate Folds(s: State) {
    && (forall i | 0 <= i < |s.epochs| :: FoldOf(s, s.epochs[i]))
    && (forall k | k in s.seen :: CarriesOne(s, s.seen[k]))
    && CarriesOne(s, ManifestOf(s.head))
  }

  lemma FoldLater(s: State, t: State, e: Epoch)
    requires FoldOf(s, e) && Later(s, t)
    ensures FoldOf(t, e)
  {
    ReadSame(s.stored, t.stored, SegmentNames(e.shards));
    assert t.log[..e.upTo] == s.log[..e.upTo];
  }

  lemma CarriesLater(s: State, t: State, m: Manifest)
    requires CarriesOne(s, m) && Later(s, t)
    ensures CarriesOne(t, m)
  {
    var i: nat :| Carries(s, m, i);
    assert t.epochs[i] == t.epochs[..|s.epochs|][i];
    assert Carries(t, m, i);
  }

  /** A step that publishes at most the manifest `m`. */
  lemma FoldsStep(s: State, t: State, published: Option<(Token, Manifest)>)
    requires Folds(s) && Later(s, t)
    requires t.seen == if published.Some? then s.seen[published.value.0 := published.value.1] else s.seen
    requires ManifestOf(t.head) == if published.Some? then published.value.1 else ManifestOf(s.head)
    requires published.Some? ==> CarriesOne(t, published.value.1)
    requires forall i | |s.epochs| <= i < |t.epochs| :: FoldOf(t, t.epochs[i])
    ensures Folds(t)
  {
    hide FoldOf, CarriesOne;
    forall i | 0 <= i < |t.epochs| ensures FoldOf(t, t.epochs[i]) {
      if i < |s.epochs| {
        assert t.epochs[i] == t.epochs[..|s.epochs|][i];
        FoldLater(s, t, s.epochs[i]);
      }
    }
    forall k | k in t.seen ensures CarriesOne(t, t.seen[k]) {
      if published.None? || k != published.value.0 {
        CarriesLater(s, t, s.seen[k]);
      }
    }
    if published.None? {
      CarriesLater(s, t, ManifestOf(s.head));
    }
  }

  lemma HeadCarries(s: State)
    requires Folds(s)
    ensures CarriesOne(s, ManifestOf(s.head))
  {
    hide FoldOf, CarriesOne;
  }

  lemma WriterFolds(p: Params, s: State, a: Actor, token: Token)
    requires Inv(p, s) && Folds(s)
    ensures Folds(DoWriterCas(p, s, a, token))
  {
    hide Inv, Folds, FoldOf, Later, PrepareCall, StoreOk, SeenOk, LogOk, EpochsOk;
    var t := DoWriterCas(p, s, a, token);
    if t != s {
      StepLater(p, s, WriterCas(a, token));
      var ph := s.actors[a];
      if Unchanged(s.head, ph.base) {
        StoredPhase(p, s, a);
        StoreFacts(p, s);
        SameHead(s, ph.base);
        HeadCarries(s);
        var m := NextManifest(p, ManifestOf(s.head), ph.name, ph.batch, ph.schema);
        var i: nat :| Carries(s, ManifestOf(s.head), i);
        assert Carries(t, m, i);
        FoldsStep(s, t, Some((token, m)));
      } else {
        FoldsStep(s, t, None);
      }
    }
  }

  lemma NewFold(p: Params, s: State, t: State, a: Actor, token: Token)
    requires Inv(p, s) && Folds(s) && Later(s, t) && a in s.actors && s.actors[a].CompactReloaded?
    requires ManifestOf(s.actors[a].current) == ManifestOf(s.head)
    requires !Overlapped(s, s.actors[a].job) || Anchored(s.actors[a].job.base.shards)
    requires var m := Folded(ManifestOf(s.head), s.actors[a].job);
      && t.seen == s.seen[token := m] && ManifestOf(t.head) == m && t.log == s.log && t.stored == s.stored
      && t.epochs == s.epochs + [Epoch(Some(a), m.shards, Start(m), s.actors[a].job.upTo)]
    ensures Folds(t)
  {
    hide Inv, Folds, Later, Folded, Anchored, Truth, Replay, ReadObjects, SegmentNames, Backed;
    var job := s.actors[a].job;
    var m := Folded(ManifestOf(s.head), job);
    FoldFacts(p, s, a);
    assert FoldOf(t, t.epochs[|s.epochs|]);
    assert Carries(t, m, |s.epochs|);
    FoldsStep(s, t, Some((token, m)));
  }

  lemma CompactorFolds(p: Params, s: State, a: Actor, token: Token)
    requires Inv(p, s) && Folds(s) && Guarded(s, CompactCas(a, token))
    ensures Folds(DoCompactCas(p, s, a, token))
  {
    hide Inv, Folds, Later, FoldOf, CarriesOne, Folded, Anchored, JobOk, DoCompactCas, StoreOk, SeenOk, LogOk, EpochsOk,
      HeadOk, PhaseOk;
    var t := DoCompactCas(p, s, a, token);
    if t != s {
      StepLater(p, s, CompactCas(a, token));
      CompactCasActs(p, s, a, token);
      CompactCasForms(p, s, a, token);
      if Unchanged(s.head, s.actors[a].current) {
        ReloadedFacts(p, s, a);
        StoreFacts(p, s);
        SameHead(s, s.actors[a].current);
        NewFold(p, s, t, a, token);
      } else {
        FoldsStep(s, t, None);
      }
    }
  }

  /** Only the conditional PUTs publish. */
  lemma OthersPublishNothing(p: Params, s: State, e: Event)
    requires !e.WriterCas? && !e.CompactCas?
    ensures var t := Step(p, s, e); t.head == s.head && t.seen == s.seen && t.epochs == s.epochs
  {
    hide DoWriterCas, DoCompactCas, DoCasReply, DoCrash, DoWriterLoad, DoBeginCompact, DoCompactRead, DoCompactReload,
      PrepareCall, NextBucket, FreshNames, ShardObjects, Referenced;
    if !e.Tick? && !e.GcDelete? && !e.WriterPut? && !e.CompactPut? {
      MovesOneActor(p, s, e);
    }
  }

  lemma StepFolds(p: Params, s: State, e: Event)
    requires Inv(p, s) && Folds(s) && Guarded(s, e)
    ensures Folds(Step(p, s, e))
  {
    hide Inv, Folds, Later, FoldOf, Guarded, DoWriterCas, DoCompactCas;
    if e.WriterCas? {
      WriterFolds(p, s, e.a, e.token);
    } else if e.CompactCas? {
      CompactorFolds(p, s, e.a, e.token);
    } else {
      OtherFolds(p, s, e);
    }
  }

  lemma OtherFolds(p: Params, s: State, e: Event)
    requires Folds(s) && !e.WriterCas? && !e.CompactCas?
    ensures Folds(Step(p, s, e))
  {
    hide Step, Folds, Later, FoldOf;
    StepLater(p, s, e);
    OthersPublishNothing(p, s, e);
    FoldsStep(s, Step(p, s, e), None);
  }

  lemma {:induction false} RunFolds(p: Params, s: State, events: seq<Event>)
    requires Inv(p, s) && Folds(s) && GuardedRun(p, s, events)
    ensures Folds(Run(p, s, events))
    decreases |events|
  {
    hide Inv, Folds, Step, Guarded;
    if events != [] {
      StepKeeps(p, s, events[0]);
      StepFolds(p, s, events[0]);
      RunFolds(p, Step(p, s, events[0]), events[1..]);
    }
  }

  lemma InitFolds()
    ensures Folds(INIT)
  {
    assert INIT.log[..0] == [];
    assert Carries(INIT, EMPTY_MANIFEST, 0);
  }

  // ------------------------------------------------------------ what a cut read shows

  /** In every reachable state and for every manifest ever published: its segments hold the first `upTo` commits
      of the compaction they come from, and a read cut after `n` WAL entries shows the commit it stops at
      whenever it stops at `upTo` or later. */
  lemma LateCutsAreCommits(p: Params, events: seq<Event>, k: Token) returns (i: nat)
    requires GuardedRun(p, INIT, events) && k in Run(p, INIT, events).seen
    ensures var s := Run(p, INIT, events); var m := s.seen[k];
      && Carries(s, m, i) && 0 <= Start(m) <= s.epochs[i].upTo <= m.nextSeq <= |s.log|
      && SegmentLive(s, m) == Truth(s.log[..s.epochs[i].upTo])
      && forall n | 0 <= n <= |m.wal| ::
           && TailView(s, m, n) == Replay(Truth(s.log[..s.epochs[i].upTo]), Flat(s.log[Start(m)..Start(m) + n]))
           && (Start(m) + n >= s.epochs[i].upTo ==> TailView(s, m, n) == Truth(s.log[..Start(m) + n]))
           && (n == 0 ==> TailView(s, m, n) == Truth(s.log[..s.epochs[i].upTo]))
  {
    hide Inv, Step, Run, GuardedRun, Backed, LogOk, Truth, Flat, TailView, SegmentLive, Folds, Replay;
    var s := Run(p, INIT, events);
    var m := s.seen[k];
    InitInv(p);
    InitFolds();
    RunKeeps(p, INIT, events);
    RunFolds(p, INIT, events);
    SeenBacked(p, s, k);
    StoreFacts(p, s);
    i := FoldAt(s, k);
    BackedStart(p, s, m);
    forall n | 0 <= n <= |m.wal|
      ensures TailView(s, m, n) == Replay(Truth(s.log[..s.epochs[i].upTo]), Flat(s.log[Start(m)..Start(m) + n]))
      ensures Start(m) + n >= s.epochs[i].upTo ==> TailView(s, m, n) == Truth(s.log[..Start(m) + n])
      ensures n == 0 ==> TailView(s, m, n) == Truth(s.log[..s.epochs[i].upTo])
    {
      if n == 0 {
        NothingMore(Truth(s.log[..s.epochs[i].upTo]), s.log, Start(m));
      }
      CutAt(p, s, m, s.epochs[i].upTo, n);
    }
  }

  lemma CutAt(p: Params, s: State, m: Manifest, upTo: nat, n: nat)
    requires LogOk(s) && Backed(p, s, m) && n <= |m.wal| && 0 <= Start(m) <= upTo <= m.nextSeq <= |s.log|
    requires Start(m) + |m.wal| == m.nextSeq && SegmentLive(s, m) == Truth(s.log[..upTo])
    ensures TailView(s, m, n) == Replay(Truth(s.log[..upTo]), Flat(s.log[Start(m)..Start(m) + n]))
    ensures Start(m) + n >= upTo ==> TailView(s, m, n) == Truth(s.log[..Start(m) + n])
  {
    hide Backed, LogOk, Truth, Flat, TailView, SegmentLive;
    TailReads(p, s, m, n);
    if Start(m) + n >= upTo {
      CutIsACommit(s.log, Start(m), upTo, Start(m) + n);
    }
  }

  lemma FoldAt(s: State, k: Token) returns (i: nat)
    requires Folds(s) && k in s.seen
    ensures Carries(s, s.seen[k], i)
    ensures s.epochs[i].start <= s.epochs[i].upTo <= |s.log| &&
      SegmentLive(s, s.seen[k]) == Truth(s.log[..s.epochs[i].upTo])
  {
    hide Truth, Replay, ReadObjects;
    assert CarriesOne(s, s.seen[k]);
    i :| Carries(s, s.seen[k], i);
    assert FoldOf(s, s.epochs[i]);
  }

  lemma BackedStart(p: Params, s: State, m: Manifest)
    requires Backed(p, s, m)
    ensures 0 <= Start(m) && Start(m) + |m.wal| == m.nextSeq <= |s.log|
  {
  }

  lemma CutIsACommit(log: seq<Commit>, start: nat, upTo: nat, cut: nat)
    requires start <= upTo <= cut <= |log|
    ensures Replay(Truth(log[..upTo]), Flat(log[start..cut])) == Truth(log[..cut])
  {
    FoldedLive(log[..cut], start, upTo);
    assert log[..cut][..upTo] == log[..upTo] && log[..cut][start..] == log[start..cut];
  }

  /** Whatever is in the log, a cut shows the commit it stops at: so exactly from `upTo` on. */
  ghost predicate AlwaysACommit(start: nat, upTo: nat, cut: nat)
    requires start <= upTo && start <= cut
  {
    forall log: seq<Commit> | |log| >= upTo && |log| >= cut ::
        Replay(Truth(log[..upTo]), Flat(log[start..cut])) == Truth(log[..cut])
  }

  lemma CutsAreCommitsExactlyFrom(start: nat, upTo: nat, cut: nat)
    requires start <= upTo && start <= cut
    ensures AlwaysACommit(start, upTo, cut) <==> cut >= upTo
  {
    hide Truth, Flat;
    if cut >= upTo {
      forall log: seq<Commit> | |log| >= upTo && |log| >= cut
        ensures Replay(Truth(log[..upTo]), Flat(log[start..cut])) == Truth(log[..cut])
      {
        CutIsACommit(log, start, upTo, cut);
      }
    } else {
      var quiet := seq(upTo - 1, _ => Commit(0, 0, []));
      var log := quiet + [Commit(0, 0, [Upsert(THE_DOC)])];
      QuietFlat(quiet[start..cut]);
      QuietFlat(quiet[..cut]);
      QuietFlat(quiet);
      assert log[start..cut] == quiet[start..cut] && log[..cut] == quiet[..cut] && log[..upTo] == log;
      FlatConcat(quiet, [Commit(0, 0, [Upsert(THE_DOC)])]);
      LastOne(THE_DOC);
      NothingTrue(quiet[..cut]);
      assert THE_ID in Truth(log) by { TruthOf(log, [Upsert(THE_DOC)]); }
    }
  }

  // ------------------------------------------------------------ a view of some earlier moment

  lemma NothingMore(live: Live, log: seq<Commit>, start: nat)
    requires start <= |log|
    ensures Replay(live, Flat(log[start..start])) == live
  {
    assert log[start..start] == [];
  }

  /** Whatever is in the log, a cut shows what some prefix of it means. */
  ghost predicate AlwaysAMoment(start: nat, upTo: nat, cut: nat)
    requires start <= upTo && start <= cut
  {
    forall log: seq<Commit> | |log| >= upTo && |log| >= cut ::
      AMoment(log, Replay(Truth(log[..upTo]), Flat(log[start..cut])))
  }

  ghost predicate AMoment(log: seq<Commit>, view: Live) {
    exists j: nat :: j <= |log| && view == Truth(log[..j])
  }

  /** A cut read is a view of an earlier moment if and only if it reads no WAL entry at all, or stops no earlier
      than the segments do. */
  lemma CutsAreMomentsExactly(start: nat, upTo: nat, cut: nat)
    requires start <= upTo && start <= cut
    ensures AlwaysAMoment(start, upTo, cut) <==> cut == start || cut >= upTo
  {
    hide Truth, Flat, AMoment;
    if cut == start || cut >= upTo {
      forall log: seq<Commit> | |log| >= upTo && |log| >= cut
        ensures AMoment(log, Replay(Truth(log[..upTo]), Flat(log[start..cut])))
      {
        if cut >= upTo {
          CutIsACommit(log, start, upTo, cut);
          IsAMoment(log, cut);
        } else {
          NothingMore(Truth(log[..upTo]), log, start);
          IsAMoment(log, upTo);
        }
      }
    } else {
      TornMeans(start, upTo, cut);
      var log := TornLog(upTo, cut);
      forall j: nat | j <= |log| ensures Truth(log[..j]) != TORN {
        TornNever(upTo, cut, j);
      }
      NotAMoment(log, TORN);
    }
  }

  lemma IsAMoment(log: seq<Commit>, j: nat)
    requires j <= |log|
    ensures AMoment(log, Truth(log[..j]))
  {
    hide Truth;
  }

  lemma NotAMoment(log: seq<Commit>, view: Live)
    requires forall j: nat | j <= |log| :: Truth(log[..j]) != view
    ensures !AMoment(log, view)
  {
    hide Truth;
  }

  /** The segments' end is not in the manifest: a reader that sees where the WAL starts and ends can be sure of a
      cut only if it reads none of the WAL or all of it. */
  lemma ReadersCanTell(start: nat, next: nat, cut: nat)
    requires start <= cut <= next
    ensures (forall upTo: nat | start <= upTo <= next :: AlwaysAMoment(start, upTo, cut)) <==>
            cut == start || cut == next
  {
    hide AlwaysAMoment;
    forall upTo: nat | start <= upTo <= next
      ensures AlwaysAMoment(start, upTo, cut) <==> cut == start || cut >= upTo
    {
      CutsAreMomentsExactly(start, upTo, cut);
    }
    assert AlwaysAMoment(start, next, cut) <==> cut == start || cut >= next;
  }

  /** Empty commits, but for one upsert just before the cut, and its delete with another upsert at the end. */
  function TornLog(upTo: nat, cut: nat): (r: seq<Commit>)
    requires 0 < cut < upTo
    ensures |r| == upTo
  {
    Quiet(cut - 1) + [Commit(0, 0, [Upsert(THE_DOC)])] + Quiet(upTo - 1 - cut) +
    [Commit(0, 0, [Delete(THE_ID), Upsert(OTHER_DOC)])]
  }

  function Quiet(n: nat): (r: seq<Commit>)
    ensures |r| == n && forall i | 0 <= i < n :: r[i].records == []
  {
    seq(n, _ => Commit(0, 0, []))
  }

  /** The log's records up to any point. */
  lemma TornFlat(upTo: nat, cut: nat, from: nat, j: nat)
    requires 0 < cut < upTo && from < cut && from <= j <= upTo
    ensures Flat(TornLog(upTo, cut)[from..j]) ==
            if j < cut then [] else [Upsert(THE_DOC)] + if j < upTo then [] else [Delete(THE_ID), Upsert(OTHER_DOC)]
  {
    hide Flat;
    var log := TornLog(upTo, cut);
    var a, b := Commit(0, 0, [Upsert(THE_DOC)]), Commit(0, 0, [Delete(THE_ID), Upsert(OTHER_DOC)]);
    if j < cut {
      QuietFlat(log[from..j]);
    } else {
      var mid := if j < upTo then log[cut..j] else log[cut..upTo - 1];
      QuietFlat(log[from..cut - 1]);
      QuietFlat(mid);
      OneFlat(a);
      OneFlat(b);
      FlatConcat(log[from..cut - 1], [a]);
      FlatConcat(log[from..cut - 1] + [a], mid);
      assert log[from..cut - 1] + [a] + mid == log[from..cut + |mid|];
      if j == upTo {
        FlatConcat(log[from..upTo - 1], [b]);
        assert log[from..upTo] == log[from..upTo - 1] + [b];
      }
    }
  }

  lemma TornMeans(start: nat, upTo: nat, cut: nat)
    requires start < cut < upTo
    ensures Replay(Truth(TornLog(upTo, cut)[..upTo]), Flat(TornLog(upTo, cut)[start..cut])) == TORN
  {
    hide Flat, Replay;
    TornFlat(upTo, cut, 0, upTo);
    TornFlat(upTo, cut, start, cut);
    var log := TornLog(upTo, cut);
    assert log[0..upTo] == log[..upTo];
    TornReplays();
  }

  lemma TornReplays()
    ensures Replay(map[], [Upsert(THE_DOC)] + []) == map[THE_ID := THE_DOC]
    ensures Replay(map[], [Upsert(THE_DOC)] + [Delete(THE_ID), Upsert(OTHER_DOC)]) == map[OTHER_ID := OTHER_DOC]
    ensures Replay(map[OTHER_ID := OTHER_DOC], [Upsert(THE_DOC)] + []) == TORN
    ensures Replay(map[], []) == map[]
  {
    hide Replay;
    assert [Upsert(THE_DOC)] + [] == [Upsert(THE_DOC)];
    ReplayOne(map[], Upsert(THE_DOC));
    ReplayOne(map[OTHER_ID := OTHER_DOC], Upsert(THE_DOC));
    ReplayConcat(map[], [Upsert(THE_DOC)], [Delete(THE_ID), Upsert(OTHER_DOC)]);
    assert [Delete(THE_ID), Upsert(OTHER_DOC)] == [Delete(THE_ID)] + [Upsert(OTHER_DOC)];
    ReplayConcat(map[THE_ID := THE_DOC], [Delete(THE_ID)], [Upsert(OTHER_DOC)]);
    ReplayOne(map[THE_ID := THE_DOC], Delete(THE_ID));
    ReplayOne(map[], Upsert(OTHER_DOC));
    ReplayNone();
  }

  lemma ReplayNone()
    ensures Replay(map[], []) == map[]
  {
  }

  lemma TornNever(upTo: nat, cut: nat, j: nat)
    requires 0 < cut < upTo && j <= upTo
    ensures Truth(TornLog(upTo, cut)[..j]) != TORN
  {
    hide Flat, Replay;
    TornFlat(upTo, cut, 0, j);
    var log := TornLog(upTo, cut);
    assert log[0..j] == log[..j];
    TornReplays();
    assert THE_ID in TORN && OTHER_ID in TORN;
  }

  lemma {:induction false} QuietFlat(log: seq<Commit>)
    requires forall i | 0 <= i < |log| :: log[i].records == []
    ensures Flat(log) == []
    decreases |log|
  {
    if log != [] {
      QuietFlat(log[1..]);
    }
  }

  lemma LastOne(d: Doc)
    ensures Flat([Commit(0, 0, [Upsert(d)])]) == [Upsert(d)]
    ensures Replay(map[], [Upsert(d)]) == map[d.id := d]
  {
    ReplayOne(map[], Upsert(d));
    assert Flat([Commit(0, 0, [Upsert(d)])]) == [Upsert(d)] + Flat([Commit(0, 0, [Upsert(d)])][1..]);
  }

  lemma NothingTrue(log: seq<Commit>)
    requires Flat(log) == []
    ensures Truth(log) == map[]
  {
  }

  lemma TruthOf(log: seq<Commit>, records: seq<Record>)
    requires Flat(log) == records
    ensures Truth(log) == Replay(map[], records)
  {
  }

  // ------------------------------------------------------------ a cut that shows no commit at all

  const OTHER_ID: Id := UintId(8)
  const OTHER_DOC: Doc := Doc(OTHER_ID, [], map[])

  function PlainSchema(): Schema {
    EMPTY_SCHEMA.(idType := Some(IdUint))
  }

  lemma PlainPrepares(p: Params, head: Option<Versioned>, r: Record)
    requires Plain(r) && (ManifestOf(head).schema == EMPTY_SCHEMA || ManifestOf(head).schema == PlainSchema())
    ensures PrepareCall(p, head, NextCall(r)) == Ok((PlainSchema(), [r]))
  {
    var m := ManifestOf(head);
    DeclaresShards(m.schema, None, m.HasData());
    assert EMPTY_CONFIG.(numShards := None) == EMPTY_CONFIG;
    AbsorbsOne(p.host, m.schema, r);
  }

  function LogOf(rs: seq<Record>): seq<Commit> {
    seq(|rs|, i requires 0 <= i < |rs| => Commit(i + 2, i + 2, [rs[i]]))
  }

  function WalOf(p: Params, rs: seq<Record>): seq<WalEntry> {
    seq(|rs|, i requires 0 <= i < |rs| => WalEntry(i + 2, p.blobLen([rs[i]]), 1))
  }

  function Numbers(n: nat): (r: set<nat>)
    ensures forall i :: i in r <==> 2 <= i < n + 2
  {
    if n == 0 then {} else Numbers(n - 1) + {n + 1}
  }

  /** Some writes while a compactor that loaded the empty namespace has not read any record yet. */
  predicate Grown(p: Params, s: State, rs: seq<Record>) {
    var m := ManifestOf(s.head);
    && UpToDate(s) && (rs != [] ==> s.head.Some? && 0 in s.snapshots) && s.objects == s.stored && s.clock == 0
    && s.actors.Keys == {1} + Numbers(|rs|) && s.actors[1] == CompactBased(0, false, EMPTY_MANIFEST, 1)
    && s.stored.Keys == Numbers(|rs|) && s.seen.Keys == Numbers(|rs|) && s.epochs == [Epoch(None, [], 0, 0)]
    && (m.schema == EMPTY_SCHEMA || m.schema == PlainSchema())
    && s.log == LogOf(rs) && m.wal == WalOf(p, rs) && m.shards == [] && m.nextSeq == |rs|
  }

  lemma GrowOne(p: Params, s: State, rs: seq<Record>, r: Record) returns (t: State)
    requires Grown(p, s, rs) && Plain(r)
    ensures t == Run(p, s, WriteEvents(|rs| + 2, NextCall(r), |rs| + 2, |rs| + 2)) && Grown(p, t, rs + [r])
  {
    hide Step, PrepareCall, GuardedRun, Run, LogOf, WalOf, PlainSchema;
    PlainPrepares(p, s.head, r);
    t := WriteRun(p, s, |rs| + 2, NextCall(r), |rs| + 2, |rs| + 2, PlainSchema(), [r]);
    ListsGrow(p, rs, r);
  }

  lemma ListsGrow(p: Params, rs: seq<Record>, r: Record)
    ensures LogOf(rs + [r]) == LogOf(rs) + [Commit(|rs| + 2, |rs| + 2, [r])]
    ensures WalOf(p, rs + [r]) == WalOf(p, rs) + [WalEntry(|rs| + 2, p.blobLen([r]), 1)]
  {
  }

  const STORY: seq<Record> := [Upsert(THE_DOC)] + [Delete(THE_ID)] + [Upsert(OTHER_DOC)]

  lemma WritesWhileBased(p: Params) returns (events: seq<Event>, s: State)
    ensures s == Run(p, INIT, events) && NoCompactCas(events) && Grown(p, s, STORY)
  {
    hide Step, Run, Grown;
    var s0 := INIT.(actors := map[1 := CompactBased(0, false, EMPTY_MANIFEST, 1)]);
    Begins(p);
    NothingGrown(p, s0);
    var s1 := GrowOne(p, s0, [], Upsert(THE_DOC));
    assert [] + [Upsert(THE_DOC)] == [Upsert(THE_DOC)];
    var s2 := GrowOne(p, s1, [Upsert(THE_DOC)], Delete(THE_ID));
    s := GrowOne(p, s2, [Upsert(THE_DOC)] + [Delete(THE_ID)], Upsert(OTHER_DOC));
    var e1 := WriteEvents(2, NextCall(Upsert(THE_DOC)), 2, 2);
    var e2 := WriteEvents(3, NextCall(Delete(THE_ID)), 3, 3);
    var e3 := WriteEvents(4, NextCall(Upsert(OTHER_DOC)), 4, 4);
    events := [BeginCompact(1, 0, false)] + e1 + e2 + e3;
    RunConcat(p, INIT, [BeginCompact(1, 0, false)], e1);
    RunConcat(p, INIT, [BeginCompact(1, 0, false)] + e1, e2);
    RunConcat(p, INIT, [BeginCompact(1, 0, false)] + e1 + e2, e3);
  }

  lemma NothingGrown(p: Params, s: State)
    requires s == INIT.(actors := map[1 := CompactBased(0, false, EMPTY_MANIFEST, 1)])
    ensures Grown(p, s, [])
  {
  }

  lemma Begins(p: Params)
    ensures Run(p, INIT, [BeginCompact(1, 0, false)]) ==
      INIT.(actors := map[1 := CompactBased(0, false, EMPTY_MANIFEST, 1)])
  {
    RunOne(p, INIT, BeginCompact(1, 0, false));
    assert DoBeginCompact(INIT, 1, 0, false).actors == map[1 := CompactBased(0, false, EMPTY_MANIFEST, 1)];
  }

  /** The compactor reads all of them, and commits: they are in its segment and still in the WAL. */
  lemma FoldsAhead(p: Params, s: State, rs: seq<Record>) returns (events: seq<Event>, t: State)
    requires Grown(p, s, rs) && rs != []
    ensures t == Run(p, s, events) && GuardedRun(p, s, events)
    ensures t.log == LogOf(rs) && t.head.Some? && t.head.value.token in t.seen &&
      t.seen[t.head.value.token] == t.head.value.manifest
    ensures |t.epochs| == 2 && t.epochs[1].upTo == |rs| && ManifestOf(t.head).wal == WalOf(p, rs) &&
      ManifestOf(t.head).nextSeq == |rs|
    ensures ManifestOf(t.head).shards != t.epochs[0].shards
  {
    hide Step, GuardedRun, Run, LiveOf, Building;
    var m := ManifestOf(s.head);
    var job := Job(0, false, EMPTY_MANIFEST, 1, LiveOf(s.objects, m), |rs|, [], None, 1);
    ReadsAll(p, s, rs);
    var s1 := Become(s, 1, CompactBuilding(job));
    var from := |rs| + 2;
    var s2, built := PutsRun(p, s1, 1, from, 1, job);
    BuildingKeeps(s1, s2, 1, from, job, built);
    t := FoldRun(p, s2, 1, built, from);
    var reload := [CompactReload(1), CompactCas(1, from)];
    events := [CompactRead(1)] + PutEvents(1, from, 1) + reload;
    RunConcat(p, s, [CompactRead(1)], PutEvents(1, from, 1));
    RunConcat(p, s, [CompactRead(1)] + PutEvents(1, from, 1), reload);
    PutsArePlain(1, from, 1);
    PlainIsGuarded(p, s, [CompactRead(1)] + PutEvents(1, from, 1));
    GuardedConcat(p, s, [CompactRead(1)] + PutEvents(1, from, 1), reload);
    RetainSuffix([], m.wal, WalNames(EMPTY_MANIFEST.wal));
    assert [] + m.wal == m.wal;
  }

  lemma BuildingKeeps(s: State, t: State, a: Actor, from: Name, job: Job, next: Job)
    requires Building(s, t, a, from, job, next)
    ensures t == s.(objects := t.objects, stored := t.stored, actors := t.actors) && a in t.actors &&
      t.actors[a] == CompactBuilding(next)
    ensures next == job.(built := next.built, firstPut := next.firstPut)
    ensures next.firstPut == job.firstPut || next.firstPut == Some(s.clock)
  {
  }

  lemma ReadsAll(p: Params, s: State, rs: seq<Record>)
    requires Grown(p, s, rs) && rs != []
    ensures Run(p, s, [CompactRead(1)]) ==
            Become(s, 1, CompactBuilding(Job(0, false, EMPTY_MANIFEST, 1, LiveOf(s.objects, ManifestOf(s.head)), |rs|,
                [], None, 1)))
  {
    hide LiveOf;
    RunOne(p, s, CompactRead(1));
    var m := ManifestOf(s.head);
    forall i | 0 <= i < |rs| ensures WalNames(m.wal)[i] == i + 2 {
    }
    assert Remember(s, 0, s.head).snapshots == s.snapshots;
  }

  /** The documents deleted and written later, side by side: the live set of no moment. */
  const TORN: Live := map[THE_ID := THE_DOC, OTHER_ID := OTHER_DOC]

  lemma TornIsNoCommit(j: nat)
    requires j <= 3
    ensures Truth(LogOf(STORY)[..j]) != TORN
    ensures Replay(Truth(LogOf(STORY)[..3]), Flat(LogOf(STORY)[0..1])) == TORN
  {
    var log := LogOf(STORY);
    var a, b, c := Commit(2, 2, [Upsert(THE_DOC)]), Commit(3, 3, [Delete(THE_ID)]), Commit(4, 4, [Upsert(OTHER_DOC)]);
    assert log == [a] + [b] + [c];
    assert log[..0] == [] && log[..1] == [a] && log[..2] == [a] + [b] && log[..3] == [a] + [b] + [c] &&
        log[0..1] == [a];
    OneFlat(a);
    OneFlat(b);
    OneFlat(c);
    FlatConcat([a], [b]);
    FlatConcat([a] + [b], [c]);
    ReplayOne(map[], Upsert(THE_DOC));
    ReplayOne(map[THE_ID := THE_DOC], Delete(THE_ID));
    ReplayOne(map[], Upsert(OTHER_DOC));
    ReplayOne(map[OTHER_ID := OTHER_DOC], Upsert(THE_DOC));
    ReplayConcat(map[], [Upsert(THE_DOC)], [Delete(THE_ID)]);
    ReplayConcat(map[], [Upsert(THE_DOC)] + [Delete(THE_ID)], [Upsert(OTHER_DOC)]);
    assert OTHER_ID in TORN && THE_ID in TORN;
  }

  lemma OneFlat(c: Commit)
    ensures Flat([c]) == c.records
  {
    assert Flat([c]) == c.records + Flat([c][1..]);
    assert c.records + [] == c.records;
  }

  /** And such reads happen: an eventual read of a reachable manifest, cut within the scan cap after its first
      WAL entry, answers a live set that the namespace never had. */
  lemma CutReadIsTorn(p: Params) returns (events: seq<Event>, cap: nat)
    requires p.blobLen([Delete(THE_ID)]) > 0
    ensures GuardedRun(p, INIT, events)
    ensures var s := Run(p, INIT, events);
      && Answers(s, 0, Eventual, false, cap, Some(View(TORN, false)))
      && forall j | 0 <= j <= |s.log| :: Truth(s.log[..j]) != TORN
  {
    hide Step, GuardedRun, Run, Truth, Grown, Flat, Replay, LogOf, WalOf;
    var e1, s1 := WritesWhileBased(p);
    var e2, s := FoldsAhead(p, s1, STORY);
    events := e1 + e2;
    RunConcat(p, INIT, e1, e2);
    PlainIsGuarded(p, INIT, e1);
    GuardedConcat(p, INIT, e1, e2);
    var i := LateCutsAreCommits(p, events, s.head.value.token);
    assert i == 1;
    StorySizes(p);
    TornIsNoCommit(0);
    forall j | 0 <= j <= |s.log| ensures Truth(s.log[..j]) != TORN {
      TornIsNoCommit(j);
    }
    var m := ManifestOf(s.head);
    assert Start(m) == 0 && s.log[Start(m)..Start(m) + 1] == s.log[0..1];
    assert TailView(s, m, 1) == TORN;
    cap := p.blobLen([Upsert(THE_DOC)]);
    FirstOnly(p, m.wal, cap);
    CutAnswers(s, cap);
  }

  lemma StorySizes(p: Params)
    ensures |STORY| == |LogOf(STORY)| == |WalOf(p, STORY)| == 3
  {
  }

  lemma CutAnswers(s: State, cap: nat)
    requires var m := ManifestOf(s.head); |m.wal| > 1 && LongestWithin(m.wal, cap, 1) && TailView(s, m, 1) == TORN
    ensures Answers(s, 0, Eventual, false, cap, Some(View(TORN, false)))
  {
    hide LongestWithin, TailView;
    assert LoadWith(s, 0, Eventual, false) == (ManifestOf(s.head), false);
  }

  lemma FirstOnly(p: Params, wal: seq<WalEntry>, cap: nat)
    requires wal == WalOf(p, STORY) && cap == p.blobLen([Upsert(THE_DOC)]) && p.blobLen([Delete(THE_ID)]) > 0
    ensures LongestWithin(wal, cap, 1)
  {
    assert PrefixBytes(wal, 1) == cap;
    assert PrefixBytes(wal, 2) == cap + p.blobLen([Delete(THE_ID)]);
    forall k | 0 <= k <= |wal| ensures PrefixBytes(wal, k) <= cap <==> k <= 1 {
      if k >= 2 {
        PrefixBytesGrow(wal, 2, k);
      } else {
        PrefixBytesGrow(wal, k, 1);
      }
    }
  }
}
