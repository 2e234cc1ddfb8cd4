/** What a query may see: the unindexed tail it reads, the snapshot it may use, what it claims. */
module Reads {
  import opened Wrappers
  import opened Records
  import opened Protocol
  import opened Safety
  import opened Runs
  import opened Overlap
  import opened Collection
  import opened Sums
  import Ivf

  // ------------------------------------------------------------ the tail within the scan cap

  function PrefixBytes(wal: seq<WalEntry>, n: nat): nat
    requires n <= |wal|
  {
    if n == 0 then 0 else PrefixBytes(wal, n - 1) + wal[n - 1].bytes
  }

  ghost function BytesAt(wal: seq<WalEntry>): nat -> real {
    (i: nat) => if i < |wal| then wal[i].bytes as real else 0.0
  }

  /** The bytes of a prefix are the sum of its entries' sizes. */
  lemma {:induction false} PrefixIsTheSum(wal: seq<WalEntry>, n: nat)
    requires n <= |wal|
    ensures PrefixBytes(wal, n) as real == SumOver(Ivf.Range(n), BytesAt(wal))
    decreases n
  {
    if n > 0 {
      PrefixIsTheSum(wal, n - 1);
      SumAdd<nat>(Ivf.Range(n - 1), BytesAt(wal), n - 1);
      assert Ivf.Range(n) == Ivf.Range(n - 1) + {n - 1};
    }
  }

  lemma {:induction false} PrefixBytesGrow(wal: seq<WalEntry>, i: nat, j: nat)
    requires i <= j <= |wal|
    ensures PrefixBytes(wal, i) <= PrefixBytes(wal, j)
    decreases j
  {
    if i < j {
      PrefixBytesGrow(wal, i, j - 1);
    }
  }

  /** `n` is the length of the longest prefix within `cap` bytes. */
  ghost predicate LongestWithin(wal: seq<WalEntry>, cap: nat, n: nat) {
    n <= |wal| && forall k | 0 <= k <= |wal| :: PrefixBytes(wal, k) <= cap <==> k <= n
  }

  method WalPrefixWithin(wal: seq<WalEntry>, cap: nat) returns (n: nat, truncated: bool)
    ensures LongestWithin(wal, cap, n)
    ensures truncated <==> PrefixBytes(wal, |wal|) > cap
  {
    var acc := 0;
    n := 0;
    while n < |wal|
      invariant n <= |wal| && acc == PrefixBytes(wal, n) <= cap
    {
      if acc + wal[n].bytes > cap {
        forall k | 0 <= k <= |wal| ensures PrefixBytes(wal, k) <= cap <==> k <= n {
          if k <= n {
            PrefixBytesGrow(wal, k, n);
          } else {
            PrefixBytesGrow(wal, n + 1, k);
          }
        }
        PrefixBytesGrow(wal, n + 1, |wal|);
        return n, true;
      }
      acc := acc + wal[n].bytes;
      n := n + 1;
    }
    forall k | 0 <= k <= |wal| ensures PrefixBytes(wal, k) <= cap {
      PrefixBytesGrow(wal, k, |wal|);
    }
    truncated := false;
  }

  // ------------------------------------------------------------ one query's view

  datatype Consistency = Strong | Eventual

  datatype View = View(live: Live, consistent: bool)

  /** A remembered manifest serves an eventual read while it is young enough. */
  function LoadWith(s: State, h: Handle, c: Consistency, young: bool): (Manifest, bool) {
    if c.Eventual? && h in s.snapshots && young then (s.snapshots[h].manifest, true)
    else (ManifestOf(s.head), false)
  }

  function SegmentLive(s: State, m: Manifest): Live {
    Replay(map[], ReadObjects(s.stored, SegmentNames(m.shards)))
  }

  /** The live set built from the segments and the first `n` WAL entries. */
  function TailView(s: State, m: Manifest, n: nat): Live
    requires n <= |m.wal|
  {
    Replay(SegmentLive(s, m), ReadObjects(s.stored, WalNames(m.wal[..n])))
  }

  /** A strong read over the cap is refused; any other says what it really saw. */
  ghost predicate Answers(s: State, h: Handle, c: Consistency, young: bool, cap: nat, r: Option<View>) {
    var (m, fromSnapshot) := LoadWith(s, h, c, young);
    exists n: nat :: LongestWithin(m.wal, cap, n) &&
      r == if n < |m.wal| && c.Strong? then None
           else Some(View(TailView(s, m, n), !fromSnapshot && n == |m.wal|))
  }

  // ------------------------------------------------------------ what a view means

  lemma TailReads(p: Params, s: State, m: Manifest, n: nat)
    requires LogOk(s) && Backed(p, s, m) && n <= |m.wal|
    ensures TailView(s, m, n) == Replay(SegmentLive(s, m), Flat(s.log[Start(m)..Start(m) + n]))
  {
    var names, commits := WalNames(m.wal[..n]), s.log[Start(m)..Start(m) + n];
    forall i | 0 <= i < n
      ensures names[i] == commits[i].name && names[i] in s.stored && s.stored[names[i]].records == commits[i].records
    {
      assert EntryFor(p, m.wal[i], s.log[Start(m) + i]);
      assert CommitOk(s, Start(m) + i) && commits[i].name in [commits[i].name];
    }
    ReadEntries(s.stored, names, commits);
  }

  lemma WholeTail(p: Params, s: State, m: Manifest)
    requires LogOk(s) && Backed(p, s, m)
    ensures TailView(s, m, |m.wal|) == Truth(s.log[..m.nextSeq])
  {
    TailReads(p, s, m, |m.wal|);
  }

  lemma ViewBacked(p: Params, s: State, h: Handle, c: Consistency, young: bool)
    requires Inv(p, s)
    ensures Backed(p, s, LoadWith(s, h, c, young).0) && LogOk(s)
    ensures !LoadWith(s, h, c, young).1 ==> LoadWith(s, h, c, young).0.nextSeq == |s.log|
    ensures LoadWith(s, h, c, young).0.nextSeq <= |s.log|
  {
    hide Inv, Backed, LogOk, EpochsOk;
    HeadKnown(p, s);
    HeadBacked(p, s);
    StoreFacts(p, s);
    if c.Eventual? && h in s.snapshots && young {
      SeenBacked(p, s, s.snapshots[h].token);
    }
  }

  /** `consistent` is never claimed wrongly: then, and whenever a strong read answers at all, the view
      is every committed batch; an untruncated eventual read is some earlier commit point. */
  lemma ReadsAreHonest(p: Params, events: seq<Event>, h: Handle, c: Consistency, young: bool, cap: nat, r: Option<View>)
    requires GuardedRun(p, INIT, events) && Answers(Run(p, INIT, events), h, c, young, cap, r)
    ensures r.Some? && (r.value.consistent || c.Strong?) ==>
      r.value.consistent && r.value.live == Truth(Run(p, INIT, events).log)
    ensures var s := Run(p, INIT, events); var m := LoadWith(s, h, c, young).0;
      PrefixBytes(m.wal, |m.wal|) <= cap ==>
          r.Some? && m.nextSeq <= |s.log| && r.value.live == Truth(s.log[..m.nextSeq])
    ensures r.None? <==>
      var m := ManifestOf(Run(p, INIT, events).head); c.Strong? && PrefixBytes(m.wal, |m.wal|) > cap
  {
    hide Inv, Step, Backed, LogOk, TailView, Truth, GuardedRun;
    var s := Run(p, INIT, events);
    InitInv(p);
    RunKeeps(p, INIT, events);
    ViewBacked(p, s, h, c, young);
    var (m, fromSnapshot) := LoadWith(s, h, c, young);
    WholeTail(p, s, m);
    assert s.log[..|s.log|] == s.log;
  }

  // ------------------------------------------------------------ reading one's own writes

  /** An eventual read on handle `h` that uses the snapshot sees commit `q`. */
  predicate Visible(s: State, h: Handle, q: nat) {
    h in s.snapshots ==> s.snapshots[h].manifest.nextSeq > q
  }

  /** The manifest that a reply arriving now makes a handle remember: a load's, or a won CAS's own. */
  function Remembers(s: State, e: Event): Option<(Handle, Manifest)> {
    if (!e.ReaderRemember? && !e.CasReply?) || e.a !in s.actors then None
    else
      match s.actors[e.a]
      case ReadPending(h, got) => if e.ReaderRemember? then Some((h, got.manifest)) else None
      case WriteDecided(call, _, Some(got)) => if e.CasReply? && !e.lost then Some((call.handle, got.manifest))
          else None
      case CompactDecided(h, got, _) => if e.CasReply? && !e.lost then Some((h, got.manifest)) else None
      case _ => None
  }

  /** A reply that arrives after commit `q` with a manifest from before it. */
  predicate LateReply(s: State, e: Event, h: Handle, q: nat) {
    var r := Remembers(s, e);
    r.Some? && r.value.0 == h && r.value.1.nextSeq <= q
  }

  /** Every other change of the snapshots forgets, or remembers a manifest that is up to date. */
  predicate Current(s: State, t: State) {
    forall h | h in t.snapshots ::
      (h in s.snapshots && t.snapshots[h] == s.snapshots[h]) || t.snapshots[h].manifest.nextSeq >= |s.log|
  }

  lemma CurrentKeepsVisible(s: State, t: State, h: Handle, q: nat)
    requires Current(s, t) && Visible(s, h, q) && q < |s.log|
    ensures Visible(t, h, q)
  {
  }

  lemma CompactorIsCurrent(s: State, a: Actor, h: Handle, build: bool)
    requires HeadOk(s)
    ensures Current(s, DoBeginCompact(s, a, h, build)) && Current(s, DoCompactRead(s, a)) &&
      Current(s, DoCompactReload(s, a))
  {
    hide LiveOf, Holds, NothingToDo;
  }

  lemma LoadsAreCurrent(s: State, e: Event, t: State)
    requires HeadOk(s)
    requires t == (if e.WriterLoad? then DoWriterLoad(s, e.a)
                   else if e.BeginCompact? then DoBeginCompact(s, e.a, e.h, e.build)
                   else if e.CompactRead? then DoCompactRead(s, e.a)
                   else if e.CompactReload? then DoCompactReload(s, e.a)
                   else if e.GcLoad? then DoGcLoad(s, e.a, e.h)
                   else s)
    ensures Current(s, t)
  {
    hide Referenced, DoBeginCompact, DoCompactRead, DoCompactReload;
    if e.BeginCompact? {
      CompactorIsCurrent(s, e.a, e.h, e.build);
    } else if e.CompactRead? || e.CompactReload? {
      CompactorIsCurrent(s, e.a, 0, false);
    }
  }

  lemma CommitsAreCurrent(p: Params, s: State, a: Actor, token: Token)
    ensures Current(s, DoWriterCas(p, s, a, token)) && Current(s, DoCompactCas(p, s, a, token))
  {
    hide NextManifest, Folded;
  }

  /** A reply changes nothing, forgets, or remembers its own manifest. */
  lemma ReplyForms(p: Params, s: State, e: Event)
    requires (e.ReaderRemember? || e.CasReply?)
    requires e.a in s.actors && s.actors[e.a].WriteDecided? && s.actors[e.a].won.Some? ==> LoggedAt(s.actors[e.a]).Some?
    ensures var t, r := Step(p, s, e), Remembers(s, e);
      if r.None? then Current(s, t)
      else
        && r.value.0 in t.snapshots && t.snapshots[r.value.0].manifest == r.value.1
        && t.snapshots - {r.value.0} == s.snapshots - {r.value.0}
  {
    hide DoWriterPut, DoWriterCas, DoWriterLoad, DoBeginCompact, DoCompactRead, DoCompactPut, DoCompactReload,
        DoCompactCas, DoGcLoad;
  }

  lemma WonIsLogged(p: Params, s: State, a: Actor)
    requires Inv(p, s) && a in s.actors && s.actors[a].WriteDecided? && s.actors[a].won.Some?
    ensures LoggedAt(s.actors[a]).Some?
  {
    hide Inv, CommittedAt, PrepareCall;
    PhaseFact(p, s, a);
  }

  lemma PutsAreCurrent(p: Params, s: State, a: Actor, name: Name, index: seq<Name>)
    ensures Current(s, DoWriterPut(p, s, a, name)) && Current(s, DoCompactPut(p, s, a, name, index))
  {
    hide PrepareCall, NextBucket, FreshNames, ShardObjects;
  }

  lemma StepIsCurrent(p: Params, s: State, e: Event)
    requires Inv(p, s) && !e.ReaderRemember? && !e.CasReply?
    ensures Current(s, Step(p, s, e))
  {
    hide Inv, DoWriterPut, DoWriterCas, DoWriterLoad, DoBeginCompact, DoCompactRead, DoCompactPut, DoCompactReload,
        DoCompactCas, DoGcLoad, DoCrash, HeadOk, Current;
    var t := Step(p, s, e);
    StoreFacts(p, s);
    if e.WriterLoad? || e.BeginCompact? || e.CompactRead? || e.CompactReload? || e.GcLoad? {
      LoadsAreCurrent(s, e, t);
    } else if e.WriterCas? {
      CommitsAreCurrent(p, s, e.a, e.token);
    } else if e.CompactCas? {
      CommitsAreCurrent(p, s, e.a, e.token);
    } else if e.WriterPut? {
      PutsAreCurrent(p, s, e.a, e.name, []);
    } else if e.CompactPut? {
      PutsAreCurrent(p, s, e.a, e.segment, e.index);
    } else if e.Crash? {
      CrashForgetsNothing(s, e.a);
      SameSnapshots(s, t);
    } else {
      SameSnapshots(s, t);
    }
  }

  lemma CrashForgetsNothing(s: State, a: Actor)
    ensures DoCrash(s, a).snapshots == s.snapshots
  {
  }

  lemma SameSnapshots(s: State, t: State)
    requires t.snapshots == s.snapshots
    ensures Current(s, t)
  {
  }

  /** The one step that hides a committed write from a handle is a late reply: a load's, or a won CAS's. */
  lemma OnlyLateRepliesHide(p: Params, s: State, e: Event, h: Handle, q: nat)
    requires Inv(p, s) && q < |s.log| && Visible(s, h, q)
    ensures Visible(Step(p, s, e), h, q) <==> !LateReply(s, e, h, q)
  {
    hide Inv, Step, Current, Remembers;
    if e.ReaderRemember? || e.CasReply? {
      if e.a in s.actors && s.actors[e.a].WriteDecided? && s.actors[e.a].won.Some? {
        WonIsLogged(p, s, e.a);
      }
      ReplyForms(p, s, e);
      var t, r := Step(p, s, e), Remembers(s, e);
      if r.None? {
        CurrentKeepsVisible(s, t, h, q);
      } else if r.value.0 != h {
        assert h in t.snapshots ==> h in t.snapshots - {r.value.0};
        assert h in s.snapshots ==> h in s.snapshots - {r.value.0};
      }
    } else {
      StepIsCurrent(p, s, e);
      CurrentKeepsVisible(s, Step(p, s, e), h, q);
      NoReply(s, e);
    }
  }

  lemma NoReply(s: State, e: Event)
    requires !e.ReaderRemember? && !e.CasReply?
    ensures Remembers(s, e) == None
  {
  }

  /** And such runs exist: a write is acknowledged on handle 0, then an older load on the same handle
      overwrites the newer snapshot. */
  lemma LateLoadHidesOwnWrite(p: Params)
    ensures exists events: seq<Event>, a, q ::
      var s := Run(p, INIT, events);
      Done(s, a) && s.actors[a].call.handle == 0 && s.actors[a].outcome == Acked(q) && !Visible(s, 0, q)
  {
    hide Step, PrepareCall, Run, LiveOf, Holds, Flat;
    var s1 := FirstWrite(p);
    GetRun(p, s1, 2);
    var s2 := Become(s1, 2, ReadPending(0, s1.head.value));
    NextPrepares(p, s2.head, 1, Delete(THE_ID));
    var s3 := WriteRun(p, s2, 3, NextCall(Delete(THE_ID)), 3, 3, TheSchema(1), [Delete(THE_ID)]);
    RememberRun(p, s3, 2);
    var e1, e3 := WriteEvents(1, FirstCall(1), 1, 1), WriteEvents(3, NextCall(Delete(THE_ID)), 3, 3);
    var events := e1 + [ReaderGet(2, 0)] + e3 + [ReaderRemember(2)];
    RunConcat(p, INIT, e1, [ReaderGet(2, 0)]);
    RunConcat(p, INIT, e1 + [ReaderGet(2, 0)], e3);
    RunConcat(p, INIT, e1 + [ReaderGet(2, 0)] + e3, [ReaderRemember(2)]);
    var s4 := Become(Remember(s3, 0, s1.head), 2, Dead);
    assert Run(p, INIT, events) == s4;
    HiddenAfter(s3, s4, s1.head.value);
    assert Done(s4, 3) && s4.actors[3].outcome == Acked(1) && !Visible(s4, 0, 1);
  }

  lemma HiddenAfter(s: State, t: State, got: Versioned)
    requires t == Become(Remember(s, 0, Some(got)), 2, Dead) && got.manifest.nextSeq == 1
    ensures !Visible(t, 0, 1) && forall a | a in s.actors && a != 2 :: a in t.actors && t.actors[a] == s.actors[a]
  {
  }

  lemma FirstWrite(p: Params) returns (s: State)
    ensures s == Run(p, INIT, WriteEvents(1, FirstCall(1), 1, 1)) && Calm(s, 1, [Delete(THE_ID)]) && |s.log| == 1
    ensures s.actors.Keys == {1} && s.stored.Keys == {1} && s.seen.Keys == {1} && |s.epochs| == 1
    ensures ManifestOf(s.head).wal != [] && ManifestOf(s.head).shards == [] && ManifestOf(s.head).nextSeq == 1
    ensures Holds(s.objects, SegmentNames(ManifestOf(s.head).shards)) &&
      Holds(s.objects, WalNames(ManifestOf(s.head).wal))
    ensures LiveOf(s.objects, ManifestOf(s.head)) == map[]
  {
    hide Step, LiveOf, PrepareCall, Run, Replay;
    FirstPrepares(p, 1);
    StoryMeans();
    s := WriteRun(p, INIT, 1, FirstCall(1), 1, 1, TheSchema(1), [Delete(THE_ID)]);
    var m := ManifestOf(s.head);
    EmptyBaseReads(s.objects, m, 1, [1]);
    ReadsTo(s.objects, m, [Delete(THE_ID)]);
    assert Flat(s.log) == s.log[0].records + Flat(s.log[1..]);
  }

  /** A compaction's fold is published; its reply is slow. */
  lemma SlowFold(p: Params) returns (events: seq<Event>, s: State)
    ensures s == Run(p, INIT, events) && |s.log| == 1 && s.actors.Keys == {1, 2} && s.stored.Keys == {1} &&
      s.seen.Keys == {1, 2}
    ensures s.head.Some? && s.head.value.manifest.schema == TheSchema(1) && s.head.value.manifest.nextSeq == 1
    ensures s.actors[2] == CompactDecided(0, s.head.value, 1)
  {
    hide Step, LiveOf, Run, Retain, EmptyShards, Holds, SegmentNames, WalNames, GuardedRun;
    var s1 := FirstWrite(p);
    var built := NewJobOf(s1).(built := EmptyShards(1));
    BuildsNothing(p, s1);
    var s3 := Become(s1, 2, CompactBuilding(built));
    s := FoldRun(p, s3, 2, built, 2);
    assert s3.actors[2 := s.actors[2]] == s1.actors[2 := s.actors[2]];
    var e1, e2 := WriteEvents(1, FirstCall(1), 1, 1), [CompactReload(2), CompactCas(2, 2)];
    events := e1 + (LoadEvents(2) + PutEvents(2, 0, 1)) + e2;
    RunConcat(p, INIT, e1, LoadEvents(2) + PutEvents(2, 0, 1));
    RunConcat(p, INIT, e1 + (LoadEvents(2) + PutEvents(2, 0, 1)), e2);
  }

  lemma BuildsNothing(p: Params, s: State)
    requires Calm(s, 1, [Delete(THE_ID)]) && s.actors.Keys == {1}
    requires ManifestOf(s.head).wal != [] && LiveOf(s.objects, ManifestOf(s.head)) == map[]
    requires Holds(s.objects, SegmentNames(ManifestOf(s.head).shards)) &&
      Holds(s.objects, WalNames(ManifestOf(s.head).wal))
    ensures Run(p, s, LoadEvents(2) + PutEvents(2, 0, 1)) ==
      Become(s, 2, CompactBuilding(NewJobOf(s).(built := EmptyShards(1))))
  {
    hide Step, LiveOf, Run, EmptyShards, Holds, SegmentNames, WalNames;
    LoadRun(p, s, 2);
    var job := NewJobOf(s);
    var s2 := Become(s, 2, CompactBuilding(job));
    NoEmptyShards();
    EmptyPutsRun(p, s2, 2, 0, 1, job);
    var built := CompactBuilding(job.(built := EmptyShards(1)));
    assert s2.actors[2 := built] == s.actors[2 := built];
    RunConcat(p, s, LoadEvents(2), PutEvents(2, 0, 1));
  }

  lemma NoEmptyShards()
    ensures EmptyShards(0) == []
  {
  }

  /** No load is needed for that: the slow reply to a compaction's own CAS hides a write that the handle was
      acknowledged before it arrived. */
  lemma LateFoldHidesOwnWrite(p: Params) returns (events: seq<Event>)
    ensures var s, t := Run(p, INIT, events), Run(p, INIT, events + [CasReply(2, false)]);
      && 2 in s.actors && s.actors[2].CompactDecided? && s.actors[2].handle == 0
      && Done(s, 4) && s.actors[4].call.handle == 0 && s.actors[4].outcome == Acked(1)
      && Visible(s, 0, 1) && !Visible(t, 0, 1)
  {
    hide Step, PrepareCall, Run;
    var e1, s1 := SlowFold(p);
    GetRun(p, s1, 3);
    var s2 := Become(s1, 3, ReadPending(0, s1.head.value));
    RememberRun(p, s2, 3);
    var s3 := Become(Remember(s2, 0, s1.head), 3, Dead);
    NextPrepares(p, s3.head, 1, Delete(THE_ID));
    var e4 := WriteEvents(4, NextCall(Delete(THE_ID)), 4, 4);
    var s4 := WriteRun(p, s3, 4, NextCall(Delete(THE_ID)), 4, 4, TheSchema(1), [Delete(THE_ID)]);
    events := e1 + [ReaderGet(3, 0)] + [ReaderRemember(3)] + e4;
    RunConcat(p, INIT, e1, [ReaderGet(3, 0)]);
    RunConcat(p, INIT, e1 + [ReaderGet(3, 0)], [ReaderRemember(3)]);
    RunConcat(p, INIT, e1 + [ReaderGet(3, 0)] + [ReaderRemember(3)], e4);
    RunConcat(p, INIT, events, [CasReply(2, false)]);
    ReplyRun(p, s4, s1.head.value);
  }

  lemma ReplyRun(p: Params, s: State, got: Versioned)
    requires 2 in s.actors && s.actors[2] == CompactDecided(0, got, 1)
    ensures Run(p, s, [CasReply(2, false)]) == Become(Remember(s, 0, Some(got)), 2, CompactDone(Compacted(1)))
  {
    RunOne(p, s, CasReply(2, false));
  }

  lemma GetRun(p: Params, s: State, a: Actor)
    requires a !in s.actors && s.head.Some?
    ensures Run(p, s, [ReaderGet(a, 0)]) == Become(s, a, ReadPending(0, s.head.value))
  {
    RunOne(p, s, ReaderGet(a, 0));
  }

  lemma RememberRun(p: Params, s: State, a: Actor)
    requires a in s.actors && s.actors[a].ReadPending? && s.actors[a].handle == 0
    ensures Run(p, s, [ReaderRemember(a)]) == Become(Remember(s, 0, Some(s.actors[a].got)), a, Dead)
  {
    RunOne(p, s, ReaderRemember(a));
  }

  // ------------------------------------------------------------ reading an older manifest

  /** A reader holds the manifest of the first write. */
  lemma ReaderHolds(p: Params) returns (events: seq<Event>, s: State)
    ensures s == Run(p, INIT, events) && NoCompactCas(events) && Calm(s, 1, [Delete(THE_ID)])
    ensures s.actors.Keys == {1, 3} && s.stored.Keys == {1} && s.seen.Keys == {1} && s.clock == 0 &&
      s.objects[1].putAt == 0
    ensures 5 in s.snapshots && s.head == Some(s.snapshots[5]) && ManifestOf(s.head).wal != [] &&
      1 in Referenced(ManifestOf(s.head))
    ensures Holds(s.objects, SegmentNames(ManifestOf(s.head).shards)) &&
      Holds(s.objects, WalNames(ManifestOf(s.head).wal))
    ensures LiveOf(s.objects, ManifestOf(s.head)) == map[]
  {
    hide Step, LiveOf, Run, Holds, Flat;
    var s1 := FirstWrite(p);
    FirstWriteNames(p, s1);
    var s2 := Become(s1, 3, ReadPending(5, s1.head.value));
    s := Become(Remember(s2, 5, s1.head), 3, Dead);
    ReaderSteps(p, s1, s2, s);
    RunTwo(p, s1, ReaderGet(3, 5), ReaderRemember(3));
    events := WriteEvents(1, FirstCall(1), 1, 1) + [ReaderGet(3, 5), ReaderRemember(3)];
    RunConcat(p, INIT, WriteEvents(1, FirstCall(1), 1, 1), [ReaderGet(3, 5), ReaderRemember(3)]);
  }

  lemma FirstWriteNames(p: Params, s: State)
    requires s == Run(p, INIT, WriteEvents(1, FirstCall(1), 1, 1))
    ensures 1 in Referenced(ManifestOf(s.head)) && s.clock == 0 && 1 in s.objects && s.objects[1].putAt == 0
  {
    hide Step, PrepareCall, Run;
    FirstPrepares(p, 1);
    var t := WriteRun(p, INIT, 1, FirstCall(1), 1, 1, TheSchema(1), [Delete(THE_ID)]);
    NextReferenced(p, EMPTY_MANIFEST, 1, [Delete(THE_ID)], TheSchema(1));
  }

  lemma ReaderSteps(p: Params, s1: State, s2: State, s3: State)
    requires s1.head.Some? && s1.actors.Keys == {1} && s2 == Become(s1, 3, ReadPending(5, s1.head.value))
    requires s3 == Become(Remember(s2, 5, s1.head), 3, Dead)
    ensures Step(p, s1, ReaderGet(3, 5)) == s2 && Step(p, s2, ReaderRemember(3)) == s3
  {
  }

  /** Meanwhile a compaction folds that write's WAL object in. */
  lemma HeldWhileFolded(p: Params) returns (events: seq<Event>, s: State)
    ensures s == Run(p, INIT, events) && GuardedRun(p, INIT, events) && s.clock == 0 && 4 !in s.actors
    ensures 5 in s.snapshots && 1 in Referenced(s.snapshots[5].manifest) && Referenced(ManifestOf(s.head)) == {}
    ensures 1 in s.objects && s.objects[1].putAt == 0
  {
    hide Step, LiveOf, Run, GuardedRun, Holds, CompactedBy, Referenced, SegmentNames, WalNames, NewJobOf;
    var e1, s1 := ReaderHolds(p);
    s := CalmCompact(p, s1, 2, 2, 1, [Delete(THE_ID)]);
    FoldedAway(p, s1, s, ManifestOf(s1.head));
    assert 5 in s1.snapshots - {0};
    events := e1 + CompactEvents(2, 1, 2);
    RunConcat(p, INIT, e1, CompactEvents(2, 1, 2));
    PlainIsGuarded(p, INIT, e1);
    GuardedConcat(p, INIT, e1, CompactEvents(2, 1, 2));
  }

  lemma FoldedAway(p: Params, s: State, t: State, m: Manifest)
    requires m == ManifestOf(s.head) && CompactedBy(s, t, 2, NewJobOf(s).(built := EmptyShards(1)), 2)
    ensures Referenced(ManifestOf(t.head)) == {} && t.snapshots - {0} == s.snapshots - {0} && t.objects == s.objects &&
      t.clock == s.clock
    ensures t.actors.Keys == s.actors.Keys + {2}
  {
    hide LiveOf;
    RetainNone(m.wal);
    assert EmptyShards(1) == EmptyShards(0) + [EMPTY_SHARD] && EmptyShards(0) == [];
    EmptyShardsNameNothing(1);
    assert IndexNames(EmptyShards(1)) == [] + IndexNames(EmptyShards(1)[1..]);
  }

  lemma Sweeps(p: Params, s: State)
    requires 4 !in s.actors && s.clock == p.grace && Referenced(ManifestOf(s.head)) == {} && 1 in s.objects &&
      s.objects[1].putAt == 0
    ensures var t := Run(p, s, [GcLoad(4, 0), GcCutoff(4)] + [GcDelete(4, 1)]);
      1 !in t.objects && t.snapshots - {0} == s.snapshots - {0}
  {
    hide Referenced, Run, DoGcLoad, DoGcCutoff, DoGcDelete;
    RunTwo(p, s, GcLoad(4, 0), GcCutoff(4));
    var t := Step(p, Step(p, s, GcLoad(4, 0)), GcCutoff(4));
    RunConcat(p, s, [GcLoad(4, 0), GcCutoff(4)], [GcDelete(4, 1)]);
    RunOne(p, t, GcDelete(4, 1));
    SweepSteps(p, s);
  }

  lemma SweepSteps(p: Params, s: State)
    requires 4 !in s.actors && s.clock == p.grace && Referenced(ManifestOf(s.head)) == {} && 1 in s.objects &&
      s.objects[1].putAt == 0
    ensures var t := DoGcCutoff(p, DoGcLoad(s, 4, 0), 4);
      var u := DoGcDelete(t, 4, 1);
      1 !in u.objects && u.snapshots - {0} == s.snapshots - {0}
  {
    hide Referenced;
    var s1 := Become(Remember(s, 0, s.head), 4, GcLoaded({}, s.clock));
    assert DoGcLoad(s, 4, 0) == s1;
    var s2 := Become(s1, 4, GcSweeping({}, s.clock, 0));
    assert DoGcCutoff(p, s1, 4) == s2;
    assert DoGcDelete(s2, 4, 1) == s2.(objects := s2.objects - {1});
  }

  /** However long the grace, it does not protect a reader that still holds an older manifest: in some run an
      object that its manifest names is gone. */
  lemma OldManifestsLoseObjects(p: Params) returns (events: seq<Event>)
    ensures GuardedRun(p, INIT, events)
    ensures var s := Run(p, INIT, events); 5 in s.snapshots && exists n ::
      Names(s.snapshots[5].manifest, n) && n !in s.objects
  {
    hide Step, Run, GuardedRun, Referenced;
    var e1, s1 := HeldWhileFolded(p);
    TicksRun(p, s1, p.grace);
    var s2 := s1.(clock := p.grace);
    Sweeps(p, s2);
    var e3 := [GcLoad(4, 0), GcCutoff(4)] + [GcDelete(4, 1)];
    events := e1 + Ticks(p.grace) + e3;
    RunConcat(p, INIT, e1, Ticks(p.grace));
    RunConcat(p, INIT, e1 + Ticks(p.grace), e3);
    TicksArePlain(p.grace);
    PlainIsGuarded(p, s1, Ticks(p.grace) + e3);
    GuardedConcat(p, INIT, e1, Ticks(p.grace) + e3);
    assert e1 + (Ticks(p.grace) + e3) == events;
    var t := Run(p, INIT, events);
    assert 5 in t.snapshots - {0} && t.snapshots[5] == s1.snapshots[5];
    ReferencedIsNamed(t.snapshots[5].manifest, 1);
    assert Names(t.snapshots[5].manifest, 1) && 1 !in t.objects;
  }

  lemma {:induction false} TicksArePlain(n: nat)
    ensures NoCompactCas(Ticks(n))
    decreases n
  {
    if n > 0 {
      TicksArePlain(n - 1);
    }
  }
}
