/** What a run means to its callers: acknowledgements, sequence numbers, lost races. */
module Runs {
  import opened Wrappers
  import opened Schemas
  import opened Protocol
  import opened Safety

  lemma {:induction false} RunConcat(p: Params, s: State, a: seq<Event>, b: seq<Event>)
    ensures Run(p, s, a + b) == Run(p, Run(p, s, a), b)
    decreases |a|
  {
    hide Step;
    if a == [] {
      assert a + b == b;
    } else {
      assert (a + b)[0] == a[0] && (a + b)[1..] == a[1..] + b;
      RunConcat(p, Step(p, s, a[0]), a[1..], b);
    }
  }

  lemma RunOne(p: Params, s: State, e: Event)
    ensures Run(p, s, [e]) == Step(p, s, e)
  {
    hide Step;
    assert [e][1..] == [];
    assert Run(p, Step(p, s, e), [e][1..]) == Step(p, s, e);
  }

  lemma RunTwo(p: Params, s: State, a: Event, b: Event)
    ensures Run(p, s, [a, b]) == Step(p, Step(p, s, a), b)
  {
    hide Step;
    assert [a, b][1..] == [b] && [b][1..] == [];
    assert Run(p, Step(p, s, a), [b]) == Run(p, Step(p, Step(p, s, a), b), []);
  }

  lemma {:induction false} GuardedConcat(p: Params, s: State, a: seq<Event>, b: seq<Event>)
    ensures GuardedRun(p, s, a + b) <==> GuardedRun(p, s, a) && GuardedRun(p, Run(p, s, a), b)
    decreases |a|
  {
    hide Step, Guarded;
    if a == [] {
      assert a + b == b;
    } else {
      assert (a + b)[0] == a[0] && (a + b)[1..] == a[1..] + b;
      GuardedConcat(p, Step(p, s, a[0]), a[1..], b);
    }
  }

  // ------------------------------------------------------------ nothing committed is ever undone

  lemma WriterPutLater(p: Params, s: State, a: Actor, name: Name)
    ensures Later(s, DoWriterPut(p, s, a, name)) && DoneStays(s, DoWriterPut(p, s, a, name))
  {
    hide PrepareCall;
    assert s.log[..|s.log|] == s.log && s.epochs[..|s.epochs|] == s.epochs;
  }

  /** Appending to the log and to the compactions, keeping every published manifest. */
  lemma PublishLater(s: State, t: State, a: Actor, m: Manifest, token: Token, commits: seq<Commit>, epochs: seq<Epoch>)
    requires TokenFits(s, token, m)
    requires t == Publish(s, m, token).(log := s.log + commits, epochs := s.epochs + epochs, snapshots := t.snapshots,
      actors := t.actors)
    requires a in t.actors && t.actors == s.actors[a := t.actors[a]] && Movable(s, a, t.actors[a])
    ensures Later(s, t) && DoneStays(s, t)
  {
    assert t.log[..|s.log|] == s.log && t.epochs[..|s.epochs|] == s.epochs;
  }

  lemma ForgetLater(s: State, t: State, a: Actor)
    requires t == s.(snapshots := t.snapshots, actors := t.actors)
    requires a in t.actors && t.actors == s.actors[a := t.actors[a]] && Movable(s, a, t.actors[a])
    ensures Later(s, t) && DoneStays(s, t)
  {
    SelfLater(s);
  }

  lemma WriterCasLater(p: Params, s: State, a: Actor, token: Token)
    ensures Later(s, DoWriterCas(p, s, a, token)) && DoneStays(s, DoWriterCas(p, s, a, token))
  {
    hide NextManifest, Later, DoneStays;
    SelfLater(s);
    var t := DoWriterCas(p, s, a, token);
    if t != s {
      var ph := s.actors[a];
      if Unchanged(s.head, ph.base) {
        assert s.epochs + [] == s.epochs;
        var m := NextManifest(p, ManifestOf(ph.base), ph.name, ph.batch, ph.schema);
        PublishLater(s, t, a, m, token, [Commit(a, ph.name, ph.batch)], []);
      } else {
        ForgetLater(s, t, a);
      }
    }
  }

  lemma LocalLater(s: State, t: State, a: Actor)
    requires OneMoves(s, t, a)
    ensures Later(s, t) && DoneStays(s, t)
  {
    assert s.log[..|s.log|] == s.log && s.epochs[..|s.epochs|] == s.epochs;
  }

  lemma PutLater(p: Params, s: State, a: Actor, segment: Name, index: seq<Name>)
    ensures Later(s, DoCompactPut(p, s, a, segment, index)) && DoneStays(s, DoCompactPut(p, s, a, segment, index))
  {
    hide NextBucket;
    assert s.log[..|s.log|] == s.log && s.epochs[..|s.epochs|] == s.epochs;
  }

  lemma CompactCasLater(p: Params, s: State, a: Actor, token: Token)
    ensures Later(s, DoCompactCas(p, s, a, token)) && DoneStays(s, DoCompactCas(p, s, a, token))
  {
    hide Folded, Later, DoneStays, DoCompactCas;
    SelfLater(s);
    var t := DoCompactCas(p, s, a, token);
    if t != s {
      CompactCasActs(p, s, a, token);
      CompactCasForms(p, s, a, token);
      var job, current := s.actors[a].job, s.actors[a].current;
      if Unchanged(s.head, current) {
        assert s.log + [] == s.log;
        var m := Folded(ManifestOf(current), job);
        PublishLater(s, t, a, m, token, [], [Epoch(Some(a), m.shards, Start(m), job.upTo)]);
      } else {
        ForgetLater(s, t, a);
      }
    }
  }

  /** No step rewrites history or a finished call, guarded or not. */
  lemma StepLater(p: Params, s: State, e: Event)
    ensures Later(s, Step(p, s, e)) && DoneStays(s, Step(p, s, e))
  {
    hide DoWriterPut, DoWriterCas, DoCompactPut, DoCompactCas, NothingToDo, Holds, LiveOf, Referenced, ManifestOf,
        Become, Remember, Later, DoneStays, OneMoves;
    SelfLater(s);
    var t := Step(p, s, e);
    match e
    case Tick => WorldLater(s, t);
    case GcDelete(_, _) => WorldLater(s, t);
    case WriterPut(a, name) => WriterPutLater(p, s, a, name);
    case WriterCas(a, token) => WriterCasLater(p, s, a, token);
    case CompactPut(a, segment, index) => PutLater(p, s, a, segment, index);
    case CompactCas(a, token) => CompactCasLater(p, s, a, token);
    case _ =>
      MovesOneActor(p, s, e);
      LocalLater(s, t, e.a);
  }

  /** A step that touches snapshots and one unfinished actor at most. */
  predicate OneMoves(s: State, t: State, a: Actor) {
    && t == s.(snapshots := t.snapshots, actors := t.actors)
    && (t.actors == s.actors ||
        (a in t.actors && t.actors == s.actors[a := t.actors[a]] && Movable(s, a, t.actors[a])))
  }

  lemma ReaderMoves(s: State, a: Actor, h: Handle, call: Call)
    ensures OneMoves(s, DoCrash(s, a), a) && OneMoves(s, DoBeginWrite(s, a, call), a) &&
      OneMoves(s, DoWriterLoad(s, a), a)
    ensures OneMoves(s, DoReaderGet(s, a, h), a) && OneMoves(s, DoReaderRemember(s, a), a)
  {
    ReplyMoves(s, a, true);
  }

  lemma ReplyMoves(s: State, a: Actor, lost: bool)
    ensures OneMoves(s, DoCasReply(s, a, lost), a)
  {
  }

  predicate AtRest(phase: Phase) {
    phase.WriteDone? || phase.WriteStart? || phase.CompactDone? || phase.Dead?
  }

  lemma CasReplyEnds(s: State, a: Actor, lost: bool)
    ensures var t := DoCasReply(s, a, lost); t == s || (a in t.actors && AtRest(t.actors[a]))
  {
  }

  /** After a reply or a crash the actor is done, gone, or at the start of its next attempt. */
  lemma ReplyEnds(p: Params, s: State, e: Event)
    requires e.CasReply? || e.Crash?
    ensures var t := Step(p, s, e); t == s || (e.a in t.actors && AtRest(t.actors[e.a]))
  {
    hide DoWriterPut, DoWriterCas, DoWriterLoad, DoBeginCompact, DoCompactRead, DoCompactPut, DoCompactReload,
        DoCompactCas,
      DoGcLoad, DoGcCutoff, DoGcDelete, DoBeginWrite, DoReaderGet, DoReaderRemember, DoCasReply;
    CasReplyEnds(s, e.a, e.Crash? || e.lost);
  }

  lemma MoveIsOne(s: State, h: Handle, v: Option<Versioned>, a: Actor, phase: Phase)
    requires Movable(s, a, phase)
    ensures OneMoves(s, Become(Remember(s, h, v), a, phase), a)
  {
  }

  lemma CompactorMoves(s: State, a: Actor, h: Handle, build: bool)
    ensures OneMoves(s, DoBeginCompact(s, a, h, build), a) && OneMoves(s, DoCompactRead(s, a), a)
    ensures OneMoves(s, DoCompactReload(s, a), a)
  {
    hide NothingToDo, Holds, LiveOf, ManifestOf, Become, Remember, OneMoves;
    StayIsOne(s, a);
    var begun, read, reloaded := DoBeginCompact(s, a, h, build), DoCompactRead(s, a), DoCompactReload(s, a);
    if a !in s.actors {
      var m := ManifestOf(s.head);
      MoveIsOne(s, h, s.head, a, if NothingToDo(m, build) then CompactDone(Nothing)
          else CompactBased(h, build, m, |s.epochs|));
    } else if s.actors[a].CompactBased? {
      var ph, m := s.actors[a], ManifestOf(s.head);
      MoveIsOne(s, ph.handle, s.head, a, CompactDone(Unreadable));
      MoveIsOne(s, ph.handle, s.head, a, CompactBuilding(
        Job(ph.handle, ph.build, ph.loaded, ph.epoch, LiveOf(s.objects, m), |s.log|, [], None, 1)));
    } else if s.actors[a].CompactBuilding? {
      var job := s.actors[a].job;
      MoveIsOne(s, job.handle, s.head, a, CompactDone(Stale));
      MoveIsOne(s, job.handle, s.head, a, CompactReloaded(job, s.head));
    }
  }

  lemma StayIsOne(s: State, a: Actor)
    ensures OneMoves(s, s, a)
  {
  }

  lemma CollectorMoves(p: Params, s: State, a: Actor, h: Handle)
    ensures OneMoves(s, DoGcLoad(s, a, h), a) && OneMoves(s, DoGcCutoff(p, s, a), a)
  {
    hide Referenced;
  }

  lemma MovesOneActor(p: Params, s: State, e: Event)
    requires !e.Tick? && !e.GcDelete? && !e.WriterPut? && !e.WriterCas? && !e.CompactPut? && !e.CompactCas?
    ensures OneMoves(s, Step(p, s, e), e.a)
  {
    hide OneMoves, DoCrash, DoCasReply, DoBeginWrite, DoWriterLoad, DoReaderGet, DoReaderRemember, DoBeginCompact,
        DoCompactRead, DoCompactReload, DoGcLoad, DoGcCutoff;
    var h := if e.ReaderGet? || e.BeginCompact? || e.GcLoad? then e.h else 0;
    var call := if e.BeginWrite? then e.call else Call(0, [], EMPTY_CONFIG);
    ReaderMoves(s, e.a, h, call);
    CompactorMoves(s, e.a, h, e.BeginCompact? && e.build);
    CollectorMoves(p, s, e.a, h);
    ReplyMoves(s, e.a, e.CasReply? && e.lost);
  }

  lemma WorldLater(s: State, t: State)
    requires t == s.(clock := t.clock, objects := t.objects)
    ensures Later(s, t) && DoneStays(s, t)
  {
    assert s.log[..|s.log|] == s.log && s.epochs[..|s.epochs|] == s.epochs;
  }

  lemma LaterTransitive(s: State, t: State, u: State)
    requires Later(s, t) && Later(t, u) && DoneStays(s, t) && DoneStays(t, u)
    ensures Later(s, u) && DoneStays(s, u)
  {
    assert u.log[..|s.log|] == u.log[..|t.log|][..|s.log|];
    assert u.epochs[..|s.epochs|] == u.epochs[..|t.epochs|][..|s.epochs|];
  }

  /** Commits are durable: whatever happens next, the log only grows at its end. */
  lemma {:induction false} RunLater(p: Params, s: State, events: seq<Event>)
    ensures Later(s, Run(p, s, events)) && DoneStays(s, Run(p, s, events))
    decreases |events|
  {
    hide Step, Later, DoneStays;
    if events == [] {
      assert Later(s, s) && DoneStays(s, s) by { SelfLater(s); }
    } else {
      var t := Step(p, s, events[0]);
      StepLater(p, s, events[0]);
      RunLater(p, t, events[1..]);
      LaterTransitive(s, t, Run(p, t, events[1..]));
    }
  }

  /** An object once PUT stays as it is until it is deleted, and never comes back. */
  predicate NoneBack(s: State, t: State) {
    forall n | n in s.stored ::
      n in t.stored && (n in t.objects ==> n in s.objects && t.objects[n] == s.objects[n])
  }

  lemma PutsNoneBack(p: Params, s: State, a: Actor, name: Name, index: seq<Name>)
    ensures NoneBack(s, DoWriterPut(p, s, a, name)) && NoneBack(s, DoCompactPut(p, s, a, name, index))
  {
    hide PrepareCall, NextBucket;
  }

  lemma StepNoneBack(p: Params, s: State, e: Event)
    ensures NoneBack(s, Step(p, s, e))
  {
    hide DoWriterPut, DoCompactPut, NextManifest, Folded, TokenFits, Unchanged, InTime;
    match e
    case Tick =>
    case GcDelete(_, _) =>
    case WriterPut(a, name) => PutsNoneBack(p, s, a, name, []);
    case CompactPut(a, segment, index) => PutsNoneBack(p, s, a, segment, index);
    case WriterCas(_, _) =>
    case CompactCas(_, _) =>
    case _ => MovesOneActor(p, s, e);
  }

  lemma {:induction false} RunNoneBack(p: Params, s: State, events: seq<Event>)
    ensures NoneBack(s, Run(p, s, events))
    decreases |events|
  {
    hide Step;
    if events != [] {
      StepNoneBack(p, s, events[0]);
      RunNoneBack(p, Step(p, s, events[0]), events[1..]);
    }
  }

  lemma SelfLater(s: State)
    ensures Later(s, s) && DoneStays(s, s)
  {
    assert s.log[..|s.log|] == s.log && s.epochs[..|s.epochs|] == s.epochs;
  }

  // ------------------------------------------------------------ acknowledgements

  predicate Done(s: State, a: Actor) {
    a in s.actors && s.actors[a].WriteDone?
  }

  /** Which commit of the log is this call's, if any. */
  predicate Committed(s: State, a: Actor, q: nat) {
    q < |s.log| && s.log[q].call == a
  }

  /** An acknowledged write is in the log of every later state, at the sequence number it was told,
      holding its own records as absorbed against a manifest that was really published, and was published with
      the schema they were absorbed under. */
  lemma AckedIsDurable(p: Params, events: seq<Event>, later: seq<Event>, a: Actor)
    requires GuardedRun(p, INIT, events)
    requires Done(Run(p, INIT, events), a) && Run(p, INIT, events).actors[a].outcome.Acked?
    ensures var s, t := Run(p, INIT, events), Run(p, INIT, events + later);
      var q := s.actors[a].outcome.seqno;
      && Committed(s, a, q) && Committed(t, a, q) && t.log[q] == s.log[q]
      && CommittedAt(p, t, a, s.actors[a].call, q)
  {
    hide Step, PrepareCall, Inv;
    var s := Run(p, INIT, events);
    InitInv(p);
    RunKeeps(p, INIT, events);
    PhaseFact(p, s, a);
    RunConcat(p, INIT, events, later);
    RunLater(p, s, later);
    var t := Run(p, s, later);
    var q := s.actors[a].outcome.seqno;
    assert t.log[q] == t.log[..|s.log|][q];
    CommittedLater(p, s, t, a, s.actors[a].call, q);
  }

  /** A call commits at most once; a rejected or contended call never does; and two acknowledgements
      never share a sequence number. */
  lemma CommitsAtMostOnce(p: Params, events: seq<Event>, a: Actor, i: nat, j: nat)
    requires GuardedRun(p, INIT, events)
    requires Committed(Run(p, INIT, events), a, i)
    ensures Committed(Run(p, INIT, events), a, j) ==> i == j
    ensures Done(Run(p, INIT, events), a) ==>
              var o := Run(p, INIT, events).actors[a].outcome; o == Acked(i) || o == Unknown
  {
    hide Step, Inv, PrepareCall;
    var s := Run(p, INIT, events);
    InitInv(p);
    RunKeeps(p, INIT, events);
    StoreFacts(p, s);
    assert CommitOk(s, i);
    if Committed(s, a, j) {
      assert CommitOk(s, j);
    }
    PhaseFact(p, s, a);
  }

  /** Sequence numbers follow real time: a call whose commit came after another's acknowledgement, as every
      call's that had not begun by then, gets a larger one. */
  lemma SequenceNumbersIncrease(p: Params, events: seq<Event>, later: seq<Event>, a: Actor, b: Actor)
    requires GuardedRun(p, INIT, events + later)
    requires Done(Run(p, INIT, events), a) && Run(p, INIT, events).actors[a].outcome.Acked?
    requires forall q: nat :: !Committed(Run(p, INIT, events), b, q)
    requires Done(Run(p, INIT, events + later), b) && Run(p, INIT, events + later).actors[b].outcome.Acked?
    ensures Run(p, INIT, events).actors[a].outcome.seqno < Run(p, INIT, events + later).actors[b].outcome.seqno
  {
    hide Step, Inv, PrepareCall, Guarded;
    var s, t := Run(p, INIT, events), Run(p, INIT, events + later);
    GuardedConcat(p, INIT, events, later);
    InitInv(p);
    RunKeeps(p, INIT, events);
    RunKeeps(p, INIT, events + later);
    RunConcat(p, INIT, events, later);
    RunLater(p, s, later);
    PhaseFact(p, s, a);
    PhaseFact(p, t, b);
    var q := t.actors[b].outcome.seqno;
    forall r: nat | r < |s.log| ensures t.log[r].call != b {
      assert t.log[r] == t.log[..|s.log|][r];
      assert !Committed(s, b, r);
    }
  }

  /** A call whose actor had not begun has not committed. */
  lemma NotBegunNotCommitted(p: Params, events: seq<Event>, b: Actor)
    requires GuardedRun(p, INIT, events) && b !in Run(p, INIT, events).actors
    ensures forall q: nat :: !Committed(Run(p, INIT, events), b, q)
  {
    hide Step, Inv;
    var s := Run(p, INIT, events);
    InitInv(p);
    RunKeeps(p, INIT, events);
    StoreFacts(p, s);
    forall q: nat ensures !Committed(s, b, q) {
      if q < |s.log| {
        assert CommitOk(s, q);
      }
    }
  }

  /** A compaction that loses the race changes nothing but its own state: it checks for staleness again, or after its
      hundredth attempt gives up. */
  lemma LostFoldChangesNothing(p: Params, s: State, a: Actor, token: Token)
    requires a in s.actors && s.actors[a].CompactReloaded? && !Unchanged(s.head, s.actors[a].current)
    requires var first := s.actors[a].job.firstPut; first.Some? ==> InTime(p, s, first.value)
    ensures var job := s.actors[a].job;
      DoCompactCas(p, s, a, token) == s.(actors := s.actors[a :=
        if job.attempt >= 100 then CompactDone(Lost) else CompactBuilding(job.(attempt := job.attempt + 1))])
  {
    hide Folded;
  }

  /** A writer that loses the race leaves the store, the manifest and the history as they were; when it learns
      so, it only forgets its snapshot and tries again, or after its hundredth attempt gives up. */
  lemma LostRaceChangesNothing(p: Params, s: State, a: Actor, token: Token)
    requires a in s.actors && s.actors[a].WriteStored? && !Unchanged(s.head, s.actors[a].base)
    requires s.actors[a].name in s.stored && InTime(p, s, s.stored[s.actors[a].name].putAt)
    ensures var t := DoWriterCas(p, s, a, token);
      && t == s.(actors := s.actors[a := WriteDecided(s.actors[a].call, s.actors[a].attempt, None)])
      && var u := DoCasReply(t, a, false);
         && u == s.(snapshots := s.snapshots - {s.actors[a].call.handle}, actors := u.actors)
         && LiveOf(u.stored, ManifestOf(u.head)) == LiveOf(s.stored, ManifestOf(s.head))
         && a in u.actors && u.actors[a] == (
              if s.actors[a].attempt >= 100 then WriteDone(s.actors[a].call, Contended, None)
              else WriteStart(s.actors[a].call, s.actors[a].attempt + 1))
  {
    hide PrepareCall, LiveOf;
  }
}
