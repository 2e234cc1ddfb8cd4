/** The commit call as the source writes it: a loop of requests to a bucket that
    others use at the same time. It is proved to be a run of the protocol (src/store.rs). */
module Namespaces {
  import opened Wrappers
  import opened Records
  import opened Schemas
  import opened Protocol
  import opened Safety
  import opened Runs

  // ------------------------------------------------------------ what others do meanwhile

  predicate Others(me: Actor, events: seq<Event>) {
    forall i | 0 <= i < |events| :: events[i].Tick? || events[i].a != me
  }

  /** Between two requests of this call others act, and the deadline from PUT to CAS is met. */
  ghost predicate Timely(p: Params, me: Actor, before: nat -> seq<Event>) {
    forall i :: Others(me, before(i)) && CountTicks(before(i)) <= p.maxCommit
  }

  /** A new object name, and a version token, is one never used before. */
  ghost predicate Fresh(newName: map<Name, Object> -> Name, newToken: map<Token, Manifest> -> Token) {
    (forall m :: newName(m) !in m) && (forall m :: newToken(m) !in m)
  }

  function CountTicks(events: seq<Event>): nat {
    if events == [] then 0 else (if events[0].Tick? then 1 else 0) + CountTicks(events[1..])
  }

  predicate SameActor(s: State, t: State, me: Actor) {
    (me in t.actors <==> me in s.actors) && (me in s.actors ==> t.actors[me] == s.actors[me])
  }

  lemma CasElsewhere(p: Params, s: State, a: Actor, token: Token, me: Actor)
    requires a != me
    ensures SameActor(s, DoWriterCas(p, s, a, token), me) && DoWriterCas(p, s, a, token).clock == s.clock
    ensures SameActor(s, DoCompactCas(p, s, a, token), me) && DoCompactCas(p, s, a, token).clock == s.clock
  {
    hide NextManifest, Folded;
  }

  lemma PutElsewhere(p: Params, s: State, a: Actor, name: Name, index: seq<Name>, me: Actor)
    requires a != me
    ensures SameActor(s, DoWriterPut(p, s, a, name), me) && DoWriterPut(p, s, a, name).clock == s.clock
    ensures SameActor(s, DoCompactPut(p, s, a, name, index), me) && DoCompactPut(p, s, a, name, index).clock == s.clock
  {
    hide PrepareCall, NextBucket, FreshNames, ShardObjects;
  }

  lemma StepElsewhere(p: Params, s: State, e: Event, me: Actor)
    requires e.Tick? || e.a != me
    ensures SameActor(s, Step(p, s, e), me)
    ensures Step(p, s, e).clock == s.clock + if e.Tick? then 1 else 0
  {
    hide DoWriterPut, DoWriterCas, DoWriterLoad, DoBeginCompact, DoCompactRead, DoCompactPut, DoCompactReload,
        DoCompactCas, DoGcLoad, DoGcCutoff, DoCasReply, DoCrash;
    if e.WriterCas? {
      CasElsewhere(p, s, e.a, e.token, me);
    } else if e.CompactCas? {
      CasElsewhere(p, s, e.a, e.token, me);
    } else if e.WriterPut? {
      PutElsewhere(p, s, e.a, e.name, [], me);
    } else if e.CompactPut? {
      PutElsewhere(p, s, e.a, e.segment, e.index, me);
    } else if !e.Tick? && !e.GcDelete? {
      MovesOneActor(p, s, e);
    }
  }

  lemma {:induction false} RunElsewhere(p: Params, s: State, events: seq<Event>, me: Actor)
    requires Others(me, events)
    ensures SameActor(s, Run(p, s, events), me)
    ensures Run(p, s, events).clock == s.clock + CountTicks(events)
    decreases |events|
  {
    hide Step;
    if events != [] {
      StepElsewhere(p, s, events[0], me);
      assert Others(me, events[1..]) by {
        forall i | 0 <= i < |events[1..]| ensures events[1..][i].Tick? || events[1..][i].a != me {
          assert events[1..][i] == events[i + 1];
        }
      }
      RunElsewhere(p, Step(p, s, events[0]), events[1..], me);
    }
  }

  /** A call that has ended does nothing more. */
  lemma DeadStep(p: Params, s: State, e: Event, a: Actor)
    requires a in s.actors && s.actors[a] == Dead
    ensures a in Step(p, s, e).actors && Step(p, s, e).actors[a] == Dead
  {
    hide PrepareCall, NextBucket, Folded, NextManifest, LiveOf, Holds, Referenced, NothingToDo;
    if e.Tick? || e.a != a {
      StepElsewhere(p, s, e, a);
    }
  }

  lemma {:induction false} DeadStays(p: Params, s: State, events: seq<Event>, a: Actor)
    requires a in s.actors && s.actors[a] == Dead
    ensures a in Run(p, s, events).actors && Run(p, s, events).actors[a] == Dead
    decreases |events|
  {
    hide Step;
    if events != [] {
      DeadStep(p, s, events[0], a);
      DeadStays(p, Step(p, s, events[0]), events[1..], a);
    }
  }

  // ------------------------------------------------------------ the bucket

  /** What becomes of a request: it is answered, or it fails without any effect, or it takes effect and its reply
      is lost. The caller sees the same error for the last two. */
  datatype Fault = Fine | Failed | ReplyLost

  ghost predicate Faulty(faults: nat -> Fault) {
    exists i: nat :: faults(i) != Fine
  }

  datatype CommitError = Refused(error: SchemaError) | Contention | StoreFailed

  /** The shared store. `st` also carries where every call stands, and the history. */
  class Bucket {
    const p: Params
    var st: State

    constructor (p: Params)
      ensures this.p == p && st == INIT
    {
      this.p := p;
      st := INIT;
    }

    /** What others do before the next request arrives. */
    method Interfere(events: seq<Event>)
      modifies this
      ensures st == Run(p, old(st), events)
    {
      for i := 0 to |events|
        invariant Run(p, st, events[i..]) == Run(p, old(st), events)
      {
        assert events[i..][0] == events[i] && events[i..][1..] == events[i + 1..];
        st := Step(p, st, events[i]);
      }
    }

    method SnapshotView(h: Handle) returns (v: Option<Versioned>)
      ensures v == if h in st.snapshots then Some(st.snapshots[h]) else None
    {
      v := if h in st.snapshots then Some(st.snapshots[h]) else None;
    }

    method Load(h: Handle) returns (v: Option<Versioned>)
      modifies this
      ensures v == old(st).head && st == Remember(old(st), h, v)
    {
      v := st.head;
      st := Remember(st, h, v);
    }

    method PutObject(me: Actor, name: Name, batch: seq<Record>)
      modifies this
      ensures st == old(st).(objects := old(st).objects[name := Object(batch, old(st).clock, me)],
                             stored := old(st).stored[name := Object(batch, old(st).clock, me)])
    {
      var put := Object(batch, st.clock, me);
      st := st.(objects := st.objects[name := put], stored := st.stored[name := put]);
    }

    method ConditionalPut(expected: Option<Versioned>, m: Manifest, token: Token) returns (ok: bool)
      modifies this
      ensures ok <==> Unchanged(old(st).head, expected)
      ensures st == if ok then Publish(old(st), m, token) else old(st)
    {
      ok := Unchanged(st.head, expected);
      if ok {
        st := Publish(st, m, token);
      }
    }

    /** Remember a manifest, whatever is remembered by now. */
    method Keep(h: Handle, v: Option<Versioned>)
      modifies this
      ensures st == Remember(old(st), h, v)
    {
      st := Remember(st, h, v);
    }

    method Forget(h: Handle)
      modifies this
      ensures st == old(st).(snapshots := old(st).snapshots - {h})
    {
      st := st.(snapshots := st.snapshots - {h});
    }

    /** Where the call now stands; no request is made. */
    method Note(me: Actor, phase: Phase)
      modifies this
      ensures st == Become(old(st), me, phase)
    {
      st := Become(st, me, phase);
    }

    method PutMany(put: map<Name, Object>)
      modifies this
      ensures st == old(st).(objects := old(st).objects + put, stored := old(st).stored + put)
    {
      st := st.(objects := st.objects + put, stored := st.stored + put);
    }

    method Delete(name: Name)
      modifies this
      ensures st == old(st).(objects := old(st).objects - {name})
    {
      st := st.(objects := st.objects - {name});
    }

    method Count(e: Epoch)
      modifies this
      ensures st == old(st).(epochs := old(st).epochs + [e])
    {
      st := st.(epochs := st.epochs + [e]);
    }

    method Append(c: Commit)
      modifies this
      ensures st == old(st).(log := old(st).log + [c])
    {
      st := st.(log := st.log + [c]);
    }
  }

  /** Where a trace has led. */
  ghost predicate LedTo(p: Params, s: State, trace: seq<Event>, t: State) {
    t == Run(p, s, trace)
  }

  lemma LedOn(p: Params, s: State, trace: seq<Event>, t: State, events: seq<Event>)
    requires LedTo(p, s, trace, t)
    ensures LedTo(p, s, trace + events, Run(p, t, events))
  {
    RunConcat(p, s, trace, events);
  }

  lemma LedOnce(p: Params, s: State, trace: seq<Event>, t: State, e: Event, u: State)
    requires LedTo(p, s, trace, t) && u == Step(p, t, e)
    ensures LedTo(p, s, trace + [e], u)
  {
    hide Step;
    LedOn(p, s, trace, t, [e]);
    RunOne(p, t, e);
  }

  /** One handle on a namespace. */
  class Namespace {
    const bucket: Bucket
    const handle: Handle

    constructor (bucket: Bucket, handle: Handle)
      ensures this.bucket == bucket && this.handle == handle
    {
      this.bucket := bucket;
      this.handle := handle;
    }

    /** The first half of a round: find a base, then PUT the batch prepared on it. */
    method Offer(me: Actor, call: Call, attempt: nat, optimistic: bool, before: nat -> seq<Event>,
                 faults: nat -> Fault, slot: nat, newName: map<Name, Object> -> Name, ghost start: State,
                 ghost trace: seq<Event>)
      returns (base: Option<Versioned>, name: Name, r: Result<(Schema, seq<Record>), CommitError>,
               ghost longer: seq<Event>)
      requires LedTo(bucket.p, start, trace, bucket.st) && call.handle == handle
      requires (optimistic <==> attempt == 1) && At(me, WriteStart(call, attempt))
      requires Timely(bucket.p, me, before) && forall m :: newName(m) !in m
      modifies bucket
      ensures LedTo(bucket.p, start, longer, bucket.st)
      ensures r.Ok? ==> PrepareCall(bucket.p, base, call) == Ok(r.value)
      ensures r == Err(StoreFailed) ==> Faulty(faults)
      ensures Offered(bucket.st, me, call, attempt, base, name, r)
    {
      hide Step, PrepareCall, LedTo, Others, CountTicks, Run;
      ghost var p := bucket.p;
      name := 0;
      longer := Await(me, before(slot), start, trace);
      ghost var s0 := bucket.st;
      var found; ghost var e;
      found, base, e := FindBase(me, call, attempt, optimistic, faults(slot));
      LedOnce(p, start, longer, s0, e, bucket.st);
      longer := longer + [e];
      if !found {
        return base, name, Err(StoreFailed), longer;
      }
      longer := Await(me, before(slot + 1), start, longer);
      ghost var s1 := bucket.st;
      name := newName(bucket.st.stored);
      ghost var events;
      r, events := StoreBatch(me, call, attempt, base, name, faults(slot + 1));
      LedOn(p, start, longer, s1, events);
      longer := longer + events;
    }

    /** The second half: the conditional PUT, after whatever others do first. `sent` says that it took effect. */
    method Send(me: Actor, call: Call, attempt: nat, base: Option<Versioned>, name: Name, batch: seq<Record>,
                schema: Schema, first: seq<Event>, fault: Fault, newToken: map<Token, Manifest> -> Token,
                ghost start: State, ghost trace: seq<Event>)
      returns (sent: bool, won: Option<Versioned>, ghost longer: seq<Event>)
      requires LedTo(bucket.p, start, trace, bucket.st)
      requires Offered(bucket.st, me, call, attempt, base, name, Ok((schema, batch)))
      requires Others(me, first) && CountTicks(first) <= bucket.p.maxCommit && forall m :: newToken(m) !in m
      modifies bucket
      ensures LedTo(bucket.p, start, longer, bucket.st) && (sent <==> fault != Failed)
      ensures At(me, if sent then WriteDecided(call, attempt, won) else Dead)
      ensures won.Some? ==> won.value.manifest.nextSeq == ManifestOf(base).nextSeq + 1
    {
      hide Step, LedTo, Others, CountTicks, Run;
      ghost var put := bucket.st;
      longer := Await(me, first, start, trace);
      ghost var s2 := bucket.st;
      if fault == Failed {
        GiveUp(me);
        LedOnce(bucket.p, start, longer, s2, Crash(me), bucket.st);
        return false, None, longer + [Crash(me)];
      }
      ObjectStays(bucket.p, put, first, name, me);
      var token := newToken(bucket.st.seen);
      won := TryCommit(me, call, attempt, base, name, batch, schema, token);
      LedOnce(bucket.p, start, longer, s2, WriterCas(me, token), bucket.st);
      longer := longer + [WriterCas(me, token)];
      sent := true;
    }

    /** One round. `None` means the race was lost and another round is due. */
    method OneAttempt(me: Actor, call: Call, attempt: nat, optimistic: bool, before: nat -> seq<Event>,
                      faults: nat -> Fault, slot: nat, newName: map<Name, Object> -> Name,
                      newToken: map<Token, Manifest> -> Token, ghost start: State, ghost trace: seq<Event>)
      returns (r: Option<Result<(nat, nat), CommitError>>, ghost longer: seq<Event>)
      requires LedTo(bucket.p, start, trace, bucket.st) && call.handle == handle
      requires 1 <= attempt <= MAX_CAS_ATTEMPTS && (optimistic <==> attempt == 1) && At(me, WriteStart(call, attempt))
      requires Timely(bucket.p, me, before) && Fresh(newName, newToken)
      modifies bucket
      ensures LedTo(bucket.p, start, longer, bucket.st)
      ensures r.None? ==> attempt < MAX_CAS_ATTEMPTS && At(me, WriteStart(call, attempt + 1))
      ensures r.Some? ==> Answered(bucket.st, me, call, r.value)
      ensures r.Some? && r.value.Ok? ==> r.value.value.1 == attempt
      ensures r == Some(Err(StoreFailed)) ==> Faulty(faults)
    {
      hide Step, PrepareCall, LedTo, Others, CountTicks, Run, Answered;
      ghost var p := bucket.p;
      var base, name, prepared;
      base, name, prepared, longer :=
        Offer(me, call, attempt, optimistic, before, faults, slot, newName, start, trace);
      if prepared.Err? {
        ErrAnswers(bucket.st, me, call, attempt, base, name, prepared.error);
        return Some(Err(prepared.error)), longer;
      }
      var (schema, batch) := prepared.value;
      var sent, won;
      sent, won, longer :=
        Send(me, call, attempt, base, name, batch, schema, before(slot + 2), faults(slot + 2), newToken, start, longer);
      if !sent {
        DeadAnswers(bucket.st, me, call);
        return Some(Err(StoreFailed)), longer;
      }
      longer := Await(me, before(slot + 3), start, longer);
      ghost var s3 := bucket.st;
      if faults(slot + 2) == ReplyLost {
        Miss(me, call, attempt, won);
        LedOnce(p, start, longer, s3, CasReply(me, true), bucket.st);
        LearntAnswers(bucket.st, me, call, attempt);
        return Some(Err(StoreFailed)), longer + [CasReply(me, true)];
      }
      Learn(me, call, attempt, won);
      LedOnce(p, start, longer, s3, CasReply(me, false), bucket.st);
      longer := longer + [CasReply(me, false)];
      LearntAnswers(bucket.st, me, call, attempt);
      r := if won.Some? then Some(Ok((won.value.manifest.nextSeq - 1, attempt)))
           else if attempt == MAX_CAS_ATTEMPTS then Some(Err(Contention))
           else None;
    }

    /** Records are absorbed, PUT and committed by CAS, at most 100 times. `env(i)` is what others do
        before this call's i-th request, and `faults(i)` what becomes of that request; `newName` and `newToken`
        are the fresh names and versions. The run of this call is a run of the protocol, and its answer is what
        can be said of the log. */
    method CommitRecords(me: Actor, records: seq<Record>, config: WriteConfig, env: nat -> seq<Event>,
                         faults: nat -> Fault, newName: map<Name, Object> -> Name,
                         newToken: map<Token, Manifest> -> Token)
      returns (r: Result<(nat, nat), CommitError>, ghost trace: seq<Event>)
      requires me !in bucket.st.actors
      requires Timely(bucket.p, me, env) && Fresh(newName, newToken)
      modifies bucket
      ensures LedTo(bucket.p, old(bucket.st), trace, bucket.st)
      ensures Answered(bucket.st, me, Call(handle, records, config), r)
      ensures r.Ok? ==> 1 <= r.value.1 <= MAX_CAS_ATTEMPTS
      ensures r == Err(StoreFailed) ==> Faulty(faults)
      ensures AnswerIsTheLog(bucket.p, old(bucket.st), trace, bucket.st, me, Call(handle, records, config), r)
    {
      hide Step, LedTo, AnswerIsTheLog, Answered, Others, Faulty;
      ghost var p, start := bucket.p, bucket.st;
      var call := Call(handle, records, config);
      bucket.Note(me, WriteStart(call, 1));
      trace := [BeginWrite(me, call)];
      BeginIs(p, start, me, call);
      var attempt, optimistic, slot := 1, true, 0;
      while true
        invariant bucket.p == p && 1 <= attempt <= MAX_CAS_ATTEMPTS && (optimistic <==> attempt == 1)
        invariant LedTo(p, start, trace, bucket.st)
        invariant At(me, WriteStart(call, attempt))
        decreases MAX_CAS_ATTEMPTS - attempt
      {
        var round;
        round, trace := OneAttempt(me, call, attempt, optimistic, env, faults, slot, newName, newToken, start, trace);
        if round.Some? {
          Settled(p, start, trace, bucket.st, me, call, round.value);
          return round.value, trace;
        }
        attempt, optimistic, slot := attempt + 1, false, slot + 4;
      }
    }

    predicate At(me: Actor, phase: Phase)
      reads bucket
    {
      me in bucket.st.actors && bucket.st.actors[me] == phase
    }

    /** The remembered manifest on the first attempt, a loaded one on every other; a load that fails ends the
        call. */
    method FindBase(me: Actor, call: Call, attempt: nat, optimistic: bool, fault: Fault)
      returns (found: bool, base: Option<Versioned>, ghost e: Event)
      requires At(me, WriteStart(call, attempt)) && (optimistic <==> attempt == 1) && call.handle == handle
      modifies bucket
      ensures found <==> fault == Fine || (optimistic && handle in old(bucket.st).snapshots)
      ensures At(me, if found then WriteBased(call, attempt, base) else Dead)
      ensures e == if found then WriterLoad(me) else Crash(me)
      ensures bucket.st == Step(bucket.p, old(bucket.st), e)
    {
      hide Step;
      base := None;
      if optimistic {
        base := bucket.SnapshotView(handle);
      }
      if base.None? {
        if fault != Fine {
          GiveUp(me);
          return false, None, Crash(me);
        }
        base := bucket.Load(handle);
      }
      bucket.Note(me, WriteBased(call, attempt, base));
      LoadIs(bucket.p, old(bucket.st), me, bucket.st);
      return true, base, WriterLoad(me);
    }

    /** A failed request ends the call; whatever it wrote stays. */
    method GiveUp(me: Actor)
      requires me in bucket.st.actors && Undecided(bucket.st.actors[me])
      modifies bucket
      ensures bucket.st == Step(bucket.p, old(bucket.st), Crash(me)) && At(me, Dead)
      ensures bucket.st.clock == old(bucket.st).clock
    {
      bucket.Note(me, Dead);
    }

    /** Declare the configuration, then absorb record by record. */
    method PrepareBatch(base: Option<Versioned>, call: Call) returns (r: Result<(Schema, seq<Record>), SchemaError>)
      ensures r == PrepareCall(bucket.p, base, call)
    {
      var m := ManifestOf(base);
      var draft := Declare(m.schema, call.config, m.HasData());
      if draft.Err? {
        return Err(draft.error);
      }
      var schema := new Draft(draft.value);
      var taken := schema.TakeAll(bucket.p.host, call.records);
      r := if taken.Err? then Err(taken.error) else Ok((schema.schema, taken.value));
    }

    /** Declare, absorb, frame and PUT the WAL object, before anything names it. */
    method StoreBatch(me: Actor, call: Call, attempt: nat, base: Option<Versioned>, name: Name, fault: Fault)
      returns (r: Result<(Schema, seq<Record>), CommitError>, ghost events: seq<Event>)
      requires At(me, WriteBased(call, attempt, base)) && name !in bucket.st.stored
      modifies bucket
      ensures bucket.st == Run(bucket.p, old(bucket.st), events)
      ensures match PrepareCall(bucket.p, base, call)
              case Err(e) => r == Err(Refused(e))
              case Ok(prepared) => r == if fault == Fine then Ok(prepared) else Err(StoreFailed)
      ensures events == if fault == Fine || PrepareCall(bucket.p, base, call).Err? then [WriterPut(me, name)]
                        else if fault == Failed then [Crash(me)]
                        else [WriterPut(me, name)] + [Crash(me)]
      ensures Offered(bucket.st, me, call, attempt, base, name, r)
    {
      hide Step, PrepareCall, Run;
      var prepared := PrepareBatch(base, call);
      ghost var p, s := bucket.p, bucket.st;
      if prepared.Ok? && fault == Failed {
        GiveUp(me);
        RunOne(p, s, Crash(me));
        return Err(StoreFailed), [Crash(me)];
      }
      match prepared {
        case Err(e) =>
          bucket.Note(me, WriteDone(call, Rejected(e), None));
          r := Err(Refused(e));
        case Ok((schema, batch)) =>
          bucket.PutObject(me, name, batch);
          bucket.Note(me, WriteStored(call, attempt, base, name, batch, schema));
          r := Ok((schema, batch));
      }
      PutIs(p, s, me, name, bucket.st);
      RunOne(p, s, WriterPut(me, name));
      events := [WriterPut(me, name)];
      if prepared.Ok? && fault == ReplyLost {
        ghost var stored := bucket.st;
        GiveUp(me);
        RunOne(p, stored, Crash(me));
        RunConcat(p, s, [WriterPut(me, name)], [Crash(me)]);
        return Err(StoreFailed), [WriterPut(me, name)] + [Crash(me)];
      }
    }

    /** The conditional PUT: the manifest published, if the store took it. */
    method TryCommit(me: Actor, call: Call, attempt: nat, base: Option<Versioned>, name: Name, batch: seq<Record>,
                     schema: Schema, token: Token)
      returns (won: Option<Versioned>)
      requires Ready(bucket.p, bucket.st, me, call, attempt, base, name, batch, schema) && token !in bucket.st.seen
      modifies bucket
      ensures bucket.st == Step(bucket.p, old(bucket.st), WriterCas(me, token)) &&
        At(me, WriteDecided(call, attempt, won))
      ensures won.Some? <==> Unchanged(old(bucket.st).head, base)
      ensures won.Some? ==> won.value.manifest.nextSeq == ManifestOf(base).nextSeq + 1
    {
      hide Step;
      var next := NextManifest(bucket.p, ManifestOf(base), name, batch, schema);
      var ok := bucket.ConditionalPut(base, next, token);
      won := if ok then Some(Versioned(next, token)) else None;
      if ok {
        bucket.Append(Commit(me, name, batch));
      }
      bucket.Note(me, WriteDecided(call, attempt, won));
      CasIs(bucket.p, old(bucket.st), me, call, attempt, base, name, batch, schema, token, ok, bucket.st);
    }

    /** What the caller remembers or forgets once it has the reply, whatever others did meanwhile. */
    method Learn(me: Actor, call: Call, attempt: nat, won: Option<Versioned>)
      requires At(me, WriteDecided(call, attempt, won)) && call.handle == handle
      requires won.Some? ==> won.value.manifest.nextSeq > 0
      modifies bucket
      ensures bucket.st == Step(bucket.p, old(bucket.st), CasReply(me, false))
      ensures if won.Some? then At(me,
        WriteDone(call, Acked(won.value.manifest.nextSeq - 1), Some(won.value.manifest.nextSeq - 1)))
              else if attempt < MAX_CAS_ATTEMPTS then At(me, WriteStart(call, attempt + 1))
              else At(me, WriteDone(call, Contended, None))
    {
      if won.Some? {
        bucket.Keep(handle, won);
        var q := won.value.manifest.nextSeq - 1;
        bucket.Note(me, WriteDone(call, Acked(q), Some(q)));
      } else {
        bucket.Forget(handle);
        bucket.Note(me, if attempt >= MAX_CAS_ATTEMPTS then WriteDone(call, Contended, None)
            else WriteStart(call, attempt + 1));
      }
    }

    /** The store has decided, and the caller is told of an error. */
    method Miss(me: Actor, call: Call, attempt: nat, won: Option<Versioned>)
      requires At(me, WriteDecided(call, attempt, won))
      modifies bucket
      ensures bucket.st == Step(bucket.p, old(bucket.st), CasReply(me, true))
      ensures At(me, WriteDone(call, Unknown, LoggedAt(WriteDecided(call, attempt, won))))
    {
      var at := if won.Some? && won.value.manifest.nextSeq > 0 then Some(won.value.manifest.nextSeq - 1) else None;
      bucket.Note(me, WriteDone(call, Unknown, at));
    }

    /** Let others act, and extend the trace. */
    method Await(me: Actor, events: seq<Event>, ghost start: State, ghost trace: seq<Event>)
      returns (ghost longer: seq<Event>)
      requires LedTo(bucket.p, start, trace, bucket.st) && Others(me, events)
      modifies bucket
      ensures longer == trace + events && LedTo(bucket.p, start, longer, bucket.st)
      ensures bucket.st == Run(bucket.p, old(bucket.st), events)
      ensures SameActor(old(bucket.st), bucket.st, me)
      ensures bucket.st.clock == old(bucket.st).clock + CountTicks(events)
    {
      hide Step;
      ghost var before := bucket.st;
      bucket.Interfere(events);
      LedOn(bucket.p, start, trace, before, events);
      RunElsewhere(bucket.p, before, events, me);
      longer := trace + events;
    }
  }

  /** Nothing of the call's CAS has been decided, and it is not over. */
  predicate Undecided(phase: Phase) {
    !phase.WriteDone? && !phase.CompactDone? && !phase.WriteDecided? && !phase.CompactDecided?
  }

  /** A refused call is over, and so is one whose request failed; a stored batch is in the store as of now. */
  predicate Offered(s: State, me: Actor, call: Call, attempt: nat, base: Option<Versioned>, name: Name,
                    r: Result<(Schema, seq<Record>), CommitError>) {
    me in s.actors &&
    match r
    case Err(Refused(e)) => s.actors[me] == WriteDone(call, Rejected(e), None)
    case Err(StoreFailed) => s.actors[me] == Dead
    case Err(Contention) => false
    case Ok((schema, batch)) =>
      && s.actors[me] == WriteStored(call, attempt, base, name, batch, schema)
      && name in s.stored && s.stored[name].putAt == s.clock
  }

  lemma BeginIs(p: Params, s: State, me: Actor, call: Call)
    requires me !in s.actors
    ensures LedTo(p, s, [BeginWrite(me, call)], Become(s, me, WriteStart(call, 1)))
  {
    RunOne(p, s, BeginWrite(me, call));
  }

  lemma LoadIs(p: Params, s: State, me: Actor, t: State)
    requires t == DoWriterLoad(s, me)
    ensures t == Step(p, s, WriterLoad(me))
  {
  }

  lemma PutIs(p: Params, s: State, me: Actor, name: Name, t: State)
    requires me in s.actors && s.actors[me].WriteBased? && name !in s.stored
    requires var ph := s.actors[me];
      match PrepareCall(p, ph.base, ph.call)
      case Err(e) => t == Become(s, me, WriteDone(ph.call, Rejected(e), None))
      case Ok((schema, batch)) =>
        var put := Object(batch, s.clock, me);
        t == Become(s.(objects := s.objects[name := put], stored := s.stored[name := put]), me,
                    WriteStored(ph.call, ph.attempt, ph.base, name, batch, schema))
    ensures t == Step(p, s, WriterPut(me, name))
  {
    hide PrepareCall;
  }

  /** The PUT object outlives what others do, and the deadline holds. */
  lemma ObjectStays(p: Params, s: State, events: seq<Event>, name: Name, me: Actor)
    requires name in s.stored && s.stored[name].putAt == s.clock && Others(me, events) &&
      CountTicks(events) <= p.maxCommit
    ensures var t := Run(p, s, events); name in t.stored && InTime(p, t, t.stored[name].putAt)
  {
    hide Step;
    RunLater(p, s, events);
    RunElsewhere(p, s, events, me);
  }

  predicate Ready(p: Params, s: State, me: Actor, call: Call, attempt: nat, base: Option<Versioned>, name: Name,
                  batch: seq<Record>, schema: Schema) {
    && me in s.actors && s.actors[me] == WriteStored(call, attempt, base, name, batch, schema)
    && name in s.stored && InTime(p, s, s.stored[name].putAt)
  }

  lemma CasIs(p: Params, s: State, me: Actor, call: Call, attempt: nat, base: Option<Versioned>, name: Name,
              batch: seq<Record>, schema: Schema, token: Token, ok: bool, t: State)
    requires Ready(p, s, me, call, attempt, base, name, batch, schema) && token !in s.seen &&
      (ok <==> Unchanged(s.head, base))
    requires var m := NextManifest(p, ManifestOf(base), name, batch, schema);
      t == if ok then Become(Publish(s, m, token).(log := s.log + [Commit(me, name, batch)]), me,
                             WriteDecided(call, attempt, Some(Versioned(m, token))))
           else Become(s, me, WriteDecided(call, attempt, None))
    ensures t == Step(p, s, WriterCas(me, token))
  {
    hide NextManifest;
  }

  /** The call is over, and this is what it was told. */
  predicate Answered(s: State, me: Actor, call: Call, r: Result<(nat, nat), CommitError>) {
    me in s.actors &&
    match s.actors[me]
    case Dead => r == Err(StoreFailed)
    case WriteDone(c, outcome, _) =>
      c == call &&
      match outcome {
        case Acked(q) => r.Ok? && r.value.0 == q
        case Rejected(e) => r == Err(Refused(e))
        case Contended => r == Err(Contention)
        case Unknown => r == Err(StoreFailed)
      }
    case _ => false
  }

  lemma ErrAnswers(s: State, me: Actor, call: Call, attempt: nat, base: Option<Versioned>, name: Name, e: CommitError)
    requires Offered(s, me, call, attempt, base, name, Err(e))
    ensures Answered(s, me, call, Err(e))
  {
  }

  lemma DeadAnswers(s: State, me: Actor, call: Call)
    requires me in s.actors && s.actors[me] == Dead
    ensures Answered(s, me, call, Err(StoreFailed))
  {
  }

  lemma LearntAnswers(s: State, me: Actor, call: Call, attempt: nat)
    ensures forall q: nat | me in s.actors && s.actors[me] == WriteDone(call, Acked(q), Some(q)) ::
      Answered(s, me, call, Ok((q, attempt)))
    ensures me in s.actors && s.actors[me] == WriteDone(call, Contended, None) ==>
      Answered(s, me, call, Err(Contention))
    ensures forall at | me in s.actors && s.actors[me] == WriteDone(call, Unknown, at) ::
      Answered(s, me, call, Err(StoreFailed))
  {
  }

  /** What an answer says of the log: Ok, that the call is in it at that number and nowhere else; a refusal or
      contention, that it is not; a failed request, only that it is in it at most once. */
  ghost predicate Tells(p: Params, s: State, me: Actor, call: Call, r: Result<(nat, nat), CommitError>)
    requires me in s.actors
  {
    && (r.Ok? ==> Committed(s, me, r.value.0))
    && (forall q: nat :: Committed(s, me, q) ==>
          (r.Ok? && q == r.value.0) || (r == Err(StoreFailed) && s.actors[me] == WriteDone(call, Unknown, Some(q))))
    && (forall q: nat :: Committed(s, me, q) ==> CommittedAt(p, s, me, call, q))
  }

  /** Over guarded runs from a good state the answer tells of the log. */
  ghost predicate AnswerIsTheLog(p: Params, s: State, trace: seq<Event>, t: State, me: Actor, call: Call,
                                 r: Result<(nat, nat), CommitError>) {
    Inv(p, s) && GuardedRun(p, s, trace) ==> me in t.actors && Tells(p, t, me, call, r)
  }

  lemma AnswerTells(p: Params, s: State, me: Actor, call: Call, r: Result<(nat, nat), CommitError>)
    requires Inv(p, s) && Answered(s, me, call, r)
    ensures Tells(p, s, me, call, r)
  {
    hide Inv, PrepareCall, CommittedAt;
    StoreFacts(p, s);
    PhaseFact(p, s, me);
    if r.Ok? {
      CommitterIs(p, s, me, call, r.value.0);
    }
    forall q: nat | Committed(s, me, q)
      ensures CommittedAt(p, s, me, call, q)
      ensures (r.Ok? && q == r.value.0) ||
              (r == Err(StoreFailed) && s.actors[me] == WriteDone(call, Unknown, Some(q)))
    {
      assert CommitOk(s, q);
    }
  }

  lemma CommitterIs(p: Params, s: State, me: Actor, call: Call, q: nat)
    requires me in s.actors && s.actors[me].WriteDone? && s.actors[me].call == call
    requires s.actors[me].outcome == Acked(q) && PhaseOk(p, s, me, s.actors[me])
    ensures Committed(s, me, q)
  {
  }

  lemma Settled(p: Params, s: State, trace: seq<Event>, t: State, me: Actor, call: Call,
                r: Result<(nat, nat), CommitError>)
    requires LedTo(p, s, trace, t) && Answered(t, me, call, r)
    ensures AnswerIsTheLog(p, s, trace, t, me, call, r)
  {
    hide Inv, Step, PrepareCall, GuardedRun, Tells;
    if Inv(p, s) && GuardedRun(p, s, trace) {
      RunKeeps(p, s, trace);
      AnswerTells(p, t, me, call, r);
    }
  }
}
