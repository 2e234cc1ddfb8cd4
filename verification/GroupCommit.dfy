/** One committer per namespace: queued requests ride a shared commit, in the order they came (src/store.rs). */
module GroupCommit {
  import opened Wrappers
  import opened Values
  import opened Records
  import opened Schemas
  import opened Protocol
  import opened Safety
  import opened Runs
  import opened Namespaces
  import opened Overlap
  import opened Settings
  import opened Sums
  import Ivf

  const MAX_BATCH_LEN: nat := 1024
  const MAX_BATCH_BYTES: nat := 8388608

  datatype Request = Request(record: Record, config: WriteConfig)

  // ------------------------------------------------------------ one batch

  function Bytes(size: Record -> nat, batch: seq<Request>): nat
    decreases |batch|
  {
    if batch == [] then 0 else Bytes(size, batch[..|batch| - 1]) + size(batch[|batch| - 1].record)
  }

  ghost function SizeAt(size: Record -> nat, batch: seq<Request>): nat -> real {
    (i: nat) => if i < |batch| then size(batch[i].record) as real else 0.0
  }

  lemma SizesNext(size: Record -> nat, batch: seq<Request>, n: nat)
    requires |batch| == n + 1
    ensures SumOver(Ivf.Range(n + 1), SizeAt(size, batch)) ==
            SumOver(Ivf.Range(n), SizeAt(size, batch[..n])) + size(batch[n].record) as real
  {
    hide SumOver, Ivf.Range;
    assert Ivf.Range(n + 1) == Ivf.Range(n) + {n};
    SumAdd<nat>(Ivf.Range(n), SizeAt(size, batch), n);
    SumSame(Ivf.Range(n), SizeAt(size, batch[..n]), SizeAt(size, batch));
  }

  /** The size of a batch is the sum of its records' sizes. */
  lemma {:induction false} BytesAreTheSum(size: Record -> nat, batch: seq<Request>)
    ensures Bytes(size, batch) as real == SumOver(Ivf.Range(|batch|), SizeAt(size, batch))
    decreases |batch|
  {
    if batch != [] {
      hide SumOver, SizeAt;
      var n := |batch| - 1;
      BytesAreTheSum(size, batch[..n]);
      SizesNext(size, batch, n);
    }
  }

  /** A batch: consecutive requests, at least one, grown only while it was below both limits. */
  ghost predicate IsBatch(size: Record -> nat, requests: seq<Request>, from: nat, to: nat) {
    && from < to <= |requests| && to - from <= MAX_BATCH_LEN
    && forall k | from < k < to :: Bytes(size, requests[from..k]) < MAX_BATCH_BYTES
  }

  function RecordsOf(batch: seq<Request>): (r: seq<Record>)
    ensures |r| == |batch|
  {
    seq(|batch|, i requires 0 <= i < |batch| => batch[i].record)
  }

  /** The first request that asks for settings decides the batch's. */
  function ConfigOf(batch: seq<Request>): WriteConfig {
    if batch == [] then EMPTY_CONFIG
    else if !batch[0].config.IsEmpty() then batch[0].config
    else ConfigOf(batch[1..])
  }

  lemma {:induction false} FirstAsks(batch: seq<Request>)
    ensures ConfigOf(batch).IsEmpty() ==> forall i | 0 <= i < |batch| :: batch[i].config.IsEmpty()
    ensures !ConfigOf(batch).IsEmpty() ==> exists i :: 0 <= i < |batch| && batch[i].config == ConfigOf(batch)
    decreases |batch|
  {
    if batch != [] && batch[0].config.IsEmpty() {
      FirstAsks(batch[1..]);
      if ConfigOf(batch).IsEmpty() {
        forall i | 0 <= i < |batch| ensures batch[i].config.IsEmpty() {
          assert i > 0 ==> batch[1..][i - 1] == batch[i];
        }
      } else {
        var i :| 0 <= i < |batch[1..]| && batch[1..][i].config == ConfigOf(batch);
        assert batch[i + 1].config == ConfigOf(batch);
      }
    }
  }

  /** Whatever a batch's commit starts from, each of its requests gets the settings it asked for if and only if
      they follow from the base, from the settings the batch ran with and from the types its records show; the
      first to ask always does. */
  lemma BatchSettings(p: Params, base: Option<Versioned>, handle: Handle, batch: seq<Request>, i: nat)
    requires i < |batch| && PrepareCall(p, base, Call(handle, RecordsOf(batch), ConfigOf(batch))).Ok?
    ensures var schema := PrepareCall(p, base, Call(handle, RecordsOf(batch), ConfigOf(batch))).value.0;
      && (Grants(schema, batch[i].config) <==>
          GrantedBy(ManifestOf(base).schema, ConfigOf(batch), RecordsOf(batch), batch[i].config))
      && (batch[i].config == ConfigOf(batch) ==> Grants(schema, batch[i].config))
  {
    hide Grants, GrantedBy, Prepare;
    var m := ManifestOf(base);
    OwnAreGranted(m.schema, ConfigOf(batch), RecordsOf(batch));
    GrantedExactly(p.host, m.schema, m.HasData(), ConfigOf(batch), RecordsOf(batch), batch[i].config);
  }

  /** Block for one request, then take what is already queued. `queued(k)` says whether a further request has
      arrived by the k-th poll. */
  method Drain(size: Record -> nat, requests: seq<Request>, from: nat, queued: nat -> bool) returns (to: nat)
    requires from < |requests|
    ensures IsBatch(size, requests, from, to)
    ensures to - from <= 1024 && forall k | from < k < to :: Bytes(size, requests[from..k]) < 8 * 1024 * 1024
    ensures || to == |requests| || !queued(to)
            || to - from == 1024 || Bytes(size, requests[from..to]) >= 8 * 1024 * 1024
  {
    to := from + 1;
    assert requests[from..from + 1][..0] == [];
    var bytes := size(requests[from].record);
    assert Bytes(size, requests[from..to]) == bytes;
    while to - from < MAX_BATCH_LEN && bytes < MAX_BATCH_BYTES && to < |requests| && queued(to)
      invariant from < to <= |requests| && to - from <= MAX_BATCH_LEN
      invariant bytes == Bytes(size, requests[from..to])
      invariant forall k | from < k < to :: Bytes(size, requests[from..k]) < MAX_BATCH_BYTES
    {
      assert requests[from..to + 1][..to - from] == requests[from..to];
      bytes := bytes + size(requests[to].record);
      to := to + 1;
    }
  }

  // ------------------------------------------------------------ every request answered

  /** One served batch: its requests, the actor that committed it and what it was told. */
  datatype Served = Served(from: nat, to: nat, a: Actor, call: Call, answer: Result<(nat, nat), CommitError>)

  /** The batches so far follow one another from the first request on. */
  ghost predicate Consecutive(size: Record -> nat, handle: Handle, requests: seq<Request>, served: seq<Served>,
                              upTo: nat) {
    && upTo <= |requests|
    && (served == [] ==> upTo == 0) && (served != [] ==> served[0].from == 0 && served[|served| - 1].to == upTo)
    && (forall k | 0 <= k < |served| - 1 :: served[k].to == served[k + 1].from)
    && forall k | 0 <= k < |served| ::
         && IsBatch(size, requests, served[k].from, served[k].to) && served[k].to <= upTo
         && served[k].call == Call(handle, RecordsOf(requests[served[k].from..served[k].to]),
             ConfigOf(requests[served[k].from..served[k].to]))
  }

  function Reply(answer: Result<(nat, nat), CommitError>): Result<nat, CommitError> {
    match answer
    case Ok((seqno, _)) => Ok(seqno)
    case Err(e) => Err(e)
  }

  /** Every waiter gets the one outcome of the batch its request rode. */
  ghost predicate AllReplied(served: seq<Served>, replies: seq<Result<nat, CommitError>>) {
    forall k, i | 0 <= k < |served| && served[k].from <= i < served[k].to ::
        i < |replies| && replies[i] == Reply(served[k].answer)
  }

  ghost predicate AllAnswered(s: State, served: seq<Served>) {
    forall k | 0 <= k < |served| :: Answered(s, served[k].a, served[k].call, served[k].answer)
  }

  lemma AnsweredStays(p: Params, s: State, events: seq<Event>, x: Served)
    requires Answered(s, x.a, x.call, x.answer)
    ensures Answered(Run(p, s, events), x.a, x.call, x.answer)
    ensures Run(p, s, events).actors[x.a] == s.actors[x.a]
  {
    hide Step;
    RunLater(p, s, events);
    if s.actors[x.a] == Dead {
      DeadStays(p, s, events, x.a);
    }
  }

  /** What a batch committed: its records as the schema of its base took them, in a manifest with that schema. */
  ghost predicate CommittedAs(p: Params, s: State, x: Served, q: nat) {
    CommittedAt(p, s, x.a, x.call, q)
  }

  /** What one batch's answer says of the log. */
  ghost predicate Told(p: Params, s: State, x: Served) {
    x.a in s.actors && Tells(p, s, x.a, x.call, x.answer)
  }

  /** Every batch answered Ok is in the log once, at the number it was told; of the others only a batch with a
      failed request may be, once; and those that are stand there in the order their requests were submitted. */
  ghost predicate LogHas(p: Params, s: State, served: seq<Served>) {
    && (forall k | 0 <= k < |served| :: Told(p, s, served[k]))
    && (forall j, k, q: nat, r: nat | 0 <= j < k < |served| && Committed(s, served[j].a, q) &&
          Committed(s, served[k].a, r) :: q < r)
  }

  /** An actor that did not exist when the log had `n` entries committed after them. */
  lemma LaterActorLaterEntry(p: Params, s: State, t: State, a: Actor, q: nat)
    requires Inv(p, s) && Later(s, t) && a !in s.actors && Committed(t, a, q)
    ensures q >= |s.log|
  {
    hide Inv, LogOk;
    StoreFacts(p, s);
    if q < |s.log| {
      assert t.log[q] == t.log[..|s.log|][q] == s.log[q];
      CommitterExists(s, q);
    }
  }

  lemma CommitterExists(s: State, q: nat)
    requires LogOk(s) && q < |s.log|
    ensures s.log[q].call in s.actors
  {
    assert CommitOk(s, q);
  }

  /** Serving one more batch, over a run that is a good one. */
  lemma LogHasNext(p: Params, start: State, trace: seq<Event>, s: State, more: seq<Event>, t: State,
                   served: seq<Served>, x: Served)
    requires LedTo(p, start, trace, s) && LedTo(p, s, more, t)
    requires Inv(p, start) && GuardedRun(p, start, trace + more)
    requires x.a !in s.actors && AllAnswered(t, served + [x]) && AllAnswered(s, served) && LogHas(p, s, served)
    ensures LogHas(p, t, served + [x])
  {
    hide Step, PrepareCall, Answered, Inv, Tells, Committed, Later, LedTo, GuardedRun, Run;
    GuardedConcat(p, start, trace, more);
    LedIs(p, start, trace, s);
    LedIs(p, s, more, t);
    RunKeeps(p, start, trace);
    RunKeeps(p, s, more);
    RunLater(p, s, more);
    var all := served + [x];
    forall k | 0 <= k < |all| ensures Told(p, t, all[k]) {
      assert Answered(t, all[k].a, all[k].call, all[k].answer);
      TellsOf(p, t, all[k]);
    }
    forall j, k, q: nat, r: nat | 0 <= j < k < |all| && Committed(t, all[j].a, q) && Committed(t, all[k].a, r)
      ensures q < r
    {
      AnsweredStays(p, s, more, served[j]);
      CommittedEarlier(p, s, t, served[j], q);
      if k == |served| {
        LaterActorLaterEntry(p, s, t, x.a, r);
        CommittedWithin(s, served[j].a, q);
      } else {
        AnsweredStays(p, s, more, served[k]);
        CommittedEarlier(p, s, t, served[k], r);
      }
    }
  }

  lemma LedIs(p: Params, s: State, trace: seq<Event>, t: State)
    requires LedTo(p, s, trace, t)
    ensures t == Run(p, s, trace)
  {
  }

  lemma TellsOf(p: Params, s: State, x: Served)
    requires Inv(p, s) && Answered(s, x.a, x.call, x.answer)
    ensures Told(p, s, x)
  {
    hide Inv, Tells;
    AnswerTells(p, s, x.a, x.call, x.answer);
  }

  lemma CommittedWithin(s: State, a: Actor, q: nat)
    requires Committed(s, a, q)
    ensures q < |s.log|
  {
  }

  /** A call that was over by then committed by then. */
  lemma CommittedEarlier(p: Params, s: State, t: State, x: Served, q: nat)
    requires Inv(p, s) && Inv(p, t) && Later(s, t) && Answered(s, x.a, x.call, x.answer)
    requires x.a in t.actors && t.actors[x.a] == s.actors[x.a] && Committed(t, x.a, q)
    ensures Committed(s, x.a, q)
  {
    hide Inv, PrepareCall;
    StoreFacts(p, t);
    StoreFacts(p, s);
    assert CommitOk(t, q);
    PhaseFact(p, s, x.a);
  }

  /** The committer loop over everything submitted: batches in arrival order, one commit each, one outcome to
      every waiter of a batch. */
  method Serve(ns: Namespace, size: Record -> nat, requests: seq<Request>, queued: nat -> bool,
               newActor: map<Actor, Phase> -> Actor, env: Actor -> nat -> seq<Event>,
               faults: Actor -> nat -> Fault, newName: map<Name, Object> -> Name,
               newToken: map<Token, Manifest> -> Token)
    returns (replies: seq<Result<nat, CommitError>>, ghost served: seq<Served>, ghost trace: seq<Event>)
    requires (forall a :: Timely(ns.bucket.p, a, env(a))) && (forall m :: newActor(m) !in m) && Fresh(newName, newToken)
    modifies ns.bucket
    ensures Consecutive(size, ns.handle, requests, served, |requests|) && |replies| == |requests| &&
      AllReplied(served, replies)
    ensures LedTo(ns.bucket.p, old(ns.bucket.st), trace, ns.bucket.st) && AllAnswered(ns.bucket.st, served)
    ensures Inv(ns.bucket.p, old(ns.bucket.st)) && GuardedRun(ns.bucket.p, old(ns.bucket.st), trace) ==>
      LogHas(ns.bucket.p, ns.bucket.st, served)
    ensures Err(StoreFailed) in replies ==> SomeFault(faults)
  {
    hide Step, LedTo, Answered, Timely, Fresh, Inv, GuardedRun, LogHas, AnswerIsTheLog, IsBatch, Faulty,
      Consecutive, AllReplied;
    ghost var p, start := ns.bucket.p, ns.bucket.st;
    replies, served, trace := [], [], [];
    var from := 0;
    NothingServed(p, start, size, ns.handle, requests);
    while from < |requests|
      invariant from <= |requests| && |replies| == from && ns.bucket.p == p
      invariant Consecutive(size, ns.handle, requests, served, from) && AllReplied(served, replies)
      invariant LedTo(p, start, trace, ns.bucket.st) && AllAnswered(ns.bucket.st, served)
      invariant Inv(p, start) && GuardedRun(p, start, trace) ==> LogHas(p, ns.bucket.st, served)
      invariant Err(StoreFailed) in replies ==> SomeFault(faults)
      decreases |requests| - from
    {
      var to := Drain(size, requests, from, queued);
      BatchGrows(size, requests, from, to);
      var batch := requests[from..to];
      var me := newActor(ns.bucket.st.actors);
      ghost var s := ns.bucket.st;
      var answer; ghost var more;
      answer, more := ns.CommitRecords(me, RecordsOf(batch), ConfigOf(batch), env(me), faults(me), newName, newToken);
      ghost var x := Served(from, to, me, Call(ns.handle, RecordsOf(batch), ConfigOf(batch)), answer);
      StillAnswered(p, s, more, ns.bucket.st, served, x);
      LedConcat(p, start, trace, s, more, ns.bucket.st);
      if Inv(p, start) && GuardedRun(p, start, trace + more) {
        GuardedConcat(p, start, trace, more);
        LogHasNext(p, start, trace, s, more, ns.bucket.st, served, x);
      }
      NextServed(size, ns.handle, requests, served, from, x);
      NextReplied(size, ns.handle, requests, served, from, x, replies);
      replies := replies + seq(to - from, _ => Reply(answer));
      served, trace, from := served + [x], trace + more, to;
    }
  }

  ghost predicate SomeFault(faults: Actor -> nat -> Fault) {
    exists a :: Faulty(faults(a))
  }

  lemma NothingServed(p: Params, s: State, size: Record -> nat, handle: Handle, requests: seq<Request>)
    ensures LedTo(p, s, [], s) && LogHas(p, s, [])
    ensures Consecutive(size, handle, requests, [], 0) && AllReplied([], [])
  {
  }

  lemma NextServed(size: Record -> nat, handle: Handle, requests: seq<Request>, served: seq<Served>, from: nat,
                   x: Served)
    requires Consecutive(size, handle, requests, served, from) && x.from == from
    requires IsBatch(size, requests, from, x.to) && x.to <= |requests|
    requires x.call == Call(handle, RecordsOf(requests[from..x.to]), ConfigOf(requests[from..x.to]))
    ensures Consecutive(size, handle, requests, served + [x], x.to)
  {
    hide RecordsOf, ConfigOf;
  }

  lemma NextReplied(size: Record -> nat, handle: Handle, requests: seq<Request>, served: seq<Served>, from: nat,
                    x: Served, replies: seq<Result<nat, CommitError>>)
    requires Consecutive(size, handle, requests, served, from) && AllReplied(served, replies) && |replies| == from
    requires x.from == from <= x.to
    ensures AllReplied(served + [x], replies + seq(x.to - from, _ => Reply(x.answer)))
  {
    hide IsBatch, RecordsOf, ConfigOf;
  }

  lemma BatchGrows(size: Record -> nat, requests: seq<Request>, from: nat, to: nat)
    requires IsBatch(size, requests, from, to)
    ensures from < to <= |requests|
  {
  }

  lemma StillAnswered(p: Params, s: State, more: seq<Event>, t: State, served: seq<Served>, x: Served)
    requires LedTo(p, s, more, t) && AllAnswered(s, served) && Answered(t, x.a, x.call, x.answer)
    ensures AllAnswered(t, served + [x])
  {
    hide Answered, Run;
    forall k | 0 <= k < |served| ensures Answered(t, served[k].a, served[k].call, served[k].answer) {
      AnsweredStays(p, s, more, served[k]);
    }
  }

  lemma LedConcat(p: Params, start: State, trace: seq<Event>, s: State, more: seq<Event>, t: State)
    requires LedTo(p, start, trace, s) && LedTo(p, s, more, t)
    ensures LedTo(p, start, trace + more, t)
  {
    RunConcat(p, start, trace, more);
  }

  // ------------------------------------------------------------ a caller's whole list

  /** The caller waits for each of its requests in turn: the first failure, else the last number. */
  method WriteAll(replies: seq<Result<nat, CommitError>>) returns (r: Result<nat, CommitError>)
    ensures r.Ok? <==> forall i | 0 <= i < |replies| :: replies[i].Ok?
    ensures r.Ok? ==> r.value == if replies == [] then 0 else replies[|replies| - 1].value
    ensures r.Err? ==> exists i | 0 <= i < |replies| :: replies[i] == r && forall j | 0 <= j < i :: replies[j].Ok?
  {
    var seqno := 0;
    for i := 0 to |replies|
      invariant forall j | 0 <= j < i :: replies[j].Ok?
      invariant seqno == if i == 0 then 0 else replies[i - 1].value
    {
      if replies[i].Err? {
        return replies[i];
      }
      seqno := replies[i].value;
    }
    return Ok(seqno);
  }

  /** Request `n` rode batch `k`. */
  ghost predicate Rode(served: seq<Served>, k: nat, n: nat) {
    k < |served| && served[k].from <= n < served[k].to
  }

  lemma {:induction false} BatchOf(size: Record -> nat, handle: Handle, requests: seq<Request>, served: seq<Served>,
                                   upTo: nat, n: nat, last: nat)
    returns (k: nat)
    requires Consecutive(size, handle, requests, served, upTo) && last < |served| && n < served[last].to
    ensures k <= last && Rode(served, k, n)
    decreases last
  {
    if served[last].from <= n {
      k := last;
    } else {
      k := BatchOf(size, handle, requests, served, upTo, n, last - 1);
    }
  }

  lemma {:induction false} BatchesAscend(size: Record -> nat, handle: Handle, requests: seq<Request>,
                                         served: seq<Served>, upTo: nat, j: nat, k: nat)
    requires Consecutive(size, handle, requests, served, upTo) && j < k < |served|
    ensures served[j].to <= served[k].from
    decreases k
  {
    if j < k - 1 {
      BatchesAscend(size, handle, requests, served, upTo, j, k - 1);
    }
  }

  lemma ReplyIs(served: seq<Served>, replies: seq<Result<nat, CommitError>>, k: nat, n: nat)
    requires AllReplied(served, replies) && Rode(served, k, n)
    ensures n < |replies| && replies[n] == Reply(served[k].answer)
  {
  }

  lemma RodeInOrder(size: Record -> nat, handle: Handle, requests: seq<Request>, served: seq<Served>, upTo: nat, k: nat,
                    l: nat, m: nat, n: nat)
    requires Consecutive(size, handle, requests, served, upTo) && Rode(served, k, m) && Rode(served, l, n) && m < n
    ensures k <= l
  {
    if l < k {
      BatchesAscend(size, handle, requests, served, upTo, l, k);
    }
  }

  lemma OneBatch(size: Record -> nat, handle: Handle, requests: seq<Request>, served: seq<Served>, upTo: nat,
                 k: nat, l: nat, n: nat)
    requires Consecutive(size, handle, requests, served, upTo) && Rode(served, k, n) && Rode(served, l, n)
    ensures k == l
  {
    hide Consecutive;
    if k < l {
      BatchesAscend(size, handle, requests, served, upTo, k, l);
    } else if l < k {
      BatchesAscend(size, handle, requests, served, upTo, l, k);
    }
  }

  /** What `Serve` leaves behind over a good run. */
  ghost predicate WellServed(p: Params, s: State, size: Record -> nat, handle: Handle, requests: seq<Request>,
                             served: seq<Served>, replies: seq<Result<nat, CommitError>>) {
    && Consecutive(size, handle, requests, served, |requests|)
    && |replies| == |requests| && AllReplied(served, replies) && LogHas(p, s, served)
  }

  /** Request `n` is in the log at `q`, in the commit of the batch it rode. */
  ghost predicate LoggedAs(p: Params, s: State, served: seq<Served>, n: nat, q: nat) {
    exists k: nat :: Rode(served, k, n) && Committed(s, served[k].a, q) && CommittedAs(p, s, served[k], q)
  }

  lemma BatchFacts(p: Params, s: State, size: Record -> nat, handle: Handle, requests: seq<Request>,
                   served: seq<Served>, replies: seq<Result<nat, CommitError>>, n: nat)
    returns (k: nat)
    requires WellServed(p, s, size, handle, requests, served, replies) && n < |requests|
    ensures Rode(served, k, n) && replies[n] == Reply(served[k].answer) && Told(p, s, served[k])
  {
    hide AllReplied, IsBatch, Told;
    assert served != [] && served[|served| - 1].to == |requests|;
    k := BatchOf(size, handle, requests, served, |requests|, n, |served| - 1);
    ReplyIs(served, replies, k, n);
  }

  /** What a waiter can conclude. Ok: its request is in the log, at the number it was told and nowhere else. A
      refusal or contention: it is not. A failed request: it is there at most once. */
  lemma ReplyTells(p: Params, s: State, size: Record -> nat, handle: Handle, requests: seq<Request>,
                   served: seq<Served>, replies: seq<Result<nat, CommitError>>, n: nat)
    requires WellServed(p, s, size, handle, requests, served, replies) && n < |requests|
    ensures replies[n].Ok? ==> forall q: nat :: LoggedAs(p, s, served, n, q) <==> q == replies[n].value
    ensures replies[n].Err? && replies[n] != Err(StoreFailed) ==> forall q: nat :: !LoggedAs(p, s, served, n, q)
    ensures forall q: nat, r: nat :: LoggedAs(p, s, served, n, q) && LoggedAs(p, s, served, n, r) ==> q == r
  {
    hide WellServed, CommittedAt;
    var k := BatchFacts(p, s, size, handle, requests, served, replies, n);
    forall q: nat ensures LoggedAs(p, s, served, n, q) <==> Committed(s, served[k].a, q) {
      LoggedInBatch(p, s, size, handle, requests, served, replies, n, k, q);
    }
  }

  lemma LoggedInBatch(p: Params, s: State, size: Record -> nat, handle: Handle, requests: seq<Request>,
                      served: seq<Served>, replies: seq<Result<nat, CommitError>>, n: nat, k: nat, q: nat)
    requires WellServed(p, s, size, handle, requests, served, replies) && Rode(served, k, n)
    ensures LoggedAs(p, s, served, n, q) <==> Committed(s, served[k].a, q)
  {
    hide CommittedAt, AllReplied, Consecutive;
    assert Told(p, s, served[k]);
    if LoggedAs(p, s, served, n, q) {
      var l: nat :| Rode(served, l, n) && Committed(s, served[l].a, q);
      OneBatch(size, handle, requests, served, |requests|, k, l, n);
    }
  }

  /** Whatever the replies were, what is in the log stands there in the order it was submitted; two requests share
      a number only if they rode one batch. */
  lemma LoggedInOrder(p: Params, s: State, size: Record -> nat, handle: Handle, requests: seq<Request>,
                      served: seq<Served>, replies: seq<Result<nat, CommitError>>, m: nat, n: nat, q: nat, r: nat)
    requires WellServed(p, s, size, handle, requests, served, replies) && m <= n < |requests|
    requires LoggedAs(p, s, served, m, q) && LoggedAs(p, s, served, n, r)
    ensures q <= r && (q == r ==> exists k: nat :: Rode(served, k, m) && Rode(served, k, n))
  {
    hide Consecutive, AllReplied, Told, CommittedAs, Committed;
    var k: nat :| Rode(served, k, m) && Committed(s, served[k].a, q);
    var l: nat :| Rode(served, l, n) && Committed(s, served[l].a, r);
    if m < n {
      RodeInOrder(size, handle, requests, served, |requests|, k, l, m, n);
    } else {
      OneBatch(size, handle, requests, served, |requests|, k, l, n);
    }
    if k == l {
      ReplyTells(p, s, size, handle, requests, served, replies, m);
      assert LoggedAs(p, s, served, m, r);
      assert Rode(served, k, m) && Rode(served, k, n);
    }
  }

  /** If every reply to a caller's requests is Ok, all of them are in the log, in the order they were submitted,
      whatever other callers' requests came between. */
  lemma WrittenInOrder(p: Params, s: State, size: Record -> nat, handle: Handle, requests: seq<Request>,
                       served: seq<Served>, replies: seq<Result<nat, CommitError>>, mine: seq<nat>)
    requires WellServed(p, s, size, handle, requests, served, replies)
    requires forall i | 0 <= i < |mine| :: mine[i] < |requests| && replies[mine[i]].Ok?
    requires forall i, j | 0 <= i < j < |mine| :: mine[i] < mine[j]
    ensures forall i | 0 <= i < |mine| :: LoggedAs(p, s, served, mine[i], replies[mine[i]].value)
    ensures forall i, j | 0 <= i < j < |mine| :: replies[mine[i]].value <= replies[mine[j]].value
  {
    hide LoggedAs;
    forall i | 0 <= i < |mine| ensures LoggedAs(p, s, served, mine[i], replies[mine[i]].value) {
      ReplyTells(p, s, size, handle, requests, served, replies, mine[i]);
    }
    forall i, j | 0 <= i < j < |mine| ensures replies[mine[i]].value <= replies[mine[j]].value {
      LoggedInOrder(p, s, size, handle, requests, served, replies, mine[i], mine[j],
                    replies[mine[i]].value, replies[mine[j]].value);
    }
  }

  /** An error can stand for a commit: in this run the reply to a won conditional PUT is lost, so the only answer
      the call can be given is the error of a failed request, and its batch is in the log. */
  lemma ErrorIsLogged(p: Params) returns (events: seq<Event>, s: State)
    ensures GuardedRun(p, INIT, events) && s == Run(p, INIT, events)
    ensures forall r :: Answered(s, 1, FirstCall(1), r) <==> r == Err(StoreFailed)
    ensures Committed(s, 1, 0) && Truth(s.log) == map[] && s.log == [Commit(1, 1, [Delete(THE_ID)])]
  {
    hide Step, PrepareCall, Run, GuardedRun;
    var call, batch := FirstCall(1), [Delete(THE_ID)];
    FirstPrepares(p, 1);
    var begin, send := [BeginWrite(1, call), WriterLoad(1)], [WriterPut(1, 1), WriterCas(1, 1)];
    WriteLoads(p, INIT, 1, call);
    var loaded := Run(p, INIT, begin);
    var sent := WriteDecides(p, INIT, loaded, 1, call, 1, 1, TheSchema(1), batch);
    s := LostReply(p, sent, call);
    events := begin + send + [CasReply(1, true)];
    RunConcat(p, INIT, begin, send);
    RunConcat(p, INIT, begin + send, [CasReply(1, true)]);
    PlainIsGuarded(p, INIT, events);
    StoryMeans();
    assert Flat(s.log) == batch + Flat(s.log[1..]);
    assert s.log[1..] == [] && batch + [] == batch;
  }

  lemma LostReply(p: Params, s: State, call: Call) returns (t: State)
    requires 1 in s.actors && s.actors[1].WriteDecided? && s.actors[1].call == call
    ensures t == Run(p, s, [CasReply(1, true)]) && t.log == s.log
    ensures forall r :: Answered(t, 1, call, r) <==> r == Err(StoreFailed)
  {
    RunOne(p, s, CasReply(1, true));
    t := DoCasReply(s, 1, true);
  }

  // ------------------------------------------------------------ settings, request by request

  /** A request answered Ok has its settings in the schema its batch's commit published if and only if they follow
      from what that commit started from; its records are in the log either way. */
  lemma OkSettings(p: Params, s: State, size: Record -> nat, handle: Handle, requests: seq<Request>,
                   served: seq<Served>, replies: seq<Result<nat, CommitError>>, n: nat)
    returns (k: nat, base: Option<Versioned>, token: Token)
    requires WellServed(p, s, size, handle, requests, served, replies)
    requires n < |requests| && replies[n].Ok?
    ensures Rode(served, k, n) && replies[n].value < |s.log| && s.log[replies[n].value].call == served[k].a
    ensures Known(s, base) && Publishes(p, s, base, token, served[k].call, replies[n].value)
    ensures served[k].to <= |requests|
    ensures var batch := requests[served[k].from..served[k].to];
      Grants(s.seen[token].schema, requests[n].config) <==>
      GrantedBy(ManifestOf(base).schema, ConfigOf(batch), RecordsOf(batch), requests[n].config)
  {
    hide AllReplied, LogHas, IsBatch, Grants, GrantedBy, PrepareCall;
    k := BatchFacts(p, s, size, handle, requests, served, replies, n);
    var x := served[k];
    base, token :| Known(s, base) && Publishes(p, s, base, token, x.call, replies[n].value);
    var batch := requests[x.from..x.to];
    assert batch[n - x.from] == requests[n];
    BatchSettings(p, base, handle, batch, n - x.from);
  }

  const TYPED := EMPTY_CONFIG.(types := map["a" := TString])
  const SHARDED := EMPTY_CONFIG.(numShards := Some(4))

  /** Two first writes of a namespace: one declares a type, the other a shard count. */
  const TWO_ASK := [Request(Delete(THE_ID), TYPED), Request(Delete(THE_ID), SHARDED)]

  function TwoCall(): Call {
    Call(0, RecordsOf(TWO_ASK), ConfigOf(TWO_ASK))
  }

  const TYPED_SCHEMA := EMPTY_SCHEMA.(idType := Some(IdUint), attributes := map["a" := TString])

  lemma TwoPrepares(p: Params)
    ensures PrepareCall(p, None, TwoCall()) == Ok((TYPED_SCHEMA, [Delete(THE_ID), Delete(THE_ID)]))
  {
    hide Declare, Absorb;
    assert RecordsOf(TWO_ASK) == [Delete(THE_ID), Delete(THE_ID)];
    assert ConfigOf(TWO_ASK) == TYPED by {
      assert TYPED.types["a"] == TString;
    }
    TypedDeclares();
    var declared := EMPTY_SCHEMA.(attributes := map["a" := TString]);
    DeletesAbsorb(p.host, declared);
  }

  lemma TypedDeclares()
    ensures Declare(EMPTY_SCHEMA, TYPED, false) == Ok(EMPTY_SCHEMA.(attributes := map["a" := TString]))
  {
    var s := EMPTY_SCHEMA;
    assert s.attributes + TYPED.types == map["a" := TString];
    assert s.fts + TYPED.fts == s.fts && s.embed + TYPED.embed == s.embed;
  }

  lemma DeletesAbsorb(h: Host, s: Schema)
    requires s.idType.None?
    ensures Absorb(h, s, [Delete(THE_ID), Delete(THE_ID)]) ==
            Ok((s.(idType := Some(IdUint)), [Delete(THE_ID), Delete(THE_ID)]))
  {
    var d := Delete(THE_ID);
    assert [d, d][1..] == [d] && [d][1..] == [] && [d] + [] == [d] && [d] + [d] == [d, d];
    var t := s.(idType := Some(IdUint));
    assert AbsorbRecord(h, s, d) == Ok((t, d)) && AbsorbRecord(h, t, d) == Ok((t, d));
    assert Absorb(h, t, []) == Ok((t, []));
    assert Absorb(h, t, [d]) == Ok((t, [d]));
  }

  /** Both writes ride one batch and both are answered Ok with number 0; the shard count the second asked for is
      not in the published schema, and nothing says so. */
  lemma OkDropsSettings(p: Params, size: Record -> nat)
    returns (events: seq<Event>, s: State)
    requires size(Delete(THE_ID)) < MAX_BATCH_BYTES
    ensures IsBatch(size, TWO_ASK, 0, 2) && TWO_ASK[0..2] == TWO_ASK
    ensures GuardedRun(p, INIT, events) && s == Run(p, INIT, events)
    ensures Answered(s, 1, TwoCall(), Ok((0, 1))) && s.log == [Commit(1, 1, RecordsOf(TWO_ASK))]
    ensures s.head.Some? && Grants(s.head.value.manifest.schema, TYPED) &&
      !Grants(s.head.value.manifest.schema, SHARDED)
  {
    hide Step, PrepareCall, Run, GuardedRun;
    TwoPrepares(p);
    events := WriteEvents(1, TwoCall(), 1, 1);
    s := WriteRun(p, INIT, 1, TwoCall(), 1, 1, TYPED_SCHEMA, [Delete(THE_ID), Delete(THE_ID)]);
    assert RecordsOf(TWO_ASK) == [Delete(THE_ID), Delete(THE_ID)];
    OneFits(size, TWO_ASK);
  }

  lemma OneFits(size: Record -> nat, batch: seq<Request>)
    requires |batch| == 2 && size(batch[0].record) < MAX_BATCH_BYTES
    ensures IsBatch(size, batch, 0, 2)
  {
    assert batch[0..1][..0] == [];
    assert Bytes(size, batch[0..1]) == size(batch[0].record);
  }
}
