/** What the asynchronous logger promises, for every run of its threads. */
module AsyncLoggerTheorems {
  import opened Common
  import opened Errors
  import opened TextRecord
  import opened SinkList
  import opened AsyncLogger

  ghost predicate Reaches(c: Config, slots: seq<Slot>, clients: nat, acts: seq<Action>, s: State) {
    Leads(c, Init(slots, clients), acts, s)
  }

  lemma ReachedInv(c: Config, slots: seq<Slot>, clients: nat, acts: seq<Action>, s: State)
    requires Reaches(c, slots, clients, acts, s)
    ensures Inv(c, s)
  {
    InitInv(c, slots, clients);
    RunKeeps(c, Init(slots, clients), acts, s);
  }

  /** No record is lost, duplicated or reordered, no buffer outgrows its bound, and
      every failed delivery is counted once. */
  lemma NothingIsLost(c: Config, slots: seq<Slot>, clients: nat, acts: seq<Action>, s: State)
    requires Reaches(c, slots, clients, acts, s)
    ensures s.accepted == s.delivered + Undelivered(s.worker) + s.queue
    ensures |s.queue| <= QUEUE_CAPACITY && |Undelivered(s.worker)| <= QUEUE_CAPACITY
    ensures |s.outcomes| == |s.delivered| && s.failed == |Failed(s.outcomes)|
  {
    ReachedInv(c, slots, clients, acts, s);
    FailuresCount(s.outcomes);
  }

  /** The deliveries that were refused or threw. */
  ghost function Failed(os: seq<Outcome>): set<nat> {
    set k: nat | k < |os| && (os[k] == Threw || os[k] == Returned(false))
  }

  lemma {:induction false} FailuresCount(os: seq<Outcome>)
    ensures Failures(os) == |Failed(os)|
    decreases |os|
  {
    if |os| == 0 {
      assert Failed(os) == {};
    } else {
      var last := |os| - 1;
      FailuresCount(os[..last]);
      assert os[last].Returned? ==> os[last] == Returned(os[last].accepted);
      assert Failed(os) == Failed(os[..last]) + if Fails(os[last]) == 1 then {last} else {};
    }
  }

  /** The records kept are those at the given positions, which are in order and are
      exactly those of the records at accepted levels. */
  ghost predicate Picks(accepts: Level -> bool, es: seq<Entry>, kept: seq<Entry>, at: seq<nat>) {
    && |at| == |kept|
    && (forall j :: 0 <= j < |at| ==> at[j] < |es| && accepts(es[at[j]].level) && kept[j] == es[at[j]])
    && (forall j, k :: 0 <= j < k < |at| ==> at[j] < at[k])
    && (forall k :: 0 <= k < |es| && accepts(es[k].level) ==> k in at)
  }

  lemma PicksMore(accepts: Level -> bool, es: seq<Entry>, kept: seq<Entry>, at: seq<nat>)
    requires |es| > 0 && Picks(accepts, es[..|es| - 1], kept, at)
    ensures var n := |es| - 1;
            if accepts(es[n].level) then Picks(accepts, es, kept + [es[n]], at + [n]) else Picks(accepts, es, kept, at)
  {
    var n := |es| - 1;
    assert forall k :: 0 <= k < n ==> es[..n][k] == es[k];
    var more := if accepts(es[n].level) then at + [n] else at;
    forall k | 0 <= k < |es| && accepts(es[k].level) ensures k in more {
      if k == n { assert more[|at|] == n; } else { assert accepts(es[..n][k].level); }
    }
  }

  /** What passes the filter is what was published at the accepted levels, each record as
      often as it was published, and in that order. */
  lemma {:induction false} FilterKeepsAccepted(accepts: Level -> bool, es: seq<Entry>) returns (at: seq<nat>)
    ensures Picks(accepts, es, Filtered(accepts, es), at)
    decreases |es|
  {
    at := [];
    if |es| > 0 {
      var n := |es| - 1;
      at := FilterKeepsAccepted(accepts, es[..n]);
      PicksMore(accepts, es, Filtered(accepts, es[..n]), at);
      hide Picks;
      assert Filtered(accepts, es) == Filtered(accepts, es[..n]) + if accepts(es[n].level) then [es[n]] else [];
      if accepts(es[n].level) { at := at + [n]; }
    }
  }

  // ------------------------------------------------------------------ calls of write

  function Writing(pc: ClientPc): multiset<Entry> {
    if pc.Enqueue? || pc.AwaitSpace? then multiset{pc.e} else multiset{}
  }

  /** The records of all calls in progress. */
  function InProgress(pcs: seq<ClientPc>): multiset<Entry> {
    if |pcs| == 0 then multiset{} else InProgress(pcs[..|pcs| - 1]) + Writing(pcs[|pcs| - 1])
  }

  /** Every call of `write` has returned true with its record published, has returned
      false because the logger is stopping, or is still in progress. */
  ghost predicate CallsOk(s: State) {
    && multiset(s.started) == multiset(s.published) + multiset(s.refused) + InProgress(s.clients)
    && (s.refused != [] ==> s.stopping)
  }

  lemma {:induction false} ProgressUpdate(pcs: seq<ClientPc>, i: nat, pc: ClientPc)
    requires i < |pcs|
    ensures InProgress(pcs[i := pc]) + Writing(pcs[i]) == InProgress(pcs) + Writing(pc)
    decreases |pcs|
  {
    hide Writing;
    var n, after := |pcs| - 1, pcs[i := pc];
    assert InProgress(after) == InProgress(after[..n]) + Writing(after[n]);
    if i == n {
      assert after[..n] == pcs[..n];
      Swapped(InProgress(pcs[..n]), Writing(pc), Writing(pcs[n]));
    } else {
      ProgressUpdate(pcs[..n], i, pc);
      assert after[..n] == pcs[..n][i := pc];
      BothGain(InProgress(after[..n]), Writing(pcs[i]), InProgress(pcs[..n]), Writing(pc), Writing(pcs[n]));
    }
  }

  lemma Swapped(a: multiset<Entry>, b: multiset<Entry>, c: multiset<Entry>)
    ensures a + b + c == a + c + b
  {
  }

  lemma BothGain(a: multiset<Entry>, b: multiset<Entry>, c: multiset<Entry>, d: multiset<Entry>, more: multiset<Entry>)
    requires a + b == c + d
    ensures a + more + b == c + more + d
  {
    assert a + more + b == (a + b) + more;
    assert c + more + d == (c + d) + more;
  }

  /** The balance of all calls, from the balance before and that of one step. */
  lemma NewBalance(calls: multiset<Entry>, answered: multiset<Entry>, progress: multiset<Entry>, w: multiset<Entry>,
      calls': multiset<Entry>, answered': multiset<Entry>, progress': multiset<Entry>, w': multiset<Entry>)
    requires calls == answered + progress
    requires calls' + answered + w == calls + answered' + w'
    requires progress' + w == progress + w'
    ensures calls' == answered' + progress'
  {
    forall e ensures calls'[e] == (answered' + progress')[e] {
      assert (calls' + answered + w)[e] == (calls + answered' + w')[e];
      assert (progress' + w)[e] == (progress + w')[e];
      assert calls[e] == (answered + progress)[e];
    }
  }

  lemma {:induction false} ProgressNotified(pcs: seq<ClientPc>, space: bool, drain: bool)
    ensures InProgress(Notified(pcs, space, drain)) == InProgress(pcs)
    decreases |pcs|
  {
    if |pcs| > 0 {
      ProgressNotified(pcs[..|pcs| - 1], space, drain);
      assert Notified(pcs, space, drain)[..|pcs| - 1] == Notified(pcs[..|pcs| - 1], space, drain);
    }
  }

  lemma {:induction false} NoneInProgress(pcs: seq<ClientPc>)
    requires forall i :: 0 <= i < |pcs| ==> pcs[i].Idle?
    ensures InProgress(pcs) == multiset{}
    decreases |pcs|
  {
    if |pcs| > 0 { NoneInProgress(pcs[..|pcs| - 1]); }
  }

  lemma CallsWorkerStep(c: Config, s: State)
    requires WorkerEnabled(s) && CallsOk(s)
    ensures CallsOk(WorkerNext(c, s))
  {
    ProgressNotified(s.clients, false, true);
    ProgressNotified(s.clients, true, false);
    hide Publish, InProgress, Notified;
  }

  ghost predicate Balanced(s: State, t: State, i: nat)
    requires i < |s.clients|
  {
    && |t.clients| == |s.clients|
    && multiset(t.started) + (multiset(s.published) + multiset(s.refused)) + Writing(s.clients[i]) ==
       multiset(s.started) + (multiset(t.published) + multiset(t.refused)) + Writing(t.clients[i])
    && (t.refused != s.refused ==> s.stopping) && (s.stopping ==> t.stopping)
  }

  lemma BeginBalance(c: Config, s: State, i: nat, request: Request)
    requires i < |s.clients| && s.clients[i].Idle?
    ensures Balanced(s, Begin(c, s, i, request), i)
  {
    hide Changed;
    if !request.Write? {
      var t := Begin(c, s, i, request);
      assert t.started == s.started && t.published == s.published && Writing(t.clients[i]) == Writing(s.clients[i]);
      hide Writing, Begin;
      QuietBalance(s, t, i);
    } else {
      BeginWrite(c, s, i, request.e);
    }
  }

  lemma BeginWrite(c: Config, s: State, i: nat, e: Entry)
    requires i < |s.clients| && s.clients[i].Idle?
    ensures Balanced(s, Begin(c, s, i, Write(e)), i)
  {
    var t := Begin(c, s, i, Write(e));
    var calls, p, r := multiset(s.started), multiset(s.published), multiset(s.refused);
    assert multiset(t.started) == calls + multiset{e} && t.refused == s.refused && |t.clients| == |s.clients|;
    assert Writing(s.clients[i]) == multiset{} && (s.stopping ==> t.stopping);
    if c.accepts(e.level) {
      assert Writing(t.clients[i]) == multiset{e} && t.published == s.published;
      hide Begin, Writing;
      Started(calls, p + r, multiset{e});
    } else {
      assert Writing(t.clients[i]) == multiset{} && multiset(t.published) == p + multiset{e};
      hide Begin, Writing;
      Filed(calls, p, r, multiset{e});
    }
  }

  lemma Started(calls: multiset<Entry>, answered: multiset<Entry>, e: multiset<Entry>)
    ensures calls + e + answered + multiset{} == calls + answered + e
  {
  }

  lemma Filed(calls: multiset<Entry>, p: multiset<Entry>, r: multiset<Entry>, e: multiset<Entry>)
    ensures calls + e + (p + r) + multiset{} == calls + (p + e + r) + multiset{}
  {
  }

  lemma EnqueueBalance(c: Config, s: State, i: nat, request: Request)
    requires ClientEnabled(s, i) && s.clients[i].Enqueue?
    ensures Balanced(s, ClientNext(c, s, i, request), i)
  {
    var t, e := ClientNext(c, s, i, request), s.clients[i].e;
    var calls, p, r := multiset(s.started), multiset(s.published), multiset(s.refused);
    assert t.started == s.started && |t.clients| == |s.clients| && Writing(s.clients[i]) == multiset{e};
    assert t.stopping == s.stopping && (t.refused != s.refused ==> s.stopping);
    if t.clients[i].AwaitSpace? {
      assert t.published == s.published && t.refused == s.refused && Writing(t.clients[i]) == multiset{e};
      hide ClientNext, Writing;
    } else {
      assert Writing(t.clients[i]) == multiset{};
      assert (multiset(t.published) == p + multiset{e} && t.refused == s.refused) ||
             (t.published == s.published && multiset(t.refused) == r + multiset{e});
      hide ClientNext, Writing;
      Answered(calls, p, r, multiset{e});
    }
  }

  lemma Answered(calls: multiset<Entry>, p: multiset<Entry>, r: multiset<Entry>, e: multiset<Entry>)
    ensures calls + (p + r) + e == calls + (p + e + r) + multiset{} == calls + (p + (r + e)) + multiset{}
  {
  }

  /** A client step answers its call, keeps it in progress or starts one. */
  lemma ClientBalance(c: Config, s: State, i: nat, request: Request)
    requires ClientEnabled(s, i)
    ensures Balanced(s, ClientNext(c, s, i, request), i)
  {
    hide Begin, Notified, Balanced;
    if s.clients[i].Idle? {
      BeginBalance(c, s, i, request);
    } else if s.clients[i].Enqueue? {
      EnqueueBalance(c, s, i, request);
    } else {
      OtherCalls(c, s, i, request);
      QuietBalance(s, ClientNext(c, s, i, request), i);
    }
  }

  lemma QuietBalance(s: State, t: State, i: nat)
    requires i < |s.clients| && |t.clients| == |s.clients| && Writing(t.clients[i]) == Writing(s.clients[i])
    requires t.started == s.started && t.published == s.published && t.refused == s.refused
    requires s.stopping ==> t.stopping
    ensures Balanced(s, t, i)
  {
    hide Writing;
  }

  /** No other step starts or ends a call of `write`. */
  lemma OtherCalls(c: Config, s: State, i: nat, request: Request)
    requires ClientEnabled(s, i) && !s.clients[i].Idle? && !s.clients[i].Enqueue?
    ensures var t := ClientNext(c, s, i, request);
            && |t.clients| == |s.clients| && Writing(t.clients[i]) == Writing(s.clients[i])
            && t.started == s.started && t.published == s.published && t.refused == s.refused
            && (s.stopping ==> t.stopping)
  {
    hide Notified;
  }

  lemma ClientOthers(c: Config, s: State, i: nat, request: Request)
    requires ClientEnabled(s, i)
    ensures var t := ClientNext(c, s, i, request);
            && |t.clients| == |s.clients|
            && var base := if s.clients[i].Stop? then Notified(s.clients, true, false) else s.clients;
               t.clients == base[i := t.clients[i]]
  {
    hide Changed, Notified;
    var t := ClientNext(c, s, i, request);
    if t.clients == s.clients { assert s.clients == s.clients[i := s.clients[i]]; }
  }

  lemma CallsClientStep(c: Config, s: State, i: nat, request: Request)
    requires ClientEnabled(s, i) && CallsOk(s)
    ensures CallsOk(ClientNext(c, s, i, request))
  {
    var t := ClientNext(c, s, i, request);
    ClientBalance(c, s, i, request);
    ClientOthers(c, s, i, request);
    hide ClientNext, InProgress, Notified;
    var base := if s.clients[i].Stop? then Notified(s.clients, true, false) else s.clients;
    ProgressNotified(s.clients, true, false);
    ProgressUpdate(base, i, t.clients[i]);
    assert Writing(base[i]) == Writing(s.clients[i]);
    NewBalance(multiset(s.started), multiset(s.published) + multiset(s.refused), InProgress(s.clients),
               Writing(s.clients[i]), multiset(t.started), multiset(t.published) + multiset(t.refused),
               InProgress(t.clients), Writing(t.clients[i]));
  }

  lemma WakeKeepsCalls(s: State, i: nat)
    requires i < |s.clients| && CallsOk(s)
    ensures CallsOk(SetClient(s, i, WokenClient(s.clients[i], true, true)))
  {
    var pc := WokenClient(s.clients[i], true, true);
    ProgressUpdate(s.clients, i, pc);
    assert Writing(pc) == Writing(s.clients[i]);
    hide InProgress, Writing;
    SameRest(InProgress(s.clients[i := pc]), InProgress(s.clients), Writing(pc));
  }

  lemma SameRest(a: multiset<Entry>, b: multiset<Entry>, c: multiset<Entry>)
    requires a + c == b + c
    ensures a == b
  {
    forall e ensures a[e] == b[e] {
      assert (a + c)[e] == (b + c)[e];
    }
  }

  lemma CallsStep(c: Config, s: State, a: Action)
    requires Enabled(s, a) && CallsOk(s)
    ensures CallsOk(Next(c, s, a))
  {
    hide WorkerNext, ClientNext, InProgress;
    match a
    case WorkerStep => CallsWorkerStep(c, s);
    case ClientStep(i, request) => CallsClientStep(c, s, i, request);
    case WakeWorker =>
    case WakeClient(i) => WakeKeepsCalls(s, i);
  }

  lemma {:induction false} CallsRun(c: Config, s: State, acts: seq<Action>, t: State)
    requires CallsOk(s) && Leads(c, s, acts, t)
    ensures CallsOk(t)
    decreases |acts|
  {
    hide CallsOk;
    if |acts| > 0 {
      CallsStep(c, s, acts[0]);
      CallsRun(c, Next(c, s, acts[0]), acts[1..], t);
    }
  }

  /** No call of `write` gets lost: it returns true only with its record published,
      and false only if the logger is stopping. */
  lemma EveryWriteIsAnswered(c: Config, slots: seq<Slot>, clients: nat, acts: seq<Action>, s: State)
    requires Reaches(c, slots, clients, acts, s)
    ensures multiset(s.started) == multiset(s.published) + multiset(s.refused) + InProgress(s.clients)
    ensures s.refused != [] ==> s.stopping
    ensures s.accepted == Filtered(c.accepts, s.published)
  {
    NoneInProgress(Init(slots, clients).clients);
    CallsRun(c, Init(slots, clients), acts, s);
    ReachedInv(c, slots, clients, acts, s);
  }

  // ------------------------------------------------------------------- monotonicity

  /** What no step undoes. */
  ghost predicate Grows(s: State, t: State) {
    && s.accepted <= t.accepted && s.delivered <= t.delivered
    && (s.stopping ==> t.stopping && t.accepted == s.accepted)
    && (s.worker.Done? ==> t.worker.Done? && t.delivered == s.delivered && t.failed == s.failed && t.calls == s.calls)
  }

  lemma StepGrows(c: Config, s: State, a: Action)
    requires Inv(c, s) && Enabled(s, a)
    ensures Grows(s, Next(c, s, a))
  {
    hide Publish, Changed, Filtered, Failures, Conserved, NoSleeperMissed;
  }

  lemma {:induction false} RunGrows(c: Config, s: State, acts: seq<Action>, t: State)
    requires Inv(c, s) && Leads(c, s, acts, t)
    ensures Grows(s, t) && Inv(c, t)
    decreases |acts|
  {
    hide Inv;
    if |acts| > 0 {
      StepKeeps(c, s, acts[0]);
      StepGrows(c, s, acts[0]);
      RunGrows(c, Next(c, s, acts[0]), acts[1..], t);
    }
  }

  // ------------------------------------------------------------- flush and shutdown

  /** In the next step of thread i, whatever its request, a call of `flush` returns. */
  predicate FlushReturns(c: Config, s: State, i: nat, r: Request) {
    ClientEnabled(s, i) && (s.clients[i].Flush? || (s.clients[i].Idle? && r.CallFlush?)) &&
    |ClientNext(c, s, i, r).clients| == |s.clients| && ClientNext(c, s, i, r).clients[i].Idle?
  }

  /** When a flush returns, everything accepted by then has been delivered, so in
      particular everything accepted before it was called. */
  lemma FlushDelivers(c: Config, slots: seq<Slot>, clients: nat, before: seq<Action>, s: State,
      during: seq<Action>, t: State, i: nat, r: Request)
    requires Reaches(c, slots, clients, before, s) && Leads(c, s, during, t) && FlushReturns(c, t, i, r)
    ensures t.delivered == t.accepted && s.accepted <= t.delivered
  {
    ReachedInv(c, slots, clients, before, s);
    RunGrows(c, s, during, t);
  }

  /** ... and it does return once nothing is left to deliver and no batch is active. */
  lemma FlushReturnsWhenDrained(c: Config, slots: seq<Slot>, clients: nat, acts: seq<Action>, s: State,
      i: nat, r: Request)
    requires Reaches(c, slots, clients, acts, s) && i < |s.clients| && s.clients[i].Flush?
    ensures FlushReturns(c, s, i, r) <==> s.delivered == s.accepted && !s.batchActive
  {
    ReachedInv(c, slots, clients, acts, s);
    var rest := Undelivered(s.worker) + s.queue;
    assert s.accepted == s.delivered + rest;
  }

  /** When the worker has exited, everything ever accepted has been delivered, and
      nothing is accepted or delivered after that. */
  lemma ExitIsFinal(c: Config, slots: seq<Slot>, clients: nat, before: seq<Action>, s: State,
      after: seq<Action>, t: State)
    requires Reaches(c, slots, clients, before, s) && s.worker.Done? && Leads(c, s, after, t)
    ensures s.delivered == s.accepted
    ensures t.worker.Done? && t.accepted == s.accepted && t.delivered == s.delivered
    ensures t.calls == s.calls && t.failed == s.failed
  {
    ReachedInv(c, slots, clients, before, s);
    RunGrows(c, s, after, t);
  }

  /** A shutdown returns only once the worker has exited; from then on it is final. */
  lemma ShutdownDelivers(c: Config, slots: seq<Slot>, clients: nat, acts: seq<Action>, s: State, i: nat)
    requires Reaches(c, slots, clients, acts, s) && ClientEnabled(s, i) && s.clients[i].Joining?
    ensures s.worker.Done? && s.stopping && s.delivered == s.accepted
  {
    ReachedInv(c, slots, clients, acts, s);
  }

  // ------------------------------------------------------------------------ liveness

  /** No lost wake-up on any of the three conditions: whoever sleeps, sleeps on a
      condition that is false, and a thread asleep on space or drain has a worker
      that is awake and can step. */
  lemma NoLostWakeup(c: Config, slots: seq<Slot>, clients: nat, acts: seq<Action>, s: State, i: nat)
    requires Reaches(c, slots, clients, acts, s) && i < |s.clients|
    ensures s.worker.Asleep? ==> !s.stopping && s.queue == []
    ensures s.clients[i].AwaitSpace? ==> !s.stopping && |s.queue| == QUEUE_CAPACITY && WorkerEnabled(s)
    ensures s.clients[i].AwaitDrain? ==> (s.queue != [] || s.batchActive) && WorkerEnabled(s)
  {
    ReachedInv(c, slots, clients, acts, s);
  }

  /** The shutdown lock is held by a thread that is stopping the logger or joining. */
  ghost predicate ShutdownHeld(s: State) {
    s.shutdownLock.Some? ==>
      && s.shutdownLock.value < |s.clients|
      && (s.clients[s.shutdownLock.value].Stop? || s.clients[s.shutdownLock.value].Joining?)
  }

  lemma ClientShutdownHeld(c: Config, s: State, i: nat, r: Request)
    requires ShutdownHeld(s) && ClientEnabled(s, i) && ClientOk(c, s, i)
    ensures ShutdownHeld(ClientNext(c, s, i, r))
  {
    hide Changed, Notified;
    var t := ClientNext(c, s, i, r);
    ClientOthers(c, s, i, r);
    assert t.shutdownLock == if s.clients[i].WantShutdown? then Some(i)
                             else if s.clients[i].Joining? then None else s.shutdownLock;
    assert s.clients[i].WantShutdown? ==> t.clients[i].Stop?;
    assert s.clients[i].Stop? ==> t.clients[i].Joining?;
    hide ClientNext, ClientOk;
    var base := Notified(s.clients, true, false);
    assert forall j :: 0 <= j < |s.clients| ==> base[j] == WokenClient(s.clients[j], true, false);
  }

  lemma StepShutdownHeld(c: Config, s: State, a: Action)
    requires Inv(c, s) && ShutdownHeld(s) && Enabled(s, a)
    ensures ShutdownHeld(Next(c, s, a))
  {
    hide Publish, Conserved, WorkerOk, HistoryOk, NoSleeperMissed;
    match a
    case ClientStep(i, r) => assert ClientOk(c, s, i); ClientShutdownHeld(c, s, i, r); hide ClientNext, Inv;
    case _ => hide Inv;
  }

  lemma {:induction false} RunShutdownHeld(c: Config, s: State, acts: seq<Action>, t: State)
    requires Inv(c, s) && ShutdownHeld(s) && Leads(c, s, acts, t)
    ensures ShutdownHeld(t)
    decreases |acts|
  {
    hide Inv, ShutdownHeld;
    if |acts| > 0 {
      StepShutdownHeld(c, s, acts[0]);
      StepKeeps(c, s, acts[0]);
      RunShutdownHeld(c, Next(c, s, acts[0]), acts[1..], t);
    }
  }

  /** No deadlock: a thread that cannot step waits for the worker, which can, or for a
      shutdown under way, whose thread can step or waits for the worker, which can. */
  lemma ThreadsAreNeverStuck(c: Config, slots: seq<Slot>, clients: nat, acts: seq<Action>, s: State, i: nat)
    requires Reaches(c, slots, clients, acts, s) && i < |s.clients| && !ClientEnabled(s, i)
    ensures WorkerEnabled(s) || (s.shutdownLock.Some? && ClientEnabled(s, s.shutdownLock.value))
  {
    ReachedInv(c, slots, clients, acts, s);
    InitInv(c, slots, clients);
    RunShutdownHeld(c, Init(slots, clients), acts, s);
    assert ClientOk(c, s, i);
    if s.shutdownLock.Some? { assert ClientOk(c, s, s.shutdownLock.value); }
  }

  /** Worker steps left until it exits, once stopping is set. */
  function TestRank(queue: seq<Entry>): nat {
    if queue == [] then 1 else |queue| + 3
  }

  function Rank(s: State): nat {
    match s.worker
    case Done => 0
    case Deliver(batch, next) => Monus(|batch|, next) + 1 + TestRank(s.queue)
    case _ => TestRank(s.queue)
  }

  lemma StepRanks(c: Config, s: State, a: Action)
    requires Inv(c, s) && s.stopping && Enabled(s, a)
    ensures Next(c, s, a).stopping
    ensures Rank(Next(c, s, a)) + (if a.WorkerStep? then 1 else 0) <= Rank(s)
  {
    hide Publish, Changed, Filtered, Failures, Conserved;
  }

  function WorkerSteps(acts: seq<Action>): nat {
    if |acts| == 0 then 0 else (if acts[0].WorkerStep? then 1 else 0) + WorkerSteps(acts[1..])
  }

  lemma {:induction false} RunRanks(c: Config, s: State, acts: seq<Action>, t: State)
    requires Inv(c, s) && s.stopping && Leads(c, s, acts, t)
    ensures WorkerSteps(acts) + Rank(t) <= Rank(s) && Inv(c, t) && t.stopping
    decreases |acts|
  {
    hide Inv, Rank;
    if |acts| > 0 {
      StepKeeps(c, s, acts[0]);
      StepRanks(c, s, acts[0]);
      RunRanks(c, Next(c, s, acts[0]), acts[1..], t);
    }
  }

  /** After stopping is set the worker can step until it has exited, and it has
      exited after at most Rank(s) of its own steps, whatever the others do. */
  lemma DrainIsBounded(c: Config, slots: seq<Slot>, clients: nat, before: seq<Action>, s: State,
      after: seq<Action>, t: State)
    requires Reaches(c, slots, clients, before, s) && s.stopping && Leads(c, s, after, t)
    ensures WorkerSteps(after) <= Rank(s)
    ensures !t.worker.Done? ==> WorkerEnabled(t)
    ensures WorkerSteps(after) == Rank(s) ==> t.worker.Done?
  {
    ReachedInv(c, slots, clients, before, s);
    RunRanks(c, s, after, t);
  }

  // ------------------------------------------------------- asynchronous = synchronous

  /** The synchronous logger over the same sinks: list, calls and results so far. */
  datatype Sync = Sync(slots: seq<Slot>, calls: seq<SinkList.Call>, outcomes: seq<Outcome>)

  function SyncWrite(c: Config, y: Sync, e: Entry): Sync {
    var d := Publish(c.accepts, c.sinks, y.calls, y.slots, e);
    Sync(d.slots, d.calls, y.outcomes + [d.outcome])
  }

  /** The synchronous logger given a sequence of records. */
  function SyncRun(c: Config, slots: seq<Slot>, es: seq<Entry>): Sync {
    if |es| == 0 then Sync(slots, [], [])
    else SyncWrite(c, SyncRun(c, slots, es[..|es| - 1]), es[|es| - 1])
  }

  predicate FixedList(acts: seq<Action>) {
    forall k :: 0 <= k < |acts| && acts[k].ClientStep? ==> !acts[k].request.ChangeSinks?
  }

  /** The backend is where the synchronous logger would be after the delivered records. */
  ghost predicate BackendInStep(c: Config, slots: seq<Slot>, s: State) {
    SyncRun(c, slots, s.delivered) == Sync(s.slots, s.calls, s.outcomes)
  }

  lemma StepInStep(c: Config, slots: seq<Slot>, s: State, a: Action)
    requires Enabled(s, a) && (a.ClientStep? ==> !a.request.ChangeSinks?) && BackendInStep(c, slots, s)
    ensures BackendInStep(c, slots, Next(c, s, a))
  {
    hide Publish;
    var t := Next(c, s, a);
    if t.delivered != s.delivered {
      assert t.delivered[..|s.delivered|] == s.delivered;
    }
  }

  lemma {:induction false} RunInStep(c: Config, slots: seq<Slot>, s: State, acts: seq<Action>, t: State)
    requires Leads(c, s, acts, t) && FixedList(acts) && BackendInStep(c, slots, s)
    ensures BackendInStep(c, slots, t)
    decreases |acts|
  {
    hide BackendInStep, SyncRun;
    if |acts| > 0 {
      StepInStep(c, slots, s, acts[0]);
      RunInStep(c, slots, Next(c, s, acts[0]), acts[1..], t);
    }
  }

  lemma FailuresPush(os: seq<Outcome>, o: Outcome)
    ensures Failures(os + [o]) == Failures(os) + Fails(o)
  {
    assert (os + [o])[..|os|] == os;
  }

  lemma SyncRunPush(c: Config, slots: seq<Slot>, es: seq<Entry>, e: Entry)
    ensures SyncRun(c, slots, es + [e]) == SyncWrite(c, SyncRun(c, slots, es), e)
  {
    assert (es + [e])[..|es|] == es;
  }

  /** Same list, same calls, and as many failures. */
  predicate Alike(y: Sync, z: Sync) {
    y.slots == z.slots && y.calls == z.calls && Failures(y.outcomes) == Failures(z.outcomes)
  }

  lemma WriteAlike(c: Config, y: Sync, z: Sync, e: Entry)
    requires Alike(y, z)
    ensures Alike(SyncWrite(c, y, e), SyncWrite(c, z, e))
    ensures !c.accepts(e.level) ==> Alike(SyncWrite(c, y, e), z)
  {
    var o := Publish(c.accepts, c.sinks, y.calls, y.slots, e).outcome;
    FailuresPush(y.outcomes, o);
    FailuresPush(z.outcomes, o);
    hide Failures, Broadcast;
  }

  lemma FilterNothing(c: Config, slots: seq<Slot>, es: seq<Entry>)
    requires es == []
    ensures Alike(SyncRun(c, slots, es), SyncRun(c, slots, Filtered(c.accepts, es)))
  {
    assert Filtered(c.accepts, es) == es;
    hide SyncRun;
  }

  lemma FilterStep(c: Config, slots: seq<Slot>, init: seq<Entry>, e: Entry)
    requires Alike(SyncRun(c, slots, init), SyncRun(c, slots, Filtered(c.accepts, init)))
    ensures Alike(SyncRun(c, slots, init + [e]), SyncRun(c, slots, Filtered(c.accepts, init + [e])))
  {
    hide SyncRun, SyncWrite, Filtered, Alike;
    var kept := Filtered(c.accepts, init);
    FilteredPush(c.accepts, init, e);
    SyncRunPush(c, slots, init, e);
    SyncRunPush(c, slots, kept, e);
    WriteAlike(c, SyncRun(c, slots, init), SyncRun(c, slots, kept), e);
  }

  /** Filtering once more, or once less, reaches the same sinks with the same results. */
  lemma {:induction false} FilteringTwiceIsOnce(c: Config, slots: seq<Slot>, es: seq<Entry>)
    ensures Alike(SyncRun(c, slots, es), SyncRun(c, slots, Filtered(c.accepts, es)))
    decreases |es|
  {
    hide SyncRun, Filtered, Alike;
    if |es| == 0 {
      FilterNothing(c, slots, es);
    } else {
      var init := es[..|es| - 1];
      FilteringTwiceIsOnce(c, slots, init);
      FilterStep(c, slots, init, es[|es| - 1]);
      assert es == init + [es[|es| - 1]];
    }
  }

  /** At every moment the sinks have been called as by the synchronous logger on a
      prefix of the accepted records; once all are delivered, as on everything that
      was published, with the same number of failures. Callbacks may refuse, throw,
      and attach or detach sinks. */
  lemma AsyncRefinesSync(c: Config, slots: seq<Slot>, clients: nat, acts: seq<Action>, s: State)
    requires Reaches(c, slots, clients, acts, s) && FixedList(acts)
    ensures s.delivered <= s.accepted && SyncRun(c, slots, s.delivered).calls == s.calls
    ensures s.delivered == s.accepted ==>
              var y := SyncRun(c, slots, s.published);
              s.calls == y.calls && s.slots == y.slots && s.failed == Failures(y.outcomes)
  {
    ReachedInv(c, slots, clients, acts, s);
    RunInStep(c, slots, Init(slots, clients), acts, s);
    FilteringTwiceIsOnce(c, slots, s.published);
  }

  /** What one sink receives, in order. */
  function ReceivedBy(calls: seq<SinkList.Call>, sink: nat): seq<Entry> {
    if |calls| == 0 then []
    else
      ReceivedBy(calls[..|calls| - 1], sink) +
      if calls[|calls| - 1].sink == sink then [calls[|calls| - 1].entry] else []
  }

  /** After a flush each sink has received what the synchronous logger gives it. */
  lemma FlushMeansSynchronous(c: Config, slots: seq<Slot>, clients: nat, acts: seq<Action>, s: State,
      i: nat, r: Request, sink: nat)
    requires Reaches(c, slots, clients, acts, s) && FixedList(acts) && FlushReturns(c, s, i, r)
    ensures ReceivedBy(s.calls, sink) == ReceivedBy(SyncRun(c, slots, s.published).calls, sink)
  {
    FlushDelivers(c, slots, clients, acts, s, [], s, i, r);
    AsyncRefinesSync(c, slots, clients, acts, s);
  }
}
