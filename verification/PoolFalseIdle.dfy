/** Exactly when `wait` may be trusted. The active field has 11 bits, but up to
    1024 workers may hold up to 16 bulk tasks each. */
module PoolFalseIdle {
  import opened Common
  import opened PackedState
  import opened PoolMachine
  import opened PoolInvariant
  import opened PoolWorkerSteps
  import opened PoolClientSteps
  import opened PoolRefinement
  import opened PoolCompletion

  /** Reachable states are closed under steps, and satisfy the invariant. */
  lemma Reach(c: Config, s: State, a: Action)
    requires ValidConfig(c) && Reachable(c, s) && Enabled(c, s, a)
    ensures Reachable(c, Next(c, s, a)) && Inv(c, s) && Inv(c, Next(c, s, a))
  {
    hide Inv, Next, Enabled;
    var acts :| Leads(c, Init(c), acts, s);
    LeadsAppend(c, Init(c), acts, s, a);
    ReachableInv(c, s);
    StepKeeps(c, s, a);
  }

  // ---------------------------------------------------------------- the schedule

  const FILLER: Item := Item(0, false, true)

  /** A stage of the schedule: client 0 is at `cpc`, worker j at `wpc`, earlier
      workers hold unsettled batches, later ones and other clients are at rest. */
  ghost predicate Scene(c: Config, s: State, j: nat, p: nat, n: nat, cpc: ClientPc, wpc: WorkerPc) {
    && ValidConfig(c) && Reachable(c, s)
    && |s.workers| == c.workers && |s.clients| == c.clients && 0 < |s.clients| && j < |s.workers|
    && s.clients[0] == cpc && s.workers[j] == wpc
    && (forall i :: 0 < i < |s.clients| ==> s.clients[i] == Ready)
    && (forall w :: 0 <= w < j ==> s.workers[w].Run? && s.workers[w].next == 0)
    && (forall w :: j < w < |s.workers| ==> s.workers[w] == Top)
    && PendingOf(s.word) == p && !IsStopping(s.word) && Sum(Held, s.workers) == n
    && (forall t :: 0 <= t < |s.written| ==> s.written[t].item.bulk)
  }

  /** In a scene the locks are free unless one of its two actors holds them. */
  lemma SceneLocks(c: Config, s: State, j: nat, p: nat, n: nat, cpc: ClientPc, wpc: WorkerPc)
    requires Scene(c, s, j, p, n, cpc, wpc)
    ensures Inv(c, s)
    ensures !HoldsProducer(cpc) ==> s.producerLock == None
    ensures HoldsProducer(cpc) ==> s.producerLock == Some(0)
    ensures !HoldsBoth(cpc) && !WorkerHolds(wpc) ==> s.consumerLock == None
    ensures WorkerHolds(wpc) ==> s.consumerLock == Some(Worker(j))
  {
    ReachableInv(c, s);
    hide RingOk, CountOk, ThreadsOk, FatesOk, WaitOk;
  }

  /** One client step that leaves the word, the workers and the history alone. */
  lemma ClientTurn(c: Config, s: State, j: nat, p: nat, n: nat, cpc: ClientPc, wpc: WorkerPc,
                   r: Request, next: ClientPc) returns (t: State)
    requires Scene(c, s, j, p, n, cpc, wpc) && ClientEnabled(c, s, 0, r)
    requires ClientNext(c, s, 0, r).clients == s.clients[0 := next]
    requires ClientNext(c, s, 0, r).word == s.word && ClientNext(c, s, 0, r).workers == s.workers
    requires ClientNext(c, s, 0, r).written == s.written
    ensures Scene(c, t, j, p, n, next, wpc)
  {
    hide Reachable, Inv, Sum, PendingOf, IsStopping;
    t := ClientNext(c, s, 0, r);
    assert t == Next(c, s, ClientStep(0, r));
    hide ClientNext;
    Reach(c, s, ClientStep(0, r));
  }

  /** One worker step that leaves the word, the counts and the history of writes alone. */
  lemma WorkerTurn(c: Config, s: State, j: nat, p: nat, n: nat, cpc: ClientPc, wpc: WorkerPc, next: WorkerPc)
      returns (t: State)
    requires Scene(c, s, j, p, n, cpc, wpc) && WorkerEnabled(s, j) && Held(next) == Held(wpc)
    requires WorkerNext(c, s, j, Threw).workers == s.workers[j := next]
    requires WorkerNext(c, s, j, Threw).word == s.word && WorkerNext(c, s, j, Threw).clients == s.clients
    requires WorkerNext(c, s, j, Threw).written == s.written
    ensures Scene(c, t, j, p, n, cpc, next)
  {
    hide Reachable, Inv, Sum, PendingOf, IsStopping;
    t := WorkerNext(c, s, j, Threw);
    assert t == Next(c, s, WorkerStep(j, Threw));
    hide WorkerNext;
    SumUpdate(Held, s.workers, j, next);
    Reach(c, s, WorkerStep(j, Threw));
  }

  function Batch(k: nat): (r: seq<Item>)
    ensures |r| == k && forall x | x in r :: x == FILLER
  {
    seq(k, i => FILLER)
  }

  /** Client 0 submits k bulk tasks ... */
  lemma Submit(c: Config, s: State, j: nat, n: nat, k: nat) returns (t: State)
    requires Scene(c, s, j, 0, n, Ready, Top) && 0 < k <= MaxClaim(c)
    ensures Scene(c, t, j, 0, n, AcquireP(Job(Batch(k), [])), Top)
  {
    hide Reachable;
    t := ClientTurn(c, s, j, 0, n, Ready, Top, DispatchBulk(Batch(k)), Space(Job(Batch(k), [])));
    t := ClientTurn(c, t, j, 0, n, Space(Job(Batch(k), [])), Top, Wait, AcquireP(Job(Batch(k), [])));
  }

  /** ... takes the producer lock ... */
  lemma Lock(c: Config, s: State, j: nat, n: nat, job: Job) returns (t: State)
    requires Scene(c, s, j, 0, n, AcquireP(job), Top)
    ensures Scene(c, t, j, 0, n, LoadP(job), Top)
  {
    hide Reachable, Inv;
    SceneLocks(c, s, j, 0, n, AcquireP(job), Top);
    t := ClientTurn(c, s, j, 0, n, AcquireP(job), Top, Wait, LoadP(job));
  }

  /** ... reserves room for all of them ... */
  lemma Reserve(c: Config, s: State, j: nat, n: nat, job: Job) returns (t: State)
    requires Scene(c, s, j, 0, n, LoadP(job), Top) && 0 < |job.items| <= MaxClaim(c) && job.tickets == []
    ensures Scene(c, t, j, 0, n, Write(job, |job.items|, 0), Top)
  {
    hide Reachable, Inv;
    t := ClientTurn(c, s, j, 0, n, LoadP(job), Top, Wait, Write(job, |job.items|, 0));
  }

  lemma FillOne(c: Config, s: State, j: nat, n: nat, job: Job, k: nat, u: nat) returns (t: State, job': Job)
    requires Scene(c, s, j, 0, n, Write(job, k, u), Top) && u < k
    requires |job.items| == k && |job.tickets| == u && forall x | x in job.items :: x == FILLER
    ensures Scene(c, t, j, 0, n, Write(job', k, u + 1), Top)
    ensures job'.items == job.items && |job'.tickets| == u + 1
  {
    hide Inv, Reachable;
    SceneLocks(c, s, j, 0, n, Write(job, k, u), Top);
    WriteReady(c, s, 0);
    Reach(c, s, ClientStep(0, Wait));
    t := WriteSlot(c, s, 0);
    assert t == Next(c, s, ClientStep(0, Wait));
    assert job.items[u] in job.items;
    job' := Job(job.items, job.tickets + [|s.written|]);
  }

  /** ... writes them ... */
  lemma {:induction false} Fill(c: Config, s: State, j: nat, n: nat, job: Job, k: nat, u: nat)
      returns (t: State, last: Job)
    requires Scene(c, s, j, 0, n, Write(job, k, u), Top) && u <= k
    requires |job.items| == k && |job.tickets| == u && forall x | x in job.items :: x == FILLER
    ensures Scene(c, t, j, 0, n, Write(last, k, k), Top) && |last.items| == |last.tickets| == k
    decreases k - u
  {
    hide Scene;
    if u == k {
      return s, job;
    }
    var a, job' := FillOne(c, s, j, n, job, k, u);
    t, last := Fill(c, a, j, n, job', k, u + 1);
  }

  /** ... publishes them ... */
  lemma Publish(c: Config, s: State, j: nat, n: nat, job: Job, k: nat) returns (t: State)
    requires Scene(c, s, j, 0, n, Write(job, k, k), Top)
    ensures Scene(c, t, j, k, n, ReleaseP(job), Top)
  {
    hide Inv, Reachable;
    SceneLocks(c, s, j, 0, n, Write(job, k, k), Top);
    PublishWritesWord(c, s, 0);
    t := PublishWrites(s, 0);
    assert t == Next(c, s, ClientStep(0, Wait));
    Reach(c, s, ClientStep(0, Wait));
  }

  /** ... and returns. */
  lemma Return(c: Config, s: State, j: nat, n: nat, job: Job, k: nat) returns (t: State)
    requires Scene(c, s, j, k, n, ReleaseP(job), Top) && |job.items| == |job.tickets|
    ensures Scene(c, t, j, k, n, Ready, Top)
  {
    hide Reachable;
    t := ClientTurn(c, s, j, k, n, ReleaseP(job), Top, Wait, Submitted(job, false));
    t := ClientTurn(c, t, j, k, n, Submitted(job, false), Top, Wait, Ready);
  }

  /** Worker j sees k pending bulk tasks ... */
  lemma Approach(c: Config, s: State, j: nat, n: nat, k: nat) returns (t: State, base: nat)
    requires Scene(c, s, j, k, n, Ready, Top) && 0 < k
    ensures Scene(c, t, j, k, n, Ready, Claim(true, k, base, []))
  {
    hide Reachable;
    t := WorkerTurn(c, s, j, k, n, Ready, Top, AcquireC);
    SceneLocks(c, t, j, k, n, Ready, AcquireC);
    hide Inv;
    t := WorkerTurn(c, t, j, k, n, Ready, AcquireC, LoadC);
    SceneLocks(c, t, j, k, n, Ready, LoadC);
    LoadFindsItem(c, t, j);
    HeadIsBulk(c, t);
    base := |t.removed|;
    t := WorkerTurn(c, t, j, k, n, Ready, LoadC, Claim(true, k, base, []));
  }

  lemma HeadIsBulk(c: Config, s: State)
    requires Inv(c, s) && HeadItem(s).Some?
    requires forall t :: 0 <= t < |s.written| ==> s.written[t].item.bulk
    ensures HeadItem(s).value.bulk
  {
    if |s.removed| < |s.written| { HeadFull(c, s); }
  }

  lemma DrainOne(c: Config, s: State, j: nat, n: nat, k: nat, base: nat, batch: seq<Item>)
      returns (t: State, batch': seq<Item>)
    requires Scene(c, s, j, k, n, Ready, Claim(true, k, base, batch)) && |batch| < k <= MaxClaim(c)
    ensures Scene(c, t, j, k, n, Ready, Claim(true, k, base, batch')) && |batch'| == |batch| + 1
  {
    hide Inv, Reachable;
    SceneLocks(c, s, j, k, n, Ready, Claim(true, k, base, batch));
    if HeadItem(s).Some? { HeadIsBulk(c, s); }
    TakeReady(c, s, j);
    batch' := batch + [HeadItem(s).value];
    t := WorkerTurn(c, s, j, k, n, Ready, Claim(true, k, base, batch), Claim(true, k, base, batch'));
  }

  /** ... takes all of them ... */
  lemma {:induction false} Drain(c: Config, s: State, j: nat, n: nat, k: nat, base: nat, batch: seq<Item>)
      returns (t: State, full: seq<Item>)
    requires Scene(c, s, j, k, n, Ready, Claim(true, k, base, batch)) && |batch| <= k <= MaxClaim(c)
    ensures Scene(c, t, j, k, n, Ready, Claim(true, k, base, full)) && |full| == k
    decreases k - |batch|
  {
    hide Scene;
    if |batch| == k {
      return s, batch;
    }
    var a, batch' := DrainOne(c, s, j, n, k, base, batch);
    t, full := Drain(c, a, j, n, k, base, batch');
  }

  /** ... publishes its claim ... */
  lemma Hold(c: Config, s: State, j: nat, n: nat, k: nat, base: nat, batch: seq<Item>) returns (t: State)
    requires Scene(c, s, j, k, n, Ready, Claim(true, k, base, batch)) && 0 < |batch| == k <= MaxClaim(c)
    ensures Scene(c, t, j, 0, n + k, Ready, ReleaseC(base, batch))
  {
    hide Inv, Reachable;
    SceneLocks(c, s, j, k, n, Ready, Claim(true, k, base, batch));
    PublishReady(c, s, j);
    PublishWord(c, s, j);
    t := PublishClaim(s, j);
    assert t == Next(c, s, WorkerStep(j, Threw));
    Reach(c, s, WorkerStep(j, Threw));
  }

  /** ... and starts on its batch. */
  lemma Begin(c: Config, s: State, j: nat, n: nat, base: nat, batch: seq<Item>) returns (t: State)
    requires Scene(c, s, j, 0, n, Ready, ReleaseC(base, batch))
    ensures Scene(c, t, j, 0, n, Ready, Run(base, batch, 0))
  {
    hide Reachable;
    t := WorkerTurn(c, s, j, 0, n, Ready, ReleaseC(base, batch), Run(base, batch, 0));
  }

  /** One more worker can be given k tasks, for any k up to the claim limit. */
  lemma Occupy(c: Config, s: State, j: nat, n: nat, k: nat) returns (t: State, base: nat, batch: seq<Item>)
    requires Scene(c, s, j, 0, n, Ready, Top) && 0 < k <= MaxClaim(c)
    ensures Scene(c, t, j, 0, n + k, Ready, Run(base, batch, 0))
  {
    hide Scene;
    t := Submit(c, s, j, n, k);
    t := Lock(c, t, j, n, Job(Batch(k), []));
    t := Reserve(c, t, j, n, Job(Batch(k), []));
    var job;
    t, job := Fill(c, t, j, n, Job(Batch(k), []), k, 0);
    t := Publish(c, t, j, n, job, k);
    t := Return(c, t, j, n, job, k);
    t, base := Approach(c, t, j, n, k);
    t, batch := Drain(c, t, j, n, k, base, []);
    t := Hold(c, t, j, n, k, base, batch);
    t := Begin(c, t, j, n + k, base, batch);
  }

  /** Every count of unfinished, unsettled tasks that the workers can hold between
      them is reachable with nothing pending. */
  lemma {:induction false} AnyActiveCount(c: Config, j: nat, n: nat) returns (s: State, wpc: WorkerPc)
    requires ValidConfig(c) && c.clients > 0 && j < c.workers
    requires j * MaxClaim(c) < n <= (j + 1) * MaxClaim(c)
    ensures Scene(c, s, j, 0, n, Ready, wpc) && wpc.Run? && wpc.next == 0
    decreases j
  {
    var m := MaxClaim(c);
    var base, batch;
    if j == 0 {
      s := Init(c);
      StartScene(c);
      s, base, batch := Occupy(c, s, 0, 0, n);
    } else {
      assert (j - 1) * m + m == j * m && j * m + m == (j + 1) * m;
      s, wpc := AnyActiveCount(c, j - 1, j * m);
      assert Scene(c, s, j, 0, j * m, Ready, Top);
      s, base, batch := Occupy(c, s, j, j * m, n - j * m);
    }
    wpc := Run(base, batch, 0);
  }

  lemma StartScene(c: Config)
    requires ValidConfig(c) && c.clients > 0
    ensures Scene(c, Init(c), 0, 0, 0, Ready, Top)
  {
    assert Leads(c, Init(c), [], Init(c));
    SumZero(Held, Init(c).workers);
    Decode(0, 0, false);
  }

  /** A claimed task that has not finished. */
  ghost predicate SomeRunning(s: State) {
    exists t :: 0 <= t < |s.removed| && s.removed[t].fate.Running?
  }

  /** With 2048 tasks active the word looks idle although none of them has finished. */
  lemma FalseIdle(c: Config) returns (s: State)
    requires ValidConfig(c) && c.clients > 0 && c.workers * MaxClaim(c) >= COUNT_RANGE
    ensures Reachable(c, s) && LooksIdle(s.word) && SomeRunning(s)
    ensures |s.clients| > 0 && s.clients[0].Ready?
  {
    var j := LastWorker(c.workers, MaxClaim(c));
    var wpc;
    s, wpc := AnyActiveCount(c, j, COUNT_RANGE);
    SceneLocks(c, s, j, 0, COUNT_RANGE, Ready, wpc);
    Decode(0, COUNT_RANGE, false);
    assert s.word == Encode(0, COUNT_RANGE, false);
    assert WorkerOk(c, s.word, s.written, s.removed, j, wpc);
    assert s.removed[wpc.base].fate.Running?;
  }

  /** The worker whose batch brings the total to 2048. */
  lemma LastWorker(workers: nat, m: nat) returns (j: nat)
    requires 1 <= m <= 16 && workers * m >= COUNT_RANGE
    ensures j < workers && j * m < COUNT_RANGE <= (j + 1) * m
  {
    j := (COUNT_RANGE - 1) / m;
    assert j * m <= COUNT_RANGE - 1 < j * m + m == (j + 1) * m;
    if j >= workers {
      ProductBound(workers, m, j, m);
      assert false;
    }
  }

  /** The test at the head of the loop in `wait` that ends the call. */
  predicate WaitReturns(s: State, i: nat) {
    i < |s.clients| && s.clients[i].IdleFirst? && LooksIdle(s.word)
  }

  /** A thread that calls `wait` in such a state comes back at once. */
  lemma EarlyReturn(c: Config) returns (s: State)
    requires ValidConfig(c) && c.clients > 0 && c.workers * MaxClaim(c) >= COUNT_RANGE
    ensures Reachable(c, s) && WaitReturns(s, 0) && SomeRunning(s)
  {
    var idle := FalseIdle(c);
    Reach(c, idle, ClientStep(0, Wait));
    s := ClientNext(c, idle, 0, Wait);
    hide Inv, Reachable, LooksIdle;
    assert s.removed == idle.removed;
  }

  /** `wait` is sound for a pool exactly when workers times the claim limit, which is
      the smaller of 16 and the capacity, stays below 2048: only then does every
      return of `wait` find every accepted task finished or cancelled. */
  lemma WaitIsSoundExactly(c: Config)
    requires ValidConfig(c) && c.clients > 0
    ensures (forall s, i: nat :: Reachable(c, s) && WaitReturns(s, i) ==> AllSettled(s))
            <==> c.workers * MaxClaim(c) < COUNT_RANGE
  {
    hide Inv, LooksIdle, Reachable;
    if c.workers * MaxClaim(c) < COUNT_RANGE {
      forall s, i: nat | Reachable(c, s) && WaitReturns(s, i) ensures AllSettled(s) {
        ReachableInv(c, s);
        IdleIsSound(c, s);
      }
    } else {
      var s := EarlyReturn(c);
      assert WaitReturns(s, 0) && !AllSettled(s);
    }
  }

  /** The tightest failing configuration: 128 workers and a queue of at least 16. */
  lemma OneHundredTwentyEightWorkers(c: Config)
    requires ValidConfig(c) && c.clients > 0 && c.capacity >= 16
    ensures c.workers * MaxClaim(c) < COUNT_RANGE <==> c.workers <= 127
  {
  }
}
