/** Shutdown: nothing is accepted after the stopping bit is set, the workers leave
    only an empty queue behind, and they all leave after finitely many steps. */
module PoolDrain {
  import opened Common
  import opened PackedState
  import opened PoolMachine
  import opened PoolInvariant
  import opened PoolWorkerSteps
  import opened PoolClientSteps
  import opened PoolRefinement
  import opened PoolCompletion

  // -------------------------------------------------------------------- safety

  /** Once stopping, always stopping; no slot is written; pending only falls; and
      pending and active move only as finishing, claiming and cancelling do. */
  ghost predicate Draining(s: State, t: State) {
    && IsStopping(t.word)
    && t.written == s.written
    && PendingOf(t.word) <= PendingOf(s.word)
    && 2 * PendingOf(t.word) + Sum(Held, t.workers) <= 2 * PendingOf(s.word) + Sum(Held, s.workers)
  }

  lemma ClientDrains(c: Config, s: State, i: nat, r: Request)
    requires Inv(c, s) && IsStopping(s.word) && ClientEnabled(c, s, i, r)
    ensures Draining(s, ClientNext(c, s, i, r)) && ClientNext(c, s, i, r).workers == s.workers
  {
    hide RingOk, LocksOk, CountOk, FatesOk, WaitOk;
    assert ClientOk(c, s.word, s.written, |s.removed|, i, s.clients[i]);
    hide ThreadsOk;
    var pc := s.clients[i];
    if pc.Cancel? && pc.left == 0 {
      CancelDoneWord(c, s, i);
    } else if pc.SetStop? {
      SetStopWord(c, s);
    } else {
      ClientWordSame(c, s, i, r);
    }
  }

  lemma ClientWordSame(c: Config, s: State, i: nat, r: Request)
    requires ClientEnabled(c, s, i, r) && !s.clients[i].Write? && !s.clients[i].SetStop?
    requires s.clients[i].Cancel? ==> s.clients[i].left > 0
    ensures var t := ClientNext(c, s, i, r); t.word == s.word && t.written == s.written && t.workers == s.workers
  {
  }

  /** What a worker step does to the counts. */
  lemma WorkerCounts(c: Config, s: State, w: nat, o: Outcome)
    requires Inv(c, s) && WorkerEnabled(s, w)
    ensures var t := WorkerNext(c, s, w, o);
            && t.written == s.written && IsStopping(t.word) == IsStopping(s.word)
            && |t.workers| == |s.workers| && t.workers == s.workers[w := t.workers[w]]
            && if s.workers[w].Claim? && !WantsMore(s, s.workers[w]) then
                 PendingOf(t.word) < PendingOf(s.word) &&
                 PendingOf(t.word) + Sum(Held, t.workers) == PendingOf(s.word) + Sum(Held, s.workers)
               else if s.workers[w].Run? && s.workers[w].next == |s.workers[w].batch| then
                 PendingOf(t.word) == PendingOf(s.word) && Sum(Held, t.workers) < Sum(Held, s.workers)
               else
                 PendingOf(t.word) == PendingOf(s.word) && Sum(Held, t.workers) == Sum(Held, s.workers)
  {
    hide RingOk, LocksOk, CountOk, FatesOk, WaitOk;
    var pc := s.workers[w];
    assert WorkerOk(c, s.word, s.written, s.removed, w, pc);
    hide ThreadsOk;
    if pc.Claim? && !WantsMore(s, pc) {
      PublishReady(c, s, w);
      PublishWord(c, s, w);
    } else if pc.Run? && pc.next == |pc.batch| {
      FinishWord(c, s, w);
    } else {
      WorkerCountsPlain(c, s, w, o);
    }
  }

  lemma WorkerCountsPlain(c: Config, s: State, w: nat, o: Outcome)
    requires Inv(c, s) && WorkerEnabled(s, w)
    requires s.workers[w].Claim? ==> WantsMore(s, s.workers[w])
    requires s.workers[w].Run? ==> s.workers[w].next < |s.workers[w].batch|
    ensures var t := WorkerNext(c, s, w, o);
            && t.written == s.written && t.word == s.word
            && |t.workers| == |s.workers| && t.workers == s.workers[w := t.workers[w]]
            && Sum(Held, t.workers) == Sum(Held, s.workers)
  {
    var t := WorkerNext(c, s, w, o);
    hide Inv;
    PlainMove(c, s, w, o);
    hide WorkerNext;
    SumUpdate(Held, s.workers, w, t.workers[w]);
  }

  lemma PlainMove(c: Config, s: State, w: nat, o: Outcome)
    requires WorkerEnabled(s, w)
    requires s.workers[w].Claim? ==> WantsMore(s, s.workers[w])
    requires s.workers[w].Run? ==> s.workers[w].next < |s.workers[w].batch|
    ensures var t := WorkerNext(c, s, w, o);
            && t.written == s.written && t.word == s.word && |t.workers| == |s.workers|
            && t.workers == s.workers[w := t.workers[w]] && Held(t.workers[w]) == Held(s.workers[w])
  {
    hide FetchAdd, FetchSub, LooksIdle, IsStopping, PendingOf, ActiveOf, Wake;
  }

  lemma StopIsFinal(c: Config, s: State, a: Action)
    requires Inv(c, s) && Enabled(c, s, a) && IsStopping(s.word)
    ensures Draining(s, Next(c, s, a))
  {
    hide Inv;
    match a
    case WorkerStep(w, o) => WorkerCounts(c, s, w, o);
    case ClientStep(i, r) => ClientDrains(c, s, i, r);
  }

  /** Over any run after the stopping bit is set, nothing more is accepted. */
  lemma {:induction false} NothingAcceptedAfterStop(c: Config, s: State, acts: seq<Action>, t: State)
    requires Inv(c, s) && Leads(c, s, acts, t) && IsStopping(s.word)
    ensures Draining(s, t)
    decreases |acts|
  {
    hide Inv;
    if |acts| > 0 {
      StopIsFinal(c, s, acts[0]);
      StepKeeps(c, s, acts[0]);
      NothingAcceptedAfterStop(c, Next(c, s, acts[0]), acts[1..], t);
    }
  }

  /** After one worker has exited, the queue is empty and stays empty. */
  lemma ExitMeansEmptyForever(c: Config, s: State, w: nat, acts: seq<Action>, t: State)
    requires Inv(c, s) && w < |s.workers| && s.workers[w].Exited? && Leads(c, s, acts, t)
    ensures IsStopping(t.word) && PendingOf(t.word) == 0
  {
    assert WorkerOk(c, s.word, s.written, s.removed, w, s.workers[w]);
    NothingAcceptedAfterStop(c, s, acts, t);
  }

  /** When all workers have exited (which is when a joining shutdown returns), every
      accepted task has been executed or cancelled and no task is active. */
  lemma AllExitedAllSettled(c: Config, s: State)
    requires Inv(c, s) && forall w :: 0 <= w < |s.workers| ==> s.workers[w].Exited?
    ensures IsStopping(s.word) && TrulyIdle(s) && AllSettled(s) && Put(s) == 0
    ensures |s.removed| == |s.written|
  {
    hide RingOk, FatesOk, WaitOk;
    assert WorkerOk(c, s.word, s.written, s.removed, 0, s.workers[0]);
    SumZero(Held, s.workers);
    TrulyIdleSettled(c, s);
    match s.producerLock
    case Some(i) => assert ClientOk(c, s.word, s.written, |s.removed|, i, s.clients[i]);
    case None =>
  }

  // --------------------------------------------------------------- termination

  /** How far a worker is from claiming, finishing or leaving, with an empty queue ... */
  function EmptyRank(pc: WorkerPc): nat {
    match pc
    case Exited => 0
    case Top => 1
    case LoadC => 2
    case AcquireC => 3
    case _ => BusyRank(pc)
  }

  /** ... and with tasks pending. */
  function BusyRank(pc: WorkerPc): nat {
    match pc
    case Exited => 0
    case Claim(bulk, seen, _, batch) => 1 + Monus(ClaimLimit(bulk, seen), |batch|)
    case LoadC => 18
    case AcquireC => 19
    case Top => 20
    case Run(_, batch, next) => 1 + Min(16, Monus(|batch|, next))
    case ReleaseC(_, _) => 19
    case NotifyAll => 21
    case NotifyBump => 22
    case NotifyTest => 23
  }

  function RankSum(s: State): nat {
    if PendingOf(s.word) == 0 then Sum(EmptyRank, s.workers) else Sum(BusyRank, s.workers)
  }

  function Load(s: State): nat { 2 * PendingOf(s.word) + Sum(Held, s.workers) }

  /** A bound on the number of worker steps that can still be taken. */
  function Rank(c: Config, s: State): nat { Load(s) * (24 * c.workers) + RankSum(s) }

  lemma RankSumBound(c: Config, s: State)
    requires |s.workers| == c.workers
    ensures RankSum(s) <= 23 * c.workers
  {
    SumAtMost(EmptyRank, s.workers, 23);
    SumAtMost(BusyRank, s.workers, 23);
  }

  /** A unit of load outweighs any change of the per-worker ranks. */
  lemma LoadDominates(c: Config, s: State, t: State)
    requires |s.workers| == |t.workers| == c.workers && c.workers > 0
    requires Load(t) < Load(s)
    ensures Rank(c, t) < Rank(c, s)
  {
    RankSumBound(c, t);
    var n := 24 * c.workers;
    assert Load(t) * n + n == (Load(t) + 1) * n <= Load(s) * n by {
      ProductBound(Load(t) + 1, n, Load(s), n);
    }
  }

  lemma PlainStepRanks(c: Config, s: State, w: nat, o: Outcome)
    requires Inv(c, s) && WorkerEnabled(s, w) && IsStopping(s.word)
    requires s.workers[w].Claim? ==> WantsMore(s, s.workers[w])
    requires s.workers[w].Run? ==> s.workers[w].next < |s.workers[w].batch|
    ensures var x, y := s.workers[w], WorkerNext(c, s, w, o).workers[w];
            if PendingOf(s.word) == 0 then EmptyRank(y) < EmptyRank(x) else BusyRank(y) < BusyRank(x)
  {
    hide RingOk, LocksOk, CountOk, FatesOk, WaitOk;
    var pc := s.workers[w];
    assert WorkerOk(c, s.word, s.written, s.removed, w, pc);
    hide ThreadsOk;
    if pc.LoadC? && PendingOf(s.word) != 0 { LoadFindsItem(c, s, w); }
    if pc.Claim? { TakeReady(c, s, w); }
    if pc.Run? { RunReady(c, s, w); }
    hide Inv;
  }

  /** Every worker step after the stopping bit is set decreases the rank. */
  lemma WorkerStepRanks(c: Config, s: State, w: nat, o: Outcome)
    requires Inv(c, s) && WorkerEnabled(s, w) && IsStopping(s.word)
    ensures Rank(c, WorkerNext(c, s, w, o)) < Rank(c, s)
  {
    var t := WorkerNext(c, s, w, o);
    WorkerCounts(c, s, w, o);
    assert |s.workers| == c.workers >= 1;
    hide RingOk, LocksOk, CountOk, ThreadsOk, FatesOk, WaitOk;
    hide WorkerNext;
    if (s.workers[w].Claim? && !WantsMore(s, s.workers[w])) ||
       (s.workers[w].Run? && s.workers[w].next == |s.workers[w].batch|) {
      hide Rank;
      LoadDominates(c, s, t);
    } else {
      RunWithin(c, s, w);
      PlainStepRanks(c, s, w, o);
      SumUpdate(EmptyRank, s.workers, w, t.workers[w]);
      SumUpdate(BusyRank, s.workers, w, t.workers[w]);
    }
  }

  lemma RunWithin(c: Config, s: State, w: nat)
    requires Inv(c, s) && w < |s.workers|
    ensures s.workers[w].Run? ==> s.workers[w].next <= |s.workers[w].batch|
  {
    assert WorkerOk(c, s.word, s.written, s.removed, w, s.workers[w]);
  }

  /** No client step increases it. */
  lemma ClientStepRanks(c: Config, s: State, i: nat, r: Request)
    requires Inv(c, s) && ClientEnabled(c, s, i, r) && IsStopping(s.word)
    ensures Rank(c, ClientNext(c, s, i, r)) <= Rank(c, s)
  {
    var t := ClientNext(c, s, i, r);
    ClientDrains(c, s, i, r);
    assert |s.workers| == c.workers >= 1;
    hide Inv, ClientNext;
    if PendingOf(t.word) < PendingOf(s.word) {
      LoadDominates(c, s, t);
    }
  }

  function WorkerSteps(acts: seq<Action>): nat {
    if |acts| == 0 then 0 else WorkerSteps(acts[1..]) + if acts[0].WorkerStep? then 1 else 0
  }

  /** Drain terminates: whatever the clients do meanwhile, the workers take at most
      Rank(s) steps after the stopping bit is set. */
  lemma {:induction false} DrainIsBounded(c: Config, s: State, acts: seq<Action>, t: State)
    requires Inv(c, s) && IsStopping(s.word) && Leads(c, s, acts, t)
    ensures WorkerSteps(acts) + Rank(c, t) <= Rank(c, s)
    decreases |acts|
  {
    hide Inv, Rank;
    if |acts| > 0 {
      match acts[0] {
        case WorkerStep(w, o) => WorkerStepRanks(c, s, w, o);
        case ClientStep(i, r) => ClientStepRanks(c, s, i, r);
      }
      StopIsFinal(c, s, acts[0]);
      StepKeeps(c, s, acts[0]);
      DrainIsBounded(c, Next(c, s, acts[0]), acts[1..], t);
    }
  }

  /** ... and it cannot get stuck: until every worker has exited, some worker can
      step, or a canceller inside its critical section can. */
  lemma DrainProgresses(c: Config, s: State, w: nat, r: Request)
    requires Inv(c, s) && IsStopping(s.word) && w < |s.workers| && !s.workers[w].Exited?
    ensures || (exists v: nat :: v < |s.workers| && WorkerEnabled(s, v))
            || (exists i: nat :: i < |s.clients| && HoldsBoth(s.clients[i]) && ClientEnabled(c, s, i, r))
  {
    hide RingOk, CountOk, ThreadsOk, FatesOk, WaitOk;
    if !WorkerEnabled(s, w) {
      match s.consumerLock
      case Some(Worker(v)) => assert WorkerEnabled(s, v);
      case Some(Client(i)) => assert HoldsBoth(s.clients[i]) && ClientEnabled(c, s, i, r);
    }
  }
}
