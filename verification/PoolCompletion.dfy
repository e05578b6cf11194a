/** What becomes of accepted tasks, and what `wait` may conclude. */
module PoolCompletion {
  import opened Common
  import opened PackedState
  import opened PoolMachine
  import opened PoolInvariant
  import opened PoolWorkerSteps
  import opened PoolClientSteps
  import opened PoolRefinement

  // ------------------------------------------------------------- exactly once

  /** A fate is final unless the task is still running; a claimed task can only
      finish, never be cancelled; histories only grow. */
  predicate FateGrows(f: Fate, g: Fate) {
    g == f || (f.Running? && g.Finished?)
  }

  ghost predicate Grows(s: State, t: State) {
    && s.written <= t.written
    && |s.removed| <= |t.removed|
    && forall u :: 0 <= u < |s.removed| ==>
         t.removed[u].item == s.removed[u].item && FateGrows(s.removed[u].fate, t.removed[u].fate)
  }

  lemma WorkerGrows(c: Config, s: State, w: nat, o: Outcome)
    requires Inv(c, s) && WorkerEnabled(s, w)
    ensures Grows(s, WorkerNext(c, s, w, o))
  {
    hide Inv;
    if s.workers[w].Run? && s.workers[w].next < |s.workers[w].batch| {
      RunReady(c, s, w);
    }
  }

  lemma StepGrows(c: Config, s: State, a: Action)
    requires Inv(c, s) && Enabled(c, s, a)
    ensures Grows(s, Next(c, s, a))
  {
    hide Inv;
    match a
    case WorkerStep(w, o) => WorkerGrows(c, s, w, o);
    case ClientStep(i, r) => ClientGrows(c, s, i, r);
  }

  lemma ClientGrows(c: Config, s: State, i: nat, r: Request)
    requires ClientEnabled(c, s, i, r)
    ensures Grows(s, ClientNext(c, s, i, r))
  {
  }

  /** Over any run each task is removed once, at its place in the acceptance
      order, and is settled once: by the worker that claimed it or by a canceller. */
  lemma {:induction false} RunGrows(c: Config, s: State, acts: seq<Action>, t: State)
    requires Inv(c, s) && Leads(c, s, acts, t)
    ensures Grows(s, t)
    decreases |acts|
  {
    hide Inv;
    if |acts| > 0 {
      StepGrows(c, s, acts[0]);
      StepKeeps(c, s, acts[0]);
      RunGrows(c, Next(c, s, acts[0]), acts[1..], t);
    }
  }

  // --------------------------------------------------------------- conservation

  function RunningWeight(r: Removed): nat { if r.fate.Running? then 1 else 0 }
  function FinishedWeight(r: Removed): nat { if r.fate.Finished? then 1 else 0 }
  function AllCancelledWeight(r: Removed): nat { if r.fate.Cancelled? then 1 else 0 }

  lemma {:induction false} FatesPartition(removed: seq<Removed>)
    ensures Sum(RunningWeight, removed) + Sum(FinishedWeight, removed) + Sum(AllCancelledWeight, removed)
            == |removed|
    decreases |removed|
  {
    if |removed| > 0 { FatesPartition(removed[..|removed| - 1]); }
  }

  ghost function RunningTasks(s: State): set<nat> {
    set t: nat | t < |s.removed| && s.removed[t].fate.Running?
  }
  ghost function FinishedTasks(s: State): set<nat> {
    set t: nat | t < |s.removed| && s.removed[t].fate.Finished?
  }
  ghost function CancelledTasks(s: State): set<nat> {
    set t: nat | t < |s.removed| && s.removed[t].fate.Cancelled?
  }

  /** The tasks without a future that threw or returned an error ... */
  ghost function LostFailures(s: State): set<nat> {
    set t: nat | t < |s.removed| && LostFailure(s.removed[t])
  }

  predicate LostFailure(r: Removed) {
    !r.item.tracked && (r.fate == Finished(Threw) || r.fate == Finished(Returned(false)))
  }

  lemma WeighsFailure(r: Removed)
    ensures FailedWeight(r) == if LostFailure(r) then 1 else 0
  {
    if r.fate.Finished? && r.fate.outcome.Returned? {
      assert r.fate == Finished(Returned(r.fate.outcome.ok));
    }
  }

  /** ... and those that were cancelled. */
  ghost function LostCancellations(s: State): set<nat> {
    set t: nat | t < |s.removed| && !s.removed[t].item.tracked && s.removed[t].fate == Cancelled
  }

  /** Every accepted task is pending, claimed and running, finished, or cancelled;
      the two public counters count exactly the tasks without a future that failed or
      were cancelled. */
  lemma Conservation(c: Config, s: State)
    requires Inv(c, s)
    ensures AcceptedCount(s) + Taken(s) ==
            PendingOf(s.word) + |RunningTasks(s)| + |FinishedTasks(s)| + |CancelledTasks(s)|
    ensures s.failed == |LostFailures(s)|
    ensures s.cancelled == |LostCancellations(s)|
  {
    hide RingOk, LocksOk, ThreadsOk, WaitOk;
    FatesPartition(s.removed);
    SumCounts(RunningWeight, s.removed, RunningTasks(s));
    SumCounts(FinishedWeight, s.removed, FinishedTasks(s));
    SumCounts(AllCancelledWeight, s.removed, CancelledTasks(s));
    forall r: Removed ensures FailedWeight(r) == 1 <==> LostFailure(r) { WeighsFailure(r); }
    SumCounts(FailedWeight, s.removed, LostFailures(s));
    SumCounts(CancelledWeight, s.removed, LostCancellations(s));
  }

  /** A fate comes about in three ways only: a claim makes a new task run on its worker,
      a cancellation ends a new one, and running a task gives it the very outcome of its
      callback. No other fate changes in any step. */
  lemma FateFollowsOutcome(c: Config, s: State, a: Action, t: nat)
    requires Inv(c, s) && Enabled(c, s, a) && t < |Next(c, s, a).removed|
    ensures var fate := Next(c, s, a).removed[t].fate;
            if t < |s.removed| then
              fate != s.removed[t].fate ==>
                a.WorkerStep? && s.removed[t].fate == Running(a.w) && fate == Finished(a.outcome)
            else if a.WorkerStep? then fate == Running(a.w)
            else fate == Cancelled && s.clients[a.i].Cancel?
  {
    match a
    case WorkerStep(w, o) => WorkerFates(c, s, w, o, t);
    case ClientStep(i, r) => ClientFates(c, s, i, r, t);
  }

  lemma WorkerFates(c: Config, s: State, w: nat, o: Outcome, t: nat)
    requires Inv(c, s) && WorkerEnabled(s, w) && t < |WorkerNext(c, s, w, o).removed|
    ensures var fate := WorkerNext(c, s, w, o).removed[t].fate;
            if t < |s.removed| then fate != s.removed[t].fate ==> s.removed[t].fate == Running(w) && fate == Finished(o)
            else fate == Running(w)
  {
    hide Inv;
    if s.workers[w].Run? && s.workers[w].next < |s.workers[w].batch| { RunReady(c, s, w); }
  }

  lemma ClientFates(c: Config, s: State, i: nat, r: Request, t: nat)
    requires ClientEnabled(c, s, i, r) && t < |ClientNext(c, s, i, r).removed|
    ensures var fate := ClientNext(c, s, i, r).removed[t].fate;
            if t < |s.removed| then fate == s.removed[t].fate else fate == Cancelled && s.clients[i].Cancel?
  {
  }

  // ------------------------------------------------------------------- waiting

  /** Every accepted task has been removed and settled. */
  ghost predicate AllSettled(s: State) {
    && |s.removed| == AcceptedCount(s)
    && Taken(s) == 0
    && forall t :: 0 <= t < |s.removed| ==> !s.removed[t].fate.Running?
  }

  /** A task still running is counted: by its worker's share of `active`, or, while
      its claim is unpublished, by `pending`. */
  lemma RunningIsCounted(c: Config, s: State, t: nat)
    requires Inv(c, s) && t < |s.removed| && s.removed[t].fate.Running?
    ensures Sum(Held, s.workers) > 0 || Taken(s) > 0
  {
    hide RingOk, WaitOk, CountOk;
    var w := s.removed[t].fate.worker;
    assert Owes(s.workers[w], t);
    SumAtLeast(Held, s.workers, w);
  }

  /** With no pending task and no task held, every accepted task is settled. */
  lemma TrulyIdleSettled(c: Config, s: State)
    requires Inv(c, s) && TrulyIdle(s)
    ensures AllSettled(s)
  {
    TakenBound(c, s);
    forall t | 0 <= t < |s.removed| ensures !s.removed[t].fate.Running? {
      if s.removed[t].fate.Running? { RunningIsCounted(c, s, t); }
    }
    hide RingOk, LocksOk, ThreadsOk, FatesOk, WaitOk;
  }

  /** Looking idle is sound as long as the active field cannot wrap. */
  lemma IdleIsSound(c: Config, s: State)
    requires Inv(c, s) && LooksIdle(s.word)
    requires c.workers * MaxClaim(c) < COUNT_RANGE
    ensures TrulyIdle(s) && AllSettled(s)
  {
    ActiveBound(c, s);
    Decode(PendingOf(s.word), Sum(Held, s.workers), IsStopping(s.word));
    TrulyIdleSettled(c, s);
  }

  lemma ActiveBound(c: Config, s: State)
    requires Inv(c, s)
    ensures Sum(Held, s.workers) <= c.workers * MaxClaim(c)
    ensures Sum(Held, s.workers) <= MAX_ACTIVE
    ensures s.word == Encode(PendingOf(s.word), Sum(Held, s.workers), IsStopping(s.word))
    ensures PendingOf(s.word) <= c.capacity
  {
    hide RingOk, LocksOk, FatesOk, WaitOk;
    forall w | 0 <= w < |s.workers| ensures Held(s.workers[w]) <= MaxClaim(c) {
      assert WorkerOk(c, s.word, s.written, s.removed, w, s.workers[w]);
    }
    HeldBound(c, s.workers);
  }

  /** A thread returning from `wait` does so in a state where all is settled. */
  lemma WaitReturnsSettled(c: Config, s: State, i: nat, r: Request)
    requires Inv(c, s) && c.workers * MaxClaim(c) < COUNT_RANGE
    requires ClientEnabled(c, s, i, r) && s.clients[i].IdleFirst? && ClientNext(c, s, i, r).clients[i] == Ready
    ensures AllSettled(s)
  {
    hide Inv, Next;
    IdleIsSound(c, s);
  }

  /** A claim keeps pending + active and leaves active positive, so it can never
      make a busy pool idle. */
  lemma ClaimNeverIdles(c: Config, s: State, w: nat)
    requires Inv(c, s) && w < |s.workers| && s.workers[w].Claim? && !WantsMore(s, s.workers[w])
    ensures var t := PublishClaim(s, w);
            && PendingOf(t.word) + Sum(Held, t.workers) == PendingOf(s.word) + Sum(Held, s.workers)
            && Sum(Held, t.workers) > 0 && !TrulyIdle(t)
  {
    hide Inv;
    PublishReady(c, s, w);
    PublishWord(c, s, w);
  }

  // ------------------------------------------------------------ no lost wake-up

  /** A thread parked on the current epoch while the pool is idle has a thread that
      is bound to advance the epoch; one parked on an old epoch has a thread about
      to call notify_all. */
  lemma NoLostWakeup(c: Config, s: State, i: nat)
    requires Inv(c, s) && i < |s.clients| && s.clients[i].Blocked?
    ensures s.clients[i].epoch <= s.epoch
    ensures s.clients[i].epoch == s.epoch ==> !TrulyIdle(s) || Committed(s)
    ensures s.clients[i].epoch < s.epoch ==> Notifying(s)
  {
    assert AwakeOk(s, s.clients[i]);
  }

  /** The commitment is kept: whatever step is taken while the pool stays idle and a
      thread is parked on the current epoch, a committed thread remains, or the
      epoch has advanced and a notifier is about to wake the parked threads. */
  lemma CommitmentIsKept(c: Config, s: State, a: Action, i: nat)
    requires Inv(c, s) && Enabled(c, s, a) && i < |s.clients|
    requires s.clients[i].Blocked? && s.clients[i].epoch == s.epoch && TrulyIdle(s)
    requires var t := Next(c, s, a); TrulyIdle(t) && |t.clients| == |s.clients| && t.clients[i] == s.clients[i]
    ensures var t := Next(c, s, a); Committed(t) || (t.epoch > s.epoch && Notifying(t))
  {
    hide RingOk, LocksOk, CountOk, ThreadsOk, FatesOk;
    StepKeeps(c, s, a);
    NoLostWakeup(c, Next(c, s, a), i);
    EpochGrows(c, s, a);
  }

  lemma EpochGrows(c: Config, s: State, a: Action)
    requires Enabled(c, s, a)
    ensures Next(c, s, a).epoch >= s.epoch
  {
    hide WorkerNext, ClientNext;
    match a
    case WorkerStep(w, o) => WorkerEpochGrows(c, s, w, o);
    case ClientStep(i, r) => ClientEpochGrows(c, s, i, r);
  }

  lemma WorkerEpochGrows(c: Config, s: State, w: nat, o: Outcome)
    requires WorkerEnabled(s, w)
    ensures WorkerNext(c, s, w, o).epoch >= s.epoch
  {
    hide FetchAdd, FetchSub, LooksIdle, IsStopping, PendingOf, ActiveOf, HeadItem, Wake;
  }

  lemma ClientEpochGrows(c: Config, s: State, i: nat, r: Request)
    requires ClientEnabled(c, s, i, r)
    ensures ClientNext(c, s, i, r).epoch >= s.epoch
  {
    hide FetchAdd, FetchSub, FetchOrStop, LooksIdle, IsStopping, PendingOf, ActiveOf, HeadItem, Wake;
  }

  /** When no operation is in the middle of anything, an idle pool has no parked waiter. */
  lemma QuiescentMeansAwake(c: Config, s: State, i: nat)
    requires Inv(c, s) && TrulyIdle(s) && i < |s.clients|
    requires forall w :: 0 <= w < |s.workers| ==> s.workers[w].Top? || s.workers[w].Exited?
    requires forall j :: 0 <= j < |s.clients| ==>
               s.clients[j].Ready? || s.clients[j].Blocked? || s.clients[j].Submitted? || s.clients[j].Join?
    ensures !s.clients[i].Blocked?
  {
    if s.clients[i].Blocked? {
      NoLostWakeup(c, s, i);
    }
  }

  // ---------------------------------------------------------------- submissions

  /** A submission that returns has placed exactly its first n items, in order, at
      increasing positions of the acceptance history; n falls short of the whole
      span only if the pool is stopping. */
  lemma SubmissionResult(c: Config, s: State, i: nat)
    requires Inv(c, s) && i < |s.clients| && s.clients[i].Submitted?
    ensures JobOk(s.written, i, s.clients[i].job)
    ensures |s.clients[i].job.tickets| < |s.clients[i].job.items| ==>
              s.clients[i].stopped && IsStopping(s.word)
  {
    assert ClientOk(c, s.word, s.written, |s.removed|, i, s.clients[i]);
  }
}
