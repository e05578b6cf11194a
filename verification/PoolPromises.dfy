/** What each public operation of the pool promises its caller, for every run: stated
    on the request that the caller made. */
module PoolPromises {
  import opened Common
  import opened PackedState
  import opened PoolMachine
  import opened PoolInvariant
  import opened PoolClientSteps
  import opened PoolRefinement
  import opened PoolCompletion
  import opened PoolDrain
  import opened PoolCalls

  /** The pool after any run from its start, with the latest call of every client. */
  ghost predicate Reaches(c: Config, acts: seq<Action>, s: State, calls: Calls) {
    ValidConfig(c) && Leads(c, Init(c), acts, s) && calls == CallsOf(c, Init(c), NoCalls(c), acts)
  }

  lemma ReachedCalls(c: Config, acts: seq<Action>, s: State, calls: Calls)
    requires Reaches(c, acts, s, calls)
    ensures Inv(c, s) && CallsOk(c, s, calls)
  {
    InitInv(c);
    RunCalls(c, Init(c), NoCalls(c), acts, s);
  }

  // ---------------------------------------------------------------- submissions

  /** A thread that has returned from submitting has submitted what it was asked to, in
      order, at increasing places of the history that are younger than the call, and
      put nothing else there; it stopped short exactly if it reports so, and then the
      pool is stopping. */
  lemma SubmissionsKeepTheirWord(c: Config, acts: seq<Action>, s: State, calls: Calls, i: nat)
    requires Reaches(c, acts, s, calls) && i < |s.clients| && s.clients[i].Submitted?
    ensures i < |calls| && calls[i].Some? && ItemsOf(calls[i].value.request) == Some(s.clients[i].job.items)
    ensures var xs, start, ts := s.clients[i].job.items, calls[i].value.start, s.clients[i].job.tickets;
            && |ts| <= |xs|
            && (forall a :: 0 <= a < |ts| ==>
                  |start.written| <= ts[a] < |s.written| && s.written[ts[a]] == PoolMachine.Written(xs[a], i))
            && (forall a, b :: 0 <= a < b < |ts| ==> ts[a] < ts[b])
            && By(s.written, i) == By(start.written, i) + xs[..|ts|]
            && (s.clients[i].stopped <==> |ts| < |xs|)
            && (s.clients[i].stopped ==> IsStopping(s.word))
  {
    ReachedCalls(c, acts, s, calls);
    assert CallOk(c, s, i, calls[i]);
    SubmissionResult(c, s, i);
    hide Inv, CallsOk, By;
  }

  /** In particular a submission of one task that does not fail has accepted it. */
  lemma SubmitAcceptsItsTask(c: Config, acts: seq<Action>, s: State, calls: Calls, i: nat, x: Item)
    requires Reaches(c, acts, s, calls) && i < |s.clients| && s.clients[i].Submitted?
    requires i < |calls| && calls[i].Some? && calls[i].value.request == Submit(x)
    ensures if s.clients[i].stopped
            then IsStopping(s.word) && By(s.written, i) == By(calls[i].value.start.written, i)
            else
              && By(s.written, i) == By(calls[i].value.start.written, i) + [x]
              && exists t: nat :: |calls[i].value.start.written| <= t < |s.written|
                                  && s.written[t] == PoolMachine.Written(x, i)
  {
    SubmissionsKeepTheirWord(c, acts, s, calls, i);
    hide Reaches, By;
    var job := s.clients[i].job;
    assert job.items == [x];
    if !s.clients[i].stopped {
      assert s.written[job.tickets[0]] == PoolMachine.Written(x, i);
      assert job.items[..1] == [x];
    }
  }

  // ---------------------------------------------------------------------- waiting

  /** When `wait` has returned, every task accepted before it was called has finished or
      was cancelled, in any pool whose active field cannot wrap. */
  lemma WaitKeepsItsWord(c: Config, acts: seq<Action>, s: State, calls: Calls, i: nat)
    requires Reaches(c, acts, s, calls) && i < |s.clients| && s.clients[i].Ready?
    requires i < |calls| && calls[i].Some? && calls[i].value.request == Wait
    requires c.workers * MaxClaim(c) < COUNT_RANGE
    ensures EarlierSettled(s, calls[i].value)
  {
    ReachedCalls(c, acts, s, calls);
    assert CallOk(c, s, i, calls[i]);
    hide Inv, CallsOk, EarlierSettled;
  }

  // ------------------------------------------------------- cancelling and stopping

  /** When `clear_queue` has returned, it has held both locks, and every task that
      waited at that moment was cancelled. */
  lemma ClearQueueKeepsItsWord(c: Config, acts: seq<Action>, s: State, calls: Calls, i: nat)
    requires Reaches(c, acts, s, calls) && i < |s.clients| && s.clients[i].Ready?
    requires i < |calls| && calls[i].Some? && calls[i].value.request == ClearQueue
    ensures Emptied(s, calls[i].value)
  {
    ReachedCalls(c, acts, s, calls);
    assert CallOk(c, s, i, calls[i]);
    hide Inv, CallsOk, Emptied;
  }

  /** A cancelling shutdown has done the same before it waits for the workers. */
  lemma CancellingShutdownEmpties(c: Config, acts: seq<Action>, s: State, calls: Calls, i: nat)
    requires Reaches(c, acts, s, calls) && i < |s.clients| && (s.clients[i].Join? || s.clients[i].Ready?)
    requires i < |calls| && calls[i].Some? && calls[i].value.request == Shutdown(CancelPending)
    ensures Emptied(s, calls[i].value)
  {
    ReachedCalls(c, acts, s, calls);
    assert CallOk(c, s, i, calls[i]);
    hide Inv, CallsOk, Emptied;
  }

  /** When `shutdown` has returned, in either mode, the pool is stopping for good, every
      worker has exited and every accepted task is settled. */
  lemma ShutdownKeepsItsWord(c: Config, acts: seq<Action>, s: State, calls: Calls, i: nat)
    requires Reaches(c, acts, s, calls) && i < |s.clients| && s.clients[i].Ready?
    requires i < |calls| && calls[i].Some? && calls[i].value.request.Shutdown?
    ensures IsStopping(s.word) && AllExited(s) && AllSettled(s) && |s.removed| == |s.written|
  {
    ReachedCalls(c, acts, s, calls);
    assert CallOk(c, s, i, calls[i]);
    assert AllExited(s);
    AllExitedAllSettled(c, s);
    hide Inv, CallsOk;
  }

  /** The step starts an operation that cancels. */
  predicate AsksToCancel(s: State, a: Action) {
    a.ClientStep? && a.i < |s.clients| && s.clients[a.i].Ready? && a.request in {ClearQueue, Shutdown(CancelPending)}
  }

  /** Nobody asks to cancel in the whole run. */
  ghost predicate Gentle(c: Config, s: State, acts: seq<Action>)
    decreases |acts|
  {
    |acts| > 0 && Enabled(c, s, acts[0]) ==>
      !AsksToCancel(s, acts[0]) && Gentle(c, Next(c, s, acts[0]), acts[1..])
  }

  predicate GentlePc(pc: ClientPc) {
    && !pc.AcquireBoth? && !HoldsBoth(pc)
    && (pc.AcquireStop? || pc.SetStop? || pc.ReleaseStop? ==> pc.mode == Drain)
  }

  ghost predicate NoneCancelled(s: State) {
    && (forall i :: 0 <= i < |s.clients| ==> GentlePc(s.clients[i]))
    && forall t :: 0 <= t < |s.removed| ==> !s.removed[t].fate.Cancelled?
  }

  lemma GentleWorker(c: Config, s: State, w: nat, o: Outcome)
    requires WorkerEnabled(s, w) && NoneCancelled(s)
    ensures NoneCancelled(WorkerNext(c, s, w, o))
  {
    var t := WorkerNext(c, s, w, o);
    assert t.clients == s.clients || t.clients == Wake(s.clients);
    assert forall u :: 0 <= u < |t.removed| ==> !t.removed[u].fate.Cancelled?;
    hide WorkerNext, WorkerEnabled;
  }

  lemma GentleOwn(c: Config, s: State, i: nat, r: Request)
    requires ClientEnabled(c, s, i, r) && !AsksToCancel(s, ClientStep(i, r)) && GentlePc(s.clients[i])
    ensures |ClientNext(c, s, i, r).clients| == |s.clients| && GentlePc(ClientNext(c, s, i, r).clients[i])
  {
  }

  lemma GentleOthers(c: Config, s: State, i: nat, r: Request)
    requires ClientEnabled(c, s, i, r) && !HoldsBoth(s.clients[i])
    ensures var t := ClientNext(c, s, i, r);
            && t.removed == s.removed && |t.clients| == |s.clients|
            && forall j :: 0 <= j < |s.clients| && j != i ==> t.clients[j] == s.clients[j]
  {
  }

  lemma GentleStep(c: Config, s: State, a: Action)
    requires Enabled(c, s, a) && !AsksToCancel(s, a) && NoneCancelled(s)
    ensures NoneCancelled(Next(c, s, a))
  {
    hide ClientNext, WorkerNext;
    match a
    case WorkerStep(w, o) => GentleWorker(c, s, w, o);
    case ClientStep(i, r) => GentleOwn(c, s, i, r); GentleOthers(c, s, i, r);
  }

  lemma {:induction false} GentleRun(c: Config, s: State, acts: seq<Action>, t: State)
    requires Leads(c, s, acts, t) && Gentle(c, s, acts) && NoneCancelled(s)
    ensures NoneCancelled(t)
    decreases |acts|
  {
    hide NoneCancelled, AsksToCancel;
    if |acts| > 0 {
      GentleStep(c, s, acts[0]);
      GentleRun(c, Next(c, s, acts[0]), acts[1..], t);
    }
  }

  /** A draining shutdown cancels nothing: where nobody asks for a cancellation no task
      is ever cancelled, and once the workers have exited every accepted task has run. */
  lemma DrainExecutesAll(c: Config, acts: seq<Action>, s: State)
    requires ValidConfig(c) && Leads(c, Init(c), acts, s) && Gentle(c, Init(c), acts)
    ensures forall t :: 0 <= t < |s.removed| ==> !s.removed[t].fate.Cancelled?
    ensures AllExited(s) ==>
              |s.removed| == |s.written| && forall t :: 0 <= t < |s.removed| ==> s.removed[t].fate.Finished?
  {
    InitInv(c);
    RunKeeps(c, Init(c), acts, s);
    GentleRun(c, Init(c), acts, s);
    hide Inv;
    if AllExited(s) { AllExitedAllSettled(c, s); }
  }

  // --------------------------------------------------------------------- progress

  /** Whoever holds a lock can take its next step. */
  ghost predicate HolderCanStep(c: Config, s: State, owner: Owner, r: Request) {
    match owner
    case Worker(w) => WorkerEnabled(s, w)
    case Client(j) => ClientEnabled(c, s, j, r)
  }

  /** No deadlock: a client that cannot step waits for room in a full queue, for a lock
      whose holder can step, or for the workers to exit; and while it waits for room or
      for the workers, a worker or the holder of the consumer lock can step. */
  lemma ClientsAreNeverStuck(c: Config, s: State, i: nat, r: Request)
    requires Inv(c, s) && i < |s.clients| && WellFormed(r) && !ClientEnabled(c, s, i, r)
    ensures match s.clients[i]
            case Space(_) => !IsStopping(s.word) && PendingOf(s.word) == c.capacity && ServiceGoesOn(c, s, r)
            case AcquireP(_) => s.producerLock.Some? && HolderCanStep(c, s, Client(s.producerLock.value), r)
            case AcquireStop(_) => s.producerLock.Some? && HolderCanStep(c, s, Client(s.producerLock.value), r)
            case AcquireBoth(_) =>
              || (s.producerLock.Some? && HolderCanStep(c, s, Client(s.producerLock.value), r))
              || (s.consumerLock.Some? && HolderCanStep(c, s, s.consumerLock.value, r))
            case Join => IsStopping(s.word) && ServiceGoesOn(c, s, r)
            case _ => false
  {
    hide RingOk, CountOk, FatesOk, WaitOk;
    assert ClientOk(c, s.word, s.written, |s.removed|, i, s.clients[i]);
    if s.producerLock.Some? { assert HoldsProducer(s.clients[s.producerLock.value]); }
    if s.consumerLock.Some? { ConsumerCanStep(c, s, r); }
    if s.clients[i].Space? {
      assert WorkerOk(c, s.word, s.written, s.removed, 0, s.workers[0]);
      SomeoneServes(c, s, 0, r);
    } else if s.clients[i].Join? {
      var w :| 0 <= w < |s.workers| && !s.workers[w].Exited?;
      SomeoneServes(c, s, w, r);
    }
  }

  ghost predicate ServiceGoesOn(c: Config, s: State, r: Request) {
    || (exists w: nat :: w < |s.workers| && WorkerEnabled(s, w))
    || (s.consumerLock.Some? && HolderCanStep(c, s, s.consumerLock.value, r))
  }

  lemma ConsumerCanStep(c: Config, s: State, r: Request)
    requires LocksOk(s) && s.consumerLock.Some? && WellFormed(r)
    ensures HolderCanStep(c, s, s.consumerLock.value, r)
  {
    match s.consumerLock.value
    case Worker(w) => assert WorkerHolds(s.workers[w]);
    case Client(j) => assert HoldsBoth(s.clients[j]);
  }

  lemma SomeoneServes(c: Config, s: State, w: nat, r: Request)
    requires LocksOk(s) && w < |s.workers| && !s.workers[w].Exited? && WellFormed(r)
    requires PendingOf(s.word) != 0 || IsStopping(s.word)
    ensures ServiceGoesOn(c, s, r)
  {
    if !WorkerEnabled(s, w) { ConsumerCanStep(c, s, r); }
  }
}
