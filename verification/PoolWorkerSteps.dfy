/** Every worker step preserves the invariant. */
module PoolWorkerSteps {
  import opened Common
  import opened PackedState
  import opened PoolMachine
  import opened PoolInvariant

  /** A step that only moves one worker's program counter, and perhaps takes or
      releases the consumer lock, keeps the invariant if the new program counter
      is justified and no promise to wake waiters is dropped while any exist. */
  lemma WorkerMove(c: Config, s: State, w: nat, pc: WorkerPc, lock: Option<Owner>)
    requires Inv(c, s) && w < |s.workers|
    requires Held(pc) == Held(s.workers[w])
    requires WorkerTaken(pc) == WorkerTaken(s.workers[w]) == 0
    requires forall t: nat :: Owes(pc, t) == Owes(s.workers[w], t)
    requires WorkerOk(c, s.word, s.written, s.removed, w, pc)
    requires WorkerCommits(s.workers[w]) ==> WorkerCommits(pc) || s.idleWaiters == 0
    requires !s.workers[w].NotifyAll?
    requires WorkerHolds(pc) && !WorkerHolds(s.workers[w]) ==> s.consumerLock == None
    requires lock == if WorkerHolds(pc) then Some(Worker(w))
                     else if WorkerHolds(s.workers[w]) then None else s.consumerLock
    ensures Inv(c, SetWorker(s, w, pc).(consumerLock := lock))
  {
    hide RingOk, LocksOk, CountOk, ThreadsOk, FatesOk, WaitOk;
    MoveFrame(c, s, w, pc, lock);
    MoveAwake(c, s, SetWorker(s, w, pc).(consumerLock := lock), w);
  }

  lemma MoveFrame(c: Config, s: State, w: nat, pc: WorkerPc, lock: Option<Owner>)
    requires Inv(c, s) && w < |s.workers|
    requires Held(pc) == Held(s.workers[w])
    requires WorkerTaken(pc) == WorkerTaken(s.workers[w]) == 0
    requires forall t: nat :: Owes(pc, t) == Owes(s.workers[w], t)
    requires WorkerOk(c, s.word, s.written, s.removed, w, pc)
    requires WorkerHolds(pc) && !WorkerHolds(s.workers[w]) ==> s.consumerLock == None
    requires lock == if WorkerHolds(pc) then Some(Worker(w))
                     else if WorkerHolds(s.workers[w]) then None else s.consumerLock
    ensures var s' := SetWorker(s, w, pc).(consumerLock := lock);
            && RingOk(c, s') && LocksOk(s') && CountOk(c, s') && ThreadsOk(c, s') && FatesOk(s')
            && TrulyIdle(s') == TrulyIdle(s)
  {
    hide WaitOk, LocksOk;
    SumUpdate(Held, s.workers, w, pc);
    MoveLocks(c, s, w, pc, lock);
  }

  lemma MoveLocks(c: Config, s: State, w: nat, pc: WorkerPc, lock: Option<Owner>)
    requires Inv(c, s) && w < |s.workers|
    requires WorkerTaken(pc) == WorkerTaken(s.workers[w]) == 0
    requires WorkerHolds(pc) && !WorkerHolds(s.workers[w]) ==> s.consumerLock == None
    requires lock == if WorkerHolds(pc) then Some(Worker(w))
                     else if WorkerHolds(s.workers[w]) then None else s.consumerLock
    ensures var s' := SetWorker(s, w, pc).(consumerLock := lock);
            LocksOk(s') && Taken(s') == Taken(s) && Put(s') == Put(s)
  {
    hide WaitOk, RingOk, CountOk, ThreadsOk, FatesOk;
  }

  /** Waiters stay covered when only worker `w` moved and it kept its commitments. */
  lemma MoveAwake(c: Config, s: State, s': State, w: nat)
    requires Inv(c, s) && w < |s.workers| && |s'.workers| == |s.workers|
    requires forall v :: 0 <= v < |s.workers| && v != w ==> s'.workers[v] == s.workers[v]
    requires s'.clients == s.clients && s'.epoch == s.epoch && s'.idleWaiters == s.idleWaiters
    requires TrulyIdle(s') ==> TrulyIdle(s) || WorkerCommits(s'.workers[w])
    requires WorkerCommits(s.workers[w]) ==> WorkerCommits(s'.workers[w]) || s.idleWaiters == 0
    requires !s.workers[w].NotifyAll?
    ensures WaitOk(s')
  {
    forall i | 0 <= i < |s.clients| ensures AwakeOk(s', s'.clients[i]) {
      var pc := s.clients[i];
      assert AwakeOk(s, pc);
      if pc.EpochTest? || pc.Blocked? {
        SumAtLeast(WaitWeight, s.clients, i);
        if pc.epoch == s.epoch && TrulyIdle(s') && !WorkerCommits(s'.workers[w]) {
          assert Committed(s);
          if v :| 0 <= v < |s.workers| && WorkerCommits(s.workers[v]) {
            assert v != w && WorkerCommits(s'.workers[v]);
          }
        }
        if pc.Blocked? && pc.epoch < s.epoch {
          if v :| 0 <= v < |s.workers| && s.workers[v].NotifyAll? {
            assert v != w && s'.workers[v].NotifyAll?;
          }
        }
      }
    }
  }

  lemma TopStep(c: Config, s: State, w: nat)
    requires Inv(c, s) && WorkerEnabled(s, w) && s.workers[w].Top?
    ensures Inv(c, WorkerTop(s, w))
  {
    WorkerMove(c, s, w, if PendingOf(s.word) == 0 then Exited else AcquireC, s.consumerLock);
  }

  lemma AcquireStep(c: Config, s: State, w: nat)
    requires Inv(c, s) && WorkerEnabled(s, w) && s.workers[w].AcquireC?
    ensures Inv(c, SetWorker(s, w, LoadC).(consumerLock := Some(Worker(w))))
  {
    WorkerMove(c, s, w, LoadC, Some(Worker(w)));
  }

  /** A worker that reads a non-zero pending count finds the head slot full. */
  lemma LoadStep(c: Config, s: State, w: nat)
    requires Inv(c, s) && WorkerEnabled(s, w) && s.workers[w].LoadC?
    ensures Inv(c, WorkerLoad(s, w))
  {
    assert s.consumerLock == Some(Worker(w));
    if PendingOf(s.word) == 0 {
      WorkerMove(c, s, w, Top, None);
    } else {
      HeadFull(c, s);
      WorkerMove(c, s, w, Claim(HeadItem(s).value.bulk, PendingOf(s.word), |s.removed|, []), s.consumerLock);
    }
  }

  predicate CanTake(s: State, w: nat) {
    && w < |s.workers| && s.workers[w].Claim? && WantsMore(s, s.workers[w])
    && |s.removed| < |s.written| && HeadItem(s) == Some(s.written[|s.removed|].item)
  }

  /** A claiming worker below its limit always finds a full slot. */
  lemma TakeReady(c: Config, s: State, w: nat)
    requires Inv(c, s) && w < |s.workers| && s.workers[w].Claim? && WantsMore(s, s.workers[w])
    ensures CanTake(s, w)
  {
    assert WorkerOk(c, s.word, s.written, s.removed, w, s.workers[w]);
    assert s.consumerLock == Some(Worker(w));
    HeadFull(c, s);
  }

  lemma TakeCounts(c: Config, s: State, w: nat)
    requires Inv(c, s) && CanTake(s, w)
    ensures LocksOk(TakeSlot(c, s, w)) && CountOk(c, TakeSlot(c, s, w))
  {
    var s' := TakeSlot(c, s, w);
    assert s.consumerLock == Some(Worker(w));
    SumUpdate(Held, s.workers, w, s'.workers[w]);
  }

  lemma TakeThreads(c: Config, s: State, w: nat)
    requires Inv(c, s) && CanTake(s, w)
    ensures ThreadsOk(c, TakeSlot(c, s, w))
  {
    var s' := TakeSlot(c, s, w);
    forall v | 0 <= v < |s.workers| ensures WorkerOk(c, s'.word, s'.written, s'.removed, v, s'.workers[v]) {
      assert WorkerOk(c, s.word, s.written, s.removed, v, s.workers[v]);
      assert WorkerHolds(s.workers[v]) ==> v == w;
    }
  }

  lemma TakeFates(c: Config, s: State, w: nat)
    requires Inv(c, s) && CanTake(s, w)
    ensures FatesOk(TakeSlot(c, s, w))
  {
    var s' := TakeSlot(c, s, w);
    var entry := Removed(HeadItem(s).value, Running(w));
    assert WorkerOk(c, s.word, s.written, s.removed, w, s.workers[w]);
    SumAppend(FailedWeight, s.removed, entry);
    SumAppend(CancelledWeight, s.removed, entry);
  }

  lemma TakeStep(c: Config, s: State, w: nat)
    requires Inv(c, s) && WorkerEnabled(s, w) && s.workers[w].Claim? && WantsMore(s, s.workers[w])
    ensures Inv(c, TakeSlot(c, s, w))
  {
    var s' := TakeSlot(c, s, w);
    TakeReady(c, s, w);
    RingRemove(c, s, s', Running(w));
    TakeCounts(c, s, w);
    TakeThreads(c, s, w);
    TakeFates(c, s, w);
    SumUpdate(Held, s.workers, w, s'.workers[w]);
    hide RingOk, LocksOk, CountOk, ThreadsOk, FatesOk, WaitOk;
    MoveAwake(c, s, s', w);
  }

  predicate CanPublish(c: Config, s: State, w: nat) {
    && w < |s.workers| && s.workers[w].Claim?
    && BatchOk(c, s.workers[w].batch)
    && |s.workers[w].batch| <= PendingOf(s.word)
    && s.consumerLock == Some(Worker(w))
  }

  /** A worker that stops claiming has at least one task, and at most 16. */
  lemma PublishReady(c: Config, s: State, w: nat)
    requires Inv(c, s) && w < |s.workers| && s.workers[w].Claim? && !WantsMore(s, s.workers[w])
    ensures CanPublish(c, s, w)
  {
    var pc := s.workers[w];
    assert WorkerOk(c, s.word, s.written, s.removed, w, pc);
    assert s.consumerLock == Some(Worker(w));
    if |pc.batch| == 0 {
      HeadFull(c, s);
      assert false;
    }
    assert pc.batch[0] in pc.batch;
  }

  /** The single addition at claim time moves the batch from pending to active. */
  lemma PublishWord(c: Config, s: State, w: nat)
    requires Inv(c, s) && CanPublish(c, s, w)
    ensures var s' := PublishClaim(s, w);
            && PendingOf(s'.word) == PendingOf(s.word) - |s.workers[w].batch|
            && IsStopping(s'.word) == IsStopping(s.word)
            && Sum(Held, s'.workers) == Sum(Held, s.workers) + |s.workers[w].batch| <= MAX_ACTIVE
            && s'.word == Encode(PendingOf(s'.word), Sum(Held, s'.workers), IsStopping(s'.word))
  {
    hide RingOk, LocksOk, FatesOk, WaitOk;
    var s' := PublishClaim(s, w);
    var k := |s.workers[w].batch|;
    SumUpdate(Held, s.workers, w, s'.workers[w]);
    forall v | 0 <= v < |s'.workers| ensures Held(s'.workers[v]) <= MaxClaim(c) {
      assert WorkerOk(c, s.word, s.written, s.removed, v, s.workers[v]);
    }
    HeldBound(c, s'.workers);
    FieldsAreIndependent(PendingOf(s.word), Sum(Held, s.workers), IsStopping(s.word), k);
    Decode(PendingOf(s.word) - k, Sum(Held, s'.workers), IsStopping(s.word));
  }

  lemma PublishThreads(c: Config, s: State, w: nat)
    requires Inv(c, s) && CanPublish(c, s, w)
    ensures ThreadsOk(c, PublishClaim(s, w))
  {
    var s' := PublishClaim(s, w);
    PublishWord(c, s, w);
    forall v | 0 <= v < |s.workers| ensures WorkerOk(c, s'.word, s'.written, s'.removed, v, s'.workers[v]) {
      assert WorkerOk(c, s.word, s.written, s.removed, v, s.workers[v]);
      assert WorkerHolds(s.workers[v]) ==> v == w;
    }
    forall i | 0 <= i < |s.clients| ensures ClientOk(c, s'.word, s'.written, |s'.removed|, i, s'.clients[i]) {
      assert ClientOk(c, s.word, s.written, |s.removed|, i, s.clients[i]);
      assert !HoldsBoth(s.clients[i]);
    }
  }

  lemma PublishCounts(c: Config, s: State, w: nat)
    requires Inv(c, s) && CanPublish(c, s, w)
    ensures RingOk(c, PublishClaim(s, w)) && LocksOk(PublishClaim(s, w))
    ensures CountOk(c, PublishClaim(s, w)) && FatesOk(PublishClaim(s, w))
  {
    hide ThreadsOk, WaitOk;
    PublishWord(c, s, w);
  }

  lemma PublishStep(c: Config, s: State, w: nat)
    requires Inv(c, s) && WorkerEnabled(s, w) && s.workers[w].Claim? && !WantsMore(s, s.workers[w])
    ensures Inv(c, PublishClaim(s, w))
  {
    hide RingOk, LocksOk, CountOk, ThreadsOk, FatesOk, WaitOk;
    PublishReady(c, s, w);
    PublishWord(c, s, w);
    PublishThreads(c, s, w);
    PublishCounts(c, s, w);
    MoveAwake(c, s, PublishClaim(s, w), w);
  }

  lemma ReleaseStep(c: Config, s: State, w: nat)
    requires Inv(c, s) && WorkerEnabled(s, w) && s.workers[w].ReleaseC?
    ensures Inv(c, SetWorker(s, w, Run(s.workers[w].base, s.workers[w].batch, 0)).(consumerLock := None))
  {
    assert WorkerOk(c, s.word, s.written, s.removed, w, s.workers[w]);
    WorkerMove(c, s, w, Run(s.workers[w].base, s.workers[w].batch, 0), None);
  }

  predicate CanRun(s: State, w: nat) {
    && w < |s.workers| && s.workers[w].Run? && s.workers[w].next < |s.workers[w].batch|
    && s.workers[w].base + s.workers[w].next < |s.removed|
    && s.removed[s.workers[w].base + s.workers[w].next] ==
       Removed(s.workers[w].batch[s.workers[w].next], Running(w))
  }

  /** The promise of the task about to run has never been set. */
  lemma RunReady(c: Config, s: State, w: nat)
    requires Inv(c, s) && w < |s.workers| && s.workers[w].Run? && s.workers[w].next < |s.workers[w].batch|
    ensures CanRun(s, w)
  {
    assert WorkerOk(c, s.word, s.written, s.removed, w, s.workers[w]);
  }

  /** Settling one task does not touch what any other worker owes. */
  lemma RunOwned(c: Config, s: State, w: nat, o: Outcome, v: nat)
    requires Inv(c, s) && CanRun(s, w) && v < |s.workers|
    ensures WorkerOk(c, s.word, s.written, RunOne(s, w, o).removed, v, RunOne(s, w, o).workers[v])
  {
    assert WorkerOk(c, s.word, s.written, s.removed, v, s.workers[v]);
    var t := s.workers[w].base + s.workers[w].next;
    var removed := RunOne(s, w, o).removed;
    assert forall u :: 0 <= u < |s.removed| && u != t ==> removed[u] == s.removed[u];
    assert v != w ==> !Owes(s.workers[v], t);
  }

  lemma RunThreads(c: Config, s: State, w: nat, o: Outcome)
    requires Inv(c, s) && CanRun(s, w)
    ensures ThreadsOk(c, RunOne(s, w, o))
  {
    forall v | 0 <= v < |s.workers|
      ensures WorkerOk(c, s.word, s.written, RunOne(s, w, o).removed, v, RunOne(s, w, o).workers[v])
    {
      RunOwned(c, s, w, o, v);
    }
  }

  lemma RunFates(c: Config, s: State, w: nat, o: Outcome)
    requires Inv(c, s) && CanRun(s, w)
    ensures FatesOk(RunOne(s, w, o))
  {
    var s' := RunOne(s, w, o);
    var t := s.workers[w].base + s.workers[w].next;
    SumUpdate(FailedWeight, s.removed, t, s'.removed[t]);
    SumUpdate(CancelledWeight, s.removed, t, s'.removed[t]);
  }

  lemma RunCounts(c: Config, s: State, w: nat, o: Outcome)
    requires Inv(c, s) && CanRun(s, w)
    ensures RingOk(c, RunOne(s, w, o)) && LocksOk(RunOne(s, w, o)) && CountOk(c, RunOne(s, w, o))
    ensures Sum(Held, RunOne(s, w, o).workers) == Sum(Held, s.workers)
  {
    hide ThreadsOk, WaitOk, FatesOk;
    SumUpdate(Held, s.workers, w, RunOne(s, w, o).workers[w]);
  }

  lemma RunStep(c: Config, s: State, w: nat, o: Outcome)
    requires Inv(c, s) && WorkerEnabled(s, w)
    requires s.workers[w].Run? && s.workers[w].next < |s.workers[w].batch|
    ensures Inv(c, RunOne(s, w, o))
  {
    hide RingOk, LocksOk, CountOk, ThreadsOk, FatesOk, WaitOk;
    RunReady(c, s, w);
    RunCounts(c, s, w, o);
    RunThreads(c, s, w, o);
    RunFates(c, s, w, o);
    MoveAwake(c, s, RunOne(s, w, o), w);
  }

  lemma FinishWord(c: Config, s: State, w: nat)
    requires Inv(c, s) && w < |s.workers| && s.workers[w].Run?
    ensures var s' := FinishTasks(s, w);
            && PendingOf(s'.word) == PendingOf(s.word)
            && IsStopping(s'.word) == IsStopping(s.word)
            && Sum(Held, s'.workers) + |s.workers[w].batch| == Sum(Held, s.workers)
            && s'.word == Encode(PendingOf(s'.word), Sum(Held, s'.workers), IsStopping(s'.word))
            && (TrulyIdle(s') ==> s'.workers[w] == NotifyTest)
  {
    hide RingOk, LocksOk, FatesOk, WaitOk;
    var s' := FinishTasks(s, w);
    var k := |s.workers[w].batch|;
    assert WorkerOk(c, s.word, s.written, s.removed, w, s.workers[w]);
    SumUpdate(Held, s.workers, w, s'.workers[w]);
    var a := Sum(Held, s.workers);
    FieldsAreIndependent(PendingOf(s.word), a, IsStopping(s.word), k);
    Decode(PendingOf(s.word), a, IsStopping(s.word));
    Decode(PendingOf(s.word), a - k, IsStopping(s.word));
  }

  lemma FinishThreads(c: Config, s: State, w: nat)
    requires Inv(c, s) && w < |s.workers| && s.workers[w].Run?
    ensures ThreadsOk(c, FinishTasks(s, w))
  {
    var s' := FinishTasks(s, w);
    FinishWord(c, s, w);
    forall v | 0 <= v < |s.workers| ensures WorkerOk(c, s'.word, s'.written, s'.removed, v, s'.workers[v]) {
      assert WorkerOk(c, s.word, s.written, s.removed, v, s.workers[v]);
    }
    forall i | 0 <= i < |s.clients| ensures ClientOk(c, s'.word, s'.written, |s'.removed|, i, s'.clients[i]) {
      assert ClientOk(c, s.word, s.written, |s.removed|, i, s.clients[i]);
    }
  }

  lemma FinishCounts(c: Config, s: State, w: nat)
    requires Inv(c, s) && w < |s.workers| && s.workers[w].Run?
    requires s.workers[w].next == |s.workers[w].batch|
    ensures RingOk(c, FinishTasks(s, w)) && LocksOk(FinishTasks(s, w))
    ensures CountOk(c, FinishTasks(s, w)) && FatesOk(FinishTasks(s, w))
  {
    hide ThreadsOk, WaitOk;
    FinishWord(c, s, w);
  }

  lemma FinishStep(c: Config, s: State, w: nat)
    requires Inv(c, s) && WorkerEnabled(s, w)
    requires s.workers[w].Run? && s.workers[w].next == |s.workers[w].batch|
    ensures Inv(c, FinishTasks(s, w))
  {
    hide RingOk, LocksOk, CountOk, ThreadsOk, FatesOk, WaitOk;
    FinishWord(c, s, w);
    FinishThreads(c, s, w);
    FinishCounts(c, s, w);
    MoveAwake(c, s, FinishTasks(s, w), w);
  }

  lemma NotifyTestStep(c: Config, s: State, w: nat)
    requires Inv(c, s) && WorkerEnabled(s, w) && s.workers[w].NotifyTest?
    ensures Inv(c, SetWorker(s, w, if s.idleWaiters == 0 then Top else NotifyBump))
  {
    WorkerMove(c, s, w, if s.idleWaiters == 0 then Top else NotifyBump, s.consumerLock);
  }

  lemma BumpFrame(c: Config, s: State, w: nat)
    requires Inv(c, s) && w < |s.workers| && s.workers[w].NotifyBump?
    ensures var s' := SetWorker(s, w, NotifyAll).(epoch := s.epoch + 1);
            RingOk(c, s') && LocksOk(s') && CountOk(c, s') && ThreadsOk(c, s') && FatesOk(s')
  {
    hide WaitOk;
    SumUpdate(Held, s.workers, w, NotifyAll);
  }

  /** Advancing the epoch releases every waiter; the parked ones await notify_all. */
  lemma BumpStep(c: Config, s: State, w: nat)
    requires Inv(c, s) && WorkerEnabled(s, w) && s.workers[w].NotifyBump?
    ensures Inv(c, SetWorker(s, w, NotifyAll).(epoch := s.epoch + 1))
  {
    hide RingOk, LocksOk, CountOk, ThreadsOk, FatesOk;
    var s' := SetWorker(s, w, NotifyAll).(epoch := s.epoch + 1);
    BumpFrame(c, s, w);
    forall i | 0 <= i < |s.clients| ensures AwakeOk(s', s'.clients[i]) {
      assert AwakeOk(s, s.clients[i]);
      assert s'.workers[w].NotifyAll?;
    }
  }

  lemma NotifyFrame(c: Config, s: State, w: nat)
    requires Inv(c, s) && WorkerEnabled(s, w) && s.workers[w].NotifyAll?
    ensures var s' := SetWorker(s, w, Top).(clients := Wake(s.clients));
            RingOk(c, s') && LocksOk(s') && CountOk(c, s') && FatesOk(s')
  {
    hide WaitOk, ThreadsOk, LocksOk;
    SumUpdate(Held, s.workers, w, Top);
    NotifyLocks(c, s, w);
  }

  lemma NotifyLocks(c: Config, s: State, w: nat)
    requires Inv(c, s) && WorkerEnabled(s, w) && s.workers[w].NotifyAll?
    ensures var s' := SetWorker(s, w, Top).(clients := Wake(s.clients));
            LocksOk(s') && Put(s') == Put(s) && Taken(s') == Taken(s)
  {
    hide WaitOk, ThreadsOk, RingOk, CountOk, FatesOk;
    WakeKeeps(c, s);
  }

  lemma NotifyThreads(c: Config, s: State, w: nat)
    requires Inv(c, s) && WorkerEnabled(s, w) && s.workers[w].NotifyAll?
    ensures ThreadsOk(c, SetWorker(s, w, Top).(clients := Wake(s.clients)))
  {
    hide RingOk, LocksOk, CountOk, FatesOk, WaitOk;
    WakeKeeps(c, s);
  }

  lemma NotifyStep(c: Config, s: State, w: nat)
    requires Inv(c, s) && WorkerEnabled(s, w) && s.workers[w].NotifyAll?
    ensures Inv(c, SetWorker(s, w, Top).(clients := Wake(s.clients)))
  {
    hide RingOk, LocksOk, CountOk, ThreadsOk, FatesOk, WaitOk;
    NotifyFrame(c, s, w);
    NotifyThreads(c, s, w);
    NotifyWaits(c, s, w);
  }

  lemma NotifyWaits(c: Config, s: State, w: nat)
    requires Inv(c, s) && WorkerEnabled(s, w) && s.workers[w].NotifyAll?
    ensures WaitOk(SetWorker(s, w, Top).(clients := Wake(s.clients)))
  {
    var s' := SetWorker(s, w, Top).(clients := Wake(s.clients));
    SumUpdate(Held, s.workers, w, Top);
    WakeKeeps(c, s);
    forall i | 0 <= i < |s.clients| ensures AwakeOk(s', s'.clients[i]) {
      WokenCovered(c, s, s', i);
      if v :| 0 <= v < |s.workers| && WorkerCommits(s.workers[v]) {
        assert WorkerCommits(s'.workers[v]);
      }
    }
  }

  /** Waking parked threads changes nothing that the other invariants look at. */
  lemma WakeKeeps(c: Config, s: State)
    requires Inv(c, s)
    ensures Sum(WaitWeight, Wake(s.clients)) == Sum(WaitWeight, s.clients)
    ensures forall i :: 0 <= i < |s.clients| ==>
              && Wake(s.clients)[i] == WakePc(s.clients[i])
              && HoldsBoth(Wake(s.clients)[i]) == HoldsBoth(s.clients[i])
              && HoldsProducer(Wake(s.clients)[i]) == HoldsProducer(s.clients[i])
              && ClientCommits(Wake(s.clients)[i]) == ClientCommits(s.clients[i])
              && ClientOk(c, s.word, s.written, |s.removed|, i, Wake(s.clients)[i])
              && ClientPut(Wake(s.clients)[i]) == ClientPut(s.clients[i])
              && ClientTaken(Wake(s.clients)[i]) == ClientTaken(s.clients[i])
  {
    SumWake(s.clients);
    forall i | 0 <= i < |s.clients| ensures ClientOk(c, s.word, s.written, |s.removed|, i, Wake(s.clients)[i]) {
      assert ClientOk(c, s.word, s.written, |s.removed|, i, s.clients[i]);
    }
  }

  lemma {:induction false} SumWake(clients: seq<ClientPc>)
    ensures Sum(WaitWeight, Wake(clients)) == Sum(WaitWeight, clients)
    decreases |clients|
  {
    if |clients| > 0 {
      var last := |clients| - 1;
      assert Wake(clients)[..last] == Wake(clients[..last]);
      SumWake(clients[..last]);
    }
  }

  /** A woken waiter is covered by whatever covered it while it was parked. */
  lemma WokenCovered(c: Config, s: State, s': State, i: nat)
    requires Inv(c, s) && i < |s.clients| == |s'.clients|
    requires s'.clients[i] == WakePc(s.clients[i])
    requires s'.epoch == s.epoch && TrulyIdle(s') == TrulyIdle(s)
    requires forall j :: 0 <= j < |s.clients| && ClientCommits(s.clients[j]) ==> ClientCommits(s'.clients[j])
    ensures s'.clients[i].EpochTest? && s'.clients[i].epoch == s.epoch && TrulyIdle(s') && !Committed(s') ==>
              exists v :: 0 <= v < |s.workers| && WorkerCommits(s.workers[v])
    ensures !s'.clients[i].Blocked?
    ensures s'.clients[i].IdleAgain? || s'.clients[i].EpochTest? ==> s'.clients[i].epoch <= s.epoch
  {
    assert AwakeOk(s, s.clients[i]);
  }

  lemma ClaimPhaseKeeps(c: Config, s: State, w: nat, o: Outcome)
    requires Inv(c, s) && WorkerEnabled(s, w) && WorkerHolds(s.workers[w])
    ensures Inv(c, WorkerNext(c, s, w, o))
  {
    hide RingOk, LocksOk, CountOk, ThreadsOk, FatesOk, WaitOk;
    if s.workers[w].LoadC? {
      LoadStep(c, s, w);
    } else if s.workers[w].ReleaseC? {
      ReleaseStep(c, s, w);
    } else if WantsMore(s, s.workers[w]) {
      TakeStep(c, s, w);
    } else {
      PublishStep(c, s, w);
    }
  }

  lemma RunPhaseKeeps(c: Config, s: State, w: nat, o: Outcome)
    requires Inv(c, s) && WorkerEnabled(s, w) && s.workers[w].Run?
    ensures Inv(c, WorkerNext(c, s, w, o))
  {
    hide RingOk, LocksOk, CountOk, FatesOk, WaitOk;
    assert WorkerOk(c, s.word, s.written, s.removed, w, s.workers[w]);
    if s.workers[w].next < |s.workers[w].batch| {
      RunStep(c, s, w, o);
    } else {
      FinishStep(c, s, w);
    }
  }

  lemma IdlePhaseKeeps(c: Config, s: State, w: nat, o: Outcome)
    requires Inv(c, s) && WorkerEnabled(s, w) && !WorkerHolds(s.workers[w]) && !s.workers[w].Run?
    ensures Inv(c, WorkerNext(c, s, w, o))
  {
    hide RingOk, LocksOk, CountOk, ThreadsOk, FatesOk, WaitOk;
    match s.workers[w]
    case Top => TopStep(c, s, w);
    case AcquireC => AcquireStep(c, s, w);
    case NotifyTest => NotifyTestStep(c, s, w);
    case NotifyBump => BumpStep(c, s, w);
    case NotifyAll => NotifyStep(c, s, w);
  }

  lemma WorkerStepKeeps(c: Config, s: State, w: nat, o: Outcome)
    requires Inv(c, s) && WorkerEnabled(s, w)
    ensures Inv(c, WorkerNext(c, s, w, o))
  {
    hide RingOk, LocksOk, CountOk, ThreadsOk, FatesOk, WaitOk;
    if WorkerHolds(s.workers[w]) {
      ClaimPhaseKeeps(c, s, w, o);
    } else if s.workers[w].Run? {
      RunPhaseKeeps(c, s, w, o);
    } else {
      IdlePhaseKeeps(c, s, w, o);
    }
  }
}
