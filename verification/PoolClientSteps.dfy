/** Every client step preserves the invariant. */
module PoolClientSteps {
  import opened Common
  import opened PackedState
  import opened PoolMachine
  import opened PoolInvariant
  import opened PoolWorkerSteps

  /** The state after a client moves its program counter and takes or drops locks. */
  function Moved(s: State, i: nat, pc: ClientPc): State
    requires i < |s.clients|
  {
    SetClient(s, i, pc).(
      producerLock := if HoldsProducer(pc) then Some(i)
                      else if HoldsProducer(s.clients[i]) then None else s.producerLock,
      consumerLock := if HoldsBoth(pc) then Some(Client(i))
                      else if HoldsBoth(s.clients[i]) then None else s.consumerLock)
  }

  ghost predicate MayMove(c: Config, s: State, i: nat, pc: ClientPc) {
    && i < |s.clients|
    && ClientPut(pc) == ClientPut(s.clients[i]) == 0
    && ClientTaken(pc) == ClientTaken(s.clients[i]) == 0
    && InWait(pc) == InWait(s.clients[i])
    && ClientOk(c, s.word, s.written, |s.removed|, i, pc)
    && AwakeOk(s, pc)
    && (ClientCommits(s.clients[i]) ==> ClientCommits(pc) || s.idleWaiters == 0 || !TrulyIdle(s))
    && !s.clients[i].CNotifyAll?
    && (HoldsProducer(pc) && !HoldsProducer(s.clients[i]) ==> s.producerLock == None)
    && (HoldsBoth(pc) && !HoldsBoth(s.clients[i]) ==> s.consumerLock == None)
  }

  /** A step that only moves one client's program counter, and perhaps takes or
      releases locks, keeps the invariant. */
  lemma ClientMove(c: Config, s: State, i: nat, pc: ClientPc)
    requires Inv(c, s) && MayMove(c, s, i, pc)
    ensures Inv(c, Moved(s, i, pc))
  {
    hide RingOk, LocksOk, CountOk, ThreadsOk, FatesOk;
    ClientMoveLocks(c, s, i, pc);
    ClientMoveFrame(c, s, i, pc);
    SumUpdate(WaitWeight, s.clients, i, pc);
    SumAtLeast(WaitWeight, s.clients, i);
    ClientAwake(c, s, Moved(s, i, pc), i);
  }

  lemma ClientMoveLocks(c: Config, s: State, i: nat, pc: ClientPc)
    requires Inv(c, s) && MayMove(c, s, i, pc)
    ensures LocksOk(Moved(s, i, pc))
    ensures Put(Moved(s, i, pc)) == Put(s) && Taken(Moved(s, i, pc)) == Taken(s)
  {
    hide RingOk, CountOk, ThreadsOk, FatesOk, WaitOk;
  }

  lemma ClientMoveFrame(c: Config, s: State, i: nat, pc: ClientPc)
    requires Inv(c, s) && MayMove(c, s, i, pc)
    ensures var s' := Moved(s, i, pc); RingOk(c, s') && CountOk(c, s') && ThreadsOk(c, s') && FatesOk(s')
  {
    hide LocksOk, WaitOk;
    ClientMoveLocks(c, s, i, pc);
  }

  /** Waiters stay covered when only client `i` moved and it kept its commitments. */
  lemma ClientAwake(c: Config, s: State, s': State, i: nat)
    requires Inv(c, s) && i < |s.clients| == |s'.clients|
    requires forall j :: 0 <= j < |s.clients| && j != i ==> s'.clients[j] == s.clients[j]
    requires s'.workers == s.workers && s'.epoch == s.epoch
    requires s'.idleWaiters == Sum(WaitWeight, s'.clients)
    requires TrulyIdle(s') ==> TrulyIdle(s) || ClientCommits(s'.clients[i])
    requires ClientCommits(s.clients[i]) ==>
               ClientCommits(s'.clients[i]) || s.idleWaiters == 0 || !TrulyIdle(s)
    requires !s.clients[i].CNotifyAll?
    requires AwakeOk(s, s'.clients[i])
    requires s.idleWaiters == 0 ==> !s'.clients[i].EpochTest? && !s'.clients[i].Blocked?
    ensures WaitOk(s')
  {
    hide RingOk, LocksOk, CountOk, ThreadsOk, FatesOk;
    forall j | 0 <= j < |s.clients| ensures AwakeOk(s', s'.clients[j]) {
      var pc := s'.clients[j];
      assert AwakeOk(s, pc);
      if pc.EpochTest? || pc.Blocked? {
        if j != i { SumAtLeast(WaitWeight, s.clients, j); }
        if pc.epoch == s.epoch && TrulyIdle(s') && !ClientCommits(s'.clients[i]) {
          assert Committed(s);
          if v :| 0 <= v < |s.clients| && ClientCommits(s.clients[v]) {
            assert v != i && ClientCommits(s'.clients[v]);
          }
        }
        if pc.Blocked? && pc.epoch < s.epoch {
          if v :| 0 <= v < |s.clients| && s.clients[v].CNotifyAll? {
            assert v != i && s'.clients[v].CNotifyAll?;
          }
        }
      }
    }
  }

  // ------------------------------------------------------------ submissions

  lemma ProducerLoadStep(c: Config, s: State, i: nat)
    requires Inv(c, s) && i < |s.clients| && s.clients[i].LoadP?
    ensures Inv(c, ProducerLoad(c, s, i))
  {
    hide RingOk, FatesOk, WaitOk;
    var job := s.clients[i].job;
    assert ClientOk(c, s.word, s.written, |s.removed|, i, s.clients[i]);
    assert s.producerLock == Some(i) && s.consumerLock != Some(Client(i));
    var available: int := c.capacity - PendingOf(s.word);
    var pc := if IsStopping(s.word) then Submitted(job, true)
              else if available <= 0 then Space(job)
              else Write(job, Min(Monus(|job.items|, |job.tickets|), available), 0);
    ClientMove(c, s, i, pc);
  }

  lemma ProducerReleaseStep(c: Config, s: State, i: nat)
    requires Inv(c, s) && i < |s.clients| && s.clients[i].ReleaseP?
    ensures Inv(c, ProducerRelease(s, i))
  {
    hide RingOk, FatesOk, WaitOk;
    var job := s.clients[i].job;
    assert ClientOk(c, s.word, s.written, |s.removed|, i, s.clients[i]);
    assert s.producerLock == Some(i) && s.consumerLock != Some(Client(i));
    ClientMove(c, s, i, if |job.tickets| < |job.items| then Space(job) else Submitted(job, false));
  }

  predicate CanWrite(c: Config, s: State, i: nat) {
    && i < |s.clients| && s.clients[i].Write? && s.clients[i].unpublished < s.clients[i].room
    && s.producerLock == Some(i)
    && s.tail < |s.slots| && s.slots[s.tail] == None
    && |s.clients[i].job.tickets| < |s.clients[i].job.items|
    && |s.written| < |s.removed| + c.capacity
  }

  /** A producer that reserved room always finds the tail slot empty. */
  lemma WriteReady(c: Config, s: State, i: nat)
    requires Inv(c, s) && i < |s.clients| && s.clients[i].Write?
    requires s.clients[i].unpublished < s.clients[i].room
    ensures CanWrite(c, s, i)
  {
    assert ClientOk(c, s.word, s.written, |s.removed|, i, s.clients[i]);
    assert s.producerLock == Some(i);
    TakenBound(c, s);
    TailEmpty(c, s);
  }

  /** What has been taken without publishing never exceeds what is pending. */
  lemma TakenBound(c: Config, s: State)
    requires Inv(c, s)
    ensures 0 <= Taken(s) <= PendingOf(s.word)
  {
    match s.consumerLock
    case Some(Worker(w)) => assert WorkerOk(c, s.word, s.written, s.removed, w, s.workers[w]);
    case Some(Client(i)) => assert ClientOk(c, s.word, s.written, |s.removed|, i, s.clients[i]);
    case None =>
  }

  lemma WriteThreads(c: Config, s: State, i: nat)
    requires Inv(c, s) && CanWrite(c, s, i)
    ensures ThreadsOk(c, WriteSlot(c, s, i))
  {
    hide RingOk, CountOk, FatesOk, WaitOk;
    var s' := WriteSlot(c, s, i);
    forall j | 0 <= j < |s.clients| ensures ClientOk(c, s'.word, s'.written, |s'.removed|, j, s'.clients[j]) {
      assert ClientOk(c, s.word, s.written, |s.removed|, j, s.clients[j]);
      assert HoldsProducer(s.clients[j]) ==> j == i;
    }
    forall w | 0 <= w < |s.workers| ensures WorkerOk(c, s'.word, s'.written, s'.removed, w, s'.workers[w]) {
      assert WorkerOk(c, s.word, s.written, s.removed, w, s.workers[w]);
    }
  }

  lemma WriteCounts(c: Config, s: State, i: nat)
    requires Inv(c, s) && CanWrite(c, s, i)
    ensures LocksOk(WriteSlot(c, s, i)) && CountOk(c, WriteSlot(c, s, i)) && FatesOk(WriteSlot(c, s, i))
  {
    hide RingOk, ThreadsOk, WaitOk;
  }

  lemma WriteStep(c: Config, s: State, i: nat)
    requires Inv(c, s) && i < |s.clients| && s.clients[i].Write?
    requires s.clients[i].unpublished < s.clients[i].room
    ensures Inv(c, WriteSlot(c, s, i))
  {
    hide RingOk, LocksOk, CountOk, ThreadsOk, FatesOk;
    var s' := WriteSlot(c, s, i);
    WriteReady(c, s, i);
    RingWrite(c, s, s', Written(s.clients[i].job.items[|s.clients[i].job.tickets|], i));
    WriteThreads(c, s, i);
    WriteCounts(c, s, i);
    SumUpdate(WaitWeight, s.clients, i, s'.clients[i]);
    ClientAwake(c, s, s', i);
  }

  lemma PublishWritesWord(c: Config, s: State, i: nat)
    requires Inv(c, s) && i < |s.clients| && s.clients[i].Write?
    ensures var s' := PublishWrites(s, i);
            && PendingOf(s'.word) == PendingOf(s.word) + s.clients[i].unpublished <= c.capacity
            && IsStopping(s'.word) == IsStopping(s.word) == false
            && s'.word == Encode(PendingOf(s'.word), Sum(Held, s.workers), IsStopping(s'.word))
  {
    hide RingOk, LocksOk, FatesOk, WaitOk;
    assert ClientOk(c, s.word, s.written, |s.removed|, i, s.clients[i]);
    var k := s.clients[i].unpublished;
    FieldsAreIndependent(PendingOf(s.word), Sum(Held, s.workers), IsStopping(s.word), k);
    Decode(PendingOf(s.word) + k, Sum(Held, s.workers), IsStopping(s.word));
  }

  lemma PublishWritesThreads(c: Config, s: State, i: nat)
    requires Inv(c, s) && i < |s.clients| && s.clients[i].Write?
    ensures ThreadsOk(c, PublishWrites(s, i))
  {
    hide RingOk, CountOk, FatesOk, WaitOk;
    var s' := PublishWrites(s, i);
    PublishWritesWord(c, s, i);
    assert s.producerLock == Some(i);
    forall j | 0 <= j < |s.clients| ensures ClientOk(c, s'.word, s'.written, |s'.removed|, j, s'.clients[j]) {
      assert ClientOk(c, s.word, s.written, |s.removed|, j, s.clients[j]);
      assert HoldsProducer(s.clients[j]) ==> j == i;
    }
    forall w | 0 <= w < |s.workers| ensures WorkerOk(c, s'.word, s'.written, s'.removed, w, s'.workers[w]) {
      assert WorkerOk(c, s.word, s.written, s.removed, w, s.workers[w]);
    }
  }

  lemma PublishWritesCounts(c: Config, s: State, i: nat)
    requires Inv(c, s) && i < |s.clients| && s.clients[i].Write?
    ensures var s' := PublishWrites(s, i); RingOk(c, s') && LocksOk(s') && CountOk(c, s') && FatesOk(s')
  {
    hide ThreadsOk, WaitOk;
    PublishWritesWord(c, s, i);
    assert s.producerLock == Some(i);
  }

  lemma PublishWritesStep(c: Config, s: State, i: nat)
    requires Inv(c, s) && i < |s.clients| && s.clients[i].Write?
    requires s.clients[i].unpublished == s.clients[i].room
    ensures Inv(c, PublishWrites(s, i))
  {
    hide RingOk, LocksOk, CountOk, FatesOk;
    var s' := PublishWrites(s, i);
    assert ClientOk(c, s.word, s.written, |s.removed|, i, s.clients[i]);
    hide ThreadsOk;
    PublishWritesWord(c, s, i);
    PublishWritesThreads(c, s, i);
    PublishWritesCounts(c, s, i);
    SumUpdate(WaitWeight, s.clients, i, s'.clients[i]);
    ClientAwake(c, s, s', i);
  }

  // ------------------------------------------------------------ cancellation

  predicate CanCancel(s: State, i: nat) {
    && i < |s.clients| && s.clients[i].Cancel? && s.clients[i].left > 0
    && s.consumerLock == Some(Client(i))
    && |s.removed| < |s.written| && HeadItem(s) == Some(s.written[|s.removed|].item)
  }

  /** Both locks held, the canceller finds one full slot per remaining task. */
  lemma CancelReady(c: Config, s: State, i: nat)
    requires Inv(c, s) && i < |s.clients| && s.clients[i].Cancel?
    ensures s.producerLock == Some(i) && s.consumerLock == Some(Client(i))
    ensures |s.written| - |s.removed| == s.clients[i].left
    ensures s.clients[i].left > 0 ==> CanCancel(s, i)
  {
    assert ClientOk(c, s.word, s.written, |s.removed|, i, s.clients[i]);
    if s.clients[i].left > 0 {
      HeadFull(c, s);
    }
  }

  lemma CancelCounts(c: Config, s: State, i: nat)
    requires Inv(c, s) && CanCancel(s, i)
    ensures LocksOk(CancelOne(c, s, i)) && CountOk(c, CancelOne(c, s, i))
  {
    hide RingOk, ThreadsOk, FatesOk, WaitOk;
  }

  lemma CancelThreads(c: Config, s: State, i: nat)
    requires Inv(c, s) && CanCancel(s, i)
    ensures ThreadsOk(c, CancelOne(c, s, i))
  {
    hide RingOk, CountOk, FatesOk, WaitOk;
    var s' := CancelOne(c, s, i);
    forall w | 0 <= w < |s.workers| ensures WorkerOk(c, s'.word, s'.written, s'.removed, w, s'.workers[w]) {
      assert WorkerOk(c, s.word, s.written, s.removed, w, s.workers[w]);
      assert !WorkerHolds(s.workers[w]);
    }
    forall j | 0 <= j < |s.clients| ensures ClientOk(c, s'.word, s'.written, |s'.removed|, j, s'.clients[j]) {
      assert ClientOk(c, s.word, s.written, |s.removed|, j, s.clients[j]);
    }
  }

  lemma CancelFates(c: Config, s: State, i: nat)
    requires Inv(c, s) && CanCancel(s, i)
    ensures FatesOk(CancelOne(c, s, i))
  {
    hide RingOk, LocksOk, CountOk, ThreadsOk, WaitOk;
    var entry := Removed(HeadItem(s).value, Cancelled);
    SumAppend(FailedWeight, s.removed, entry);
    SumAppend(CancelledWeight, s.removed, entry);
  }

  lemma CancelStep(c: Config, s: State, i: nat)
    requires Inv(c, s) && i < |s.clients| && s.clients[i].Cancel? && s.clients[i].left > 0
    ensures Inv(c, CancelOne(c, s, i))
  {
    hide RingOk, LocksOk, CountOk, ThreadsOk, FatesOk;
    var s' := CancelOne(c, s, i);
    CancelReady(c, s, i);
    RingRemove(c, s, s', Cancelled);
    CancelCounts(c, s, i);
    CancelThreads(c, s, i);
    CancelFates(c, s, i);
    SumUpdate(WaitWeight, s.clients, i, s'.clients[i]);
    ClientAwake(c, s, s', i);
  }

  lemma CancelDoneWord(c: Config, s: State, i: nat)
    requires Inv(c, s) && i < |s.clients| && s.clients[i].Cancel?
    ensures var s' := CancelDone(s, i);
            && PendingOf(s'.word) == 0
            && IsStopping(s'.word) == IsStopping(s.word)
            && s'.word == Encode(0, Sum(Held, s.workers), IsStopping(s'.word))
            && (s.clients[i].total == 0 ==> s'.word == s.word)
  {
    hide RingOk, LocksOk, FatesOk, WaitOk;
    assert ClientOk(c, s.word, s.written, |s.removed|, i, s.clients[i]);
    var p := PendingOf(s.word);
    FieldsAreIndependent(p, Sum(Held, s.workers), IsStopping(s.word), p);
    Decode(0, Sum(Held, s.workers), IsStopping(s.word));
  }

  lemma CancelDoneThreads(c: Config, s: State, i: nat)
    requires Inv(c, s) && i < |s.clients| && s.clients[i].Cancel?
    ensures ThreadsOk(c, CancelDone(s, i))
  {
    hide RingOk, CountOk, FatesOk, WaitOk;
    var s' := CancelDone(s, i);
    CancelDoneWord(c, s, i);
    assert s.producerLock == Some(i) && s.consumerLock == Some(Client(i));
    forall j | 0 <= j < |s.clients| ensures ClientOk(c, s'.word, s'.written, |s'.removed|, j, s'.clients[j]) {
      assert ClientOk(c, s.word, s.written, |s.removed|, j, s.clients[j]);
      assert HoldsProducer(s.clients[j]) ==> j == i;
    }
    forall w | 0 <= w < |s.workers| ensures WorkerOk(c, s'.word, s'.written, s'.removed, w, s'.workers[w]) {
      assert WorkerOk(c, s.word, s.written, s.removed, w, s.workers[w]);
      assert !WorkerHolds(s.workers[w]);
    }
  }

  lemma CancelDoneCounts(c: Config, s: State, i: nat)
    requires Inv(c, s) && i < |s.clients| && s.clients[i].Cancel? && s.clients[i].left == 0
    ensures var s' := CancelDone(s, i); LocksOk(s') && CountOk(c, s') && FatesOk(s') && RingOk(c, s')
  {
    hide ThreadsOk, WaitOk;
    CancelDoneWord(c, s, i);
    CancelReady(c, s, i);
  }

  lemma CancelDoneStep(c: Config, s: State, i: nat)
    requires Inv(c, s) && i < |s.clients| && s.clients[i].Cancel? && s.clients[i].left == 0
    ensures Inv(c, CancelDone(s, i))
  {
    hide RingOk, LocksOk, CountOk, ThreadsOk, FatesOk;
    var s' := CancelDone(s, i);
    CancelDoneWord(c, s, i);
    CancelDoneThreads(c, s, i);
    CancelDoneCounts(c, s, i);
    SumUpdate(WaitWeight, s.clients, i, s'.clients[i]);
    ClientAwake(c, s, s', i);
  }

  /** Holding both locks, nothing is pending; so if no task is active, the load
      made after the subtraction sees zero and the epoch will be advanced. */
  lemma LoadActiveStep(c: Config, s: State, i: nat)
    requires Inv(c, s) && i < |s.clients| && s.clients[i].LoadActive?
    ensures Inv(c, SetClient(s, i, if ActiveOf(s.word) == 0 then CNotifyTest(s.clients[i].closing)
                                   else ReleaseBoth(s.clients[i].closing)))
  {
    hide RingOk, FatesOk, WaitOk;
    assert ClientOk(c, s.word, s.written, |s.removed|, i, s.clients[i]);
    assert s.producerLock == Some(i) && s.consumerLock == Some(Client(i));
    Decode(PendingOf(s.word), Sum(Held, s.workers), IsStopping(s.word));
    ClientMove(c, s, i, if ActiveOf(s.word) == 0 then CNotifyTest(s.clients[i].closing)
                        else ReleaseBoth(s.clients[i].closing));
  }

  lemma CNotifyTestStep(c: Config, s: State, i: nat)
    requires Inv(c, s) && i < |s.clients| && s.clients[i].CNotifyTest?
    ensures Inv(c, SetClient(s, i, if s.idleWaiters == 0 then ReleaseBoth(s.clients[i].closing)
                                   else CNotifyBump(s.clients[i].closing)))
  {
    hide RingOk, FatesOk, WaitOk;
    assert ClientOk(c, s.word, s.written, |s.removed|, i, s.clients[i]);
    assert s.producerLock == Some(i) && s.consumerLock == Some(Client(i));
    ClientMove(c, s, i, if s.idleWaiters == 0 then ReleaseBoth(s.clients[i].closing)
                        else CNotifyBump(s.clients[i].closing));
  }

  lemma CBumpFrame(c: Config, s: State, i: nat)
    requires Inv(c, s) && i < |s.clients| && s.clients[i].CNotifyBump?
    ensures var s' := SetClient(s, i, CNotifyAll(s.clients[i].closing)).(epoch := s.epoch + 1);
            RingOk(c, s') && LocksOk(s') && CountOk(c, s') && ThreadsOk(c, s') && FatesOk(s')
  {
    hide WaitOk;
    assert ClientOk(c, s.word, s.written, |s.removed|, i, s.clients[i]);
  }

  lemma CBumpStep(c: Config, s: State, i: nat)
    requires Inv(c, s) && i < |s.clients| && s.clients[i].CNotifyBump?
    ensures Inv(c, SetClient(s, i, CNotifyAll(s.clients[i].closing)).(epoch := s.epoch + 1))
  {
    hide RingOk, LocksOk, CountOk, ThreadsOk, FatesOk;
    var s' := SetClient(s, i, CNotifyAll(s.clients[i].closing)).(epoch := s.epoch + 1);
    CBumpFrame(c, s, i);
    SumUpdate(WaitWeight, s.clients, i, s'.clients[i]);
    forall j | 0 <= j < |s.clients| ensures AwakeOk(s', s'.clients[j]) {
      assert AwakeOk(s, s.clients[j]);
      assert s'.clients[i].CNotifyAll?;
    }
  }

  lemma CNotifyLocks(c: Config, s: State, i: nat)
    requires Inv(c, s) && i < |s.clients| && s.clients[i].CNotifyAll?
    ensures var s' := SetClient(s.(clients := Wake(s.clients)), i, ReleaseBoth(s.clients[i].closing));
            LocksOk(s') && Put(s') == Put(s) && Taken(s') == Taken(s)
  {
    hide WaitOk, RingOk, CountOk, FatesOk, ThreadsOk;
    WakeKeeps(c, s);
  }

  lemma CNotifyFrame(c: Config, s: State, i: nat)
    requires Inv(c, s) && i < |s.clients| && s.clients[i].CNotifyAll?
    ensures var s' := SetClient(s.(clients := Wake(s.clients)), i, ReleaseBoth(s.clients[i].closing));
            && LocksOk(s') && Put(s') == Put(s) && Taken(s') == Taken(s) && ThreadsOk(c, s')
            && Sum(WaitWeight, s'.clients) == Sum(WaitWeight, s.clients)
  {
    hide WaitOk, RingOk, CountOk, FatesOk, LocksOk;
    CNotifyLocks(c, s, i);
    WakeKeeps(c, s);
    assert ClientOk(c, s.word, s.written, |s.removed|, i, s.clients[i]);
    SumUpdate(WaitWeight, Wake(s.clients), i, ReleaseBoth(s.clients[i].closing));
    hide Sum, FetchAdd;
  }

  lemma CNotifyStep(c: Config, s: State, i: nat)
    requires Inv(c, s) && i < |s.clients| && s.clients[i].CNotifyAll?
    ensures Inv(c, SetClient(s.(clients := Wake(s.clients)), i, ReleaseBoth(s.clients[i].closing)))
  {
    hide LocksOk, ThreadsOk;
    var s' := SetClient(s.(clients := Wake(s.clients)), i, ReleaseBoth(s.clients[i].closing));
    CNotifyFrame(c, s, i);
    assert RingOk(c, s') && CountOk(c, s') && FatesOk(s');
    hide RingOk, CountOk, FatesOk;
    CNotifyWaits(c, s, i);
  }

  lemma CNotifyWaits(c: Config, s: State, i: nat)
    requires Inv(c, s) && i < |s.clients| && s.clients[i].CNotifyAll?
    ensures WaitOk(SetClient(s.(clients := Wake(s.clients)), i, ReleaseBoth(s.clients[i].closing)))
  {
    hide LocksOk, ThreadsOk, RingOk, CountOk, FatesOk;
    var s' := SetClient(s.(clients := Wake(s.clients)), i, ReleaseBoth(s.clients[i].closing));
    CNotifyFrame(c, s, i);
    forall j | 0 <= j < |s.clients| ensures AwakeOk(s', s'.clients[j]) {
      assert AwakeOk(s, s.clients[j]);
      if v :| 0 <= v < |s.clients| && ClientCommits(s.clients[v]) {
        assert v != i && ClientCommits(s'.clients[v]);
      }
    }
  }

  // ---------------------------------------------------------------- waiting

  lemma WaiterFrame(c: Config, s: State, i: nat, pc: ClientPc, n: nat)
    requires Inv(c, s) && i < |s.clients|
    requires (s.clients[i].WaiterEnter? && pc.LoadEpoch?) || (s.clients[i].WaiterLeave? && pc.IdleFirst?)
    ensures var s' := SetClient(s, i, pc).(idleWaiters := n);
            RingOk(c, s') && LocksOk(s') && CountOk(c, s') && ThreadsOk(c, s') && FatesOk(s')
  {
    hide WaitOk, LocksOk;
    WaiterLocks(c, s, i, pc, n);
  }

  lemma WaiterLocks(c: Config, s: State, i: nat, pc: ClientPc, n: nat)
    requires Inv(c, s) && i < |s.clients|
    requires (s.clients[i].WaiterEnter? && pc.LoadEpoch?) || (s.clients[i].WaiterLeave? && pc.IdleFirst?)
    ensures var s' := SetClient(s, i, pc).(idleWaiters := n);
            LocksOk(s') && Put(s') == Put(s) && Taken(s') == Taken(s)
  {
    hide WaitOk, RingOk, CountOk, FatesOk, ThreadsOk;
  }

  lemma WaiterEnterStep(c: Config, s: State, i: nat)
    requires Inv(c, s) && i < |s.clients| && s.clients[i].WaiterEnter?
    ensures Inv(c, SetClient(s, i, LoadEpoch).(idleWaiters := s.idleWaiters + 1))
  {
    hide RingOk, LocksOk, CountOk, ThreadsOk, FatesOk;
    var s' := SetClient(s, i, LoadEpoch).(idleWaiters := s.idleWaiters + 1);
    WaiterFrame(c, s, i, LoadEpoch, s.idleWaiters + 1);
    SumUpdate(WaitWeight, s.clients, i, LoadEpoch);
    ClientAwake(c, s, s', i);
  }

  lemma WaiterLeaveStep(c: Config, s: State, i: nat)
    requires Inv(c, s) && i < |s.clients| && s.clients[i].WaiterLeave?
    ensures s.idleWaiters > 0
    ensures Inv(c, SetClient(s, i, IdleFirst).(idleWaiters := s.idleWaiters - 1))
  {
    hide RingOk, LocksOk, CountOk, ThreadsOk, FatesOk;
    SumAtLeast(WaitWeight, s.clients, i);
    var s' := SetClient(s, i, IdleFirst).(idleWaiters := s.idleWaiters - 1);
    WaiterFrame(c, s, i, IdleFirst, s.idleWaiters - 1);
    SumUpdate(WaitWeight, s.clients, i, IdleFirst);
    ClientAwake(c, s, s', i);
  }

  lemma IdleAgainStep(c: Config, s: State, i: nat)
    requires Inv(c, s) && i < |s.clients| && s.clients[i].IdleAgain?
    ensures Inv(c, SetClient(s, i, if LooksIdle(s.word) then WaiterLeave else EpochTest(s.clients[i].epoch)))
  {
    hide RingOk, ThreadsOk, FatesOk;
    assert AwakeOk(s, s.clients[i]);
    assert s.producerLock != Some(i) && s.consumerLock != Some(Client(i));
    hide WaitOk;
    Decode(PendingOf(s.word), Sum(Held, s.workers), IsStopping(s.word));
    ClientMove(c, s, i, if LooksIdle(s.word) then WaiterLeave else EpochTest(s.clients[i].epoch));
  }

  // --------------------------------------------------------------- shutdown

  lemma SetStopWord(c: Config, s: State)
    requires Inv(c, s)
    ensures PendingOf(FetchOrStop(s.word)) == PendingOf(s.word)
    ensures IsStopping(FetchOrStop(s.word))
    ensures FetchOrStop(s.word) == Encode(PendingOf(s.word), Sum(Held, s.workers), true)
  {
    hide RingOk, LocksOk, FatesOk, WaitOk, ThreadsOk;
    FieldsAreIndependent(PendingOf(s.word), Sum(Held, s.workers), IsStopping(s.word), 0);
    Decode(PendingOf(s.word), Sum(Held, s.workers), true);
  }

  lemma SetStopThreads(c: Config, s: State, i: nat)
    requires Inv(c, s) && i < |s.clients| && s.clients[i].SetStop?
    ensures ThreadsOk(c, SetClient(s, i, ReleaseStop(s.clients[i].mode)).(word := FetchOrStop(s.word)))
  {
    hide RingOk, CountOk, FatesOk, WaitOk;
    var s' := SetClient(s, i, ReleaseStop(s.clients[i].mode)).(word := FetchOrStop(s.word));
    SetStopWord(c, s);
    assert s.producerLock == Some(i);
    forall j | 0 <= j < |s.clients| ensures ClientOk(c, s'.word, s'.written, |s'.removed|, j, s'.clients[j]) {
      assert ClientOk(c, s.word, s.written, |s.removed|, j, s.clients[j]);
      assert HoldsProducer(s.clients[j]) ==> j == i;
    }
    forall w | 0 <= w < |s.workers| ensures WorkerOk(c, s'.word, s'.written, s'.removed, w, s'.workers[w]) {
      assert WorkerOk(c, s.word, s.written, s.removed, w, s.workers[w]);
    }
  }

  lemma SetStopCounts(c: Config, s: State, i: nat)
    requires Inv(c, s) && i < |s.clients| && s.clients[i].SetStop?
    ensures var s' := SetClient(s, i, ReleaseStop(s.clients[i].mode)).(word := FetchOrStop(s.word));
            RingOk(c, s') && LocksOk(s') && CountOk(c, s') && FatesOk(s')
  {
    hide ThreadsOk, WaitOk;
    SetStopWord(c, s);
  }

  /** The stopping bit is set under the producer lock, so no refill is under way. */
  lemma SetStopStep(c: Config, s: State, i: nat)
    requires Inv(c, s) && i < |s.clients| && s.clients[i].SetStop?
    ensures Inv(c, SetClient(s, i, ReleaseStop(s.clients[i].mode)).(word := FetchOrStop(s.word)))
  {
    hide RingOk, LocksOk, CountOk, ThreadsOk, FatesOk;
    var s' := SetClient(s, i, ReleaseStop(s.clients[i].mode)).(word := FetchOrStop(s.word));
    SetStopWord(c, s);
    SetStopThreads(c, s, i);
    SetStopCounts(c, s, i);
    SumUpdate(WaitWeight, s.clients, i, s'.clients[i]);
    ClientAwake(c, s, s', i);
  }

  // ---------------------------------------------------------- all client steps

  /** Steps that only read the word, take or drop locks, and go on. */
  predicate IsLocal(pc: ClientPc) { pc.Ready? || IsLocalOpen(pc) || IsLocalLocked(pc) }

  predicate IsLocalOpen(pc: ClientPc) {
    pc.Space? || pc.AcquireP? || pc.Submitted? || pc.IdleFirst? || pc.LoadEpoch?
  }

  predicate IsLocalLocked(pc: ClientPc) {
    pc.AcquireBoth? || pc.LoadBoth? || pc.ReleaseBoth? || pc.AcquireStop? || pc.ReleaseStop? || pc.Join?
  }

  lemma LocalKeeps(c: Config, s: State, i: nat, r: Request)
    requires Inv(c, s) && ClientEnabled(c, s, i, r) && IsLocal(s.clients[i])
    ensures Inv(c, ClientNext(c, s, i, r))
  {
    hide Inv;
    if s.clients[i].Ready? {
      LocalReadyPc(c, s, i, r);
    } else if IsLocalOpen(s.clients[i]) {
      LocalOpenPc(c, s, i, r);
    } else {
      LocalLockedPc(c, s, i, r);
    }
    ClientMove(c, s, i, ClientNext(c, s, i, r).clients[i]);
  }

  lemma LocalReadyPc(c: Config, s: State, i: nat, r: Request)
    requires Inv(c, s) && ClientEnabled(c, s, i, r) && s.clients[i].Ready?
    ensures |ClientNext(c, s, i, r).clients| == |s.clients|
    ensures MayMove(c, s, i, ClientNext(c, s, i, r).clients[i])
    ensures ClientNext(c, s, i, r) == Moved(s, i, ClientNext(c, s, i, r).clients[i])
  {
    hide RingOk, FatesOk, WaitOk, CountOk;
    assert ClientOk(c, s.word, s.written, |s.removed|, i, s.clients[i]);
    assert HoldsProducer(s.clients[i]) <==> s.producerLock == Some(i);
    assert HoldsBoth(s.clients[i]) <==> s.consumerLock == Some(Client(i));
    hide LocksOk, ThreadsOk;
  }

  lemma LocalOpenPc(c: Config, s: State, i: nat, r: Request)
    requires Inv(c, s) && ClientEnabled(c, s, i, r) && IsLocalOpen(s.clients[i])
    ensures |ClientNext(c, s, i, r).clients| == |s.clients|
    ensures MayMove(c, s, i, ClientNext(c, s, i, r).clients[i])
    ensures ClientNext(c, s, i, r) == Moved(s, i, ClientNext(c, s, i, r).clients[i])
  {
    hide RingOk, FatesOk, WaitOk, CountOk;
    assert ClientOk(c, s.word, s.written, |s.removed|, i, s.clients[i]);
    assert HoldsProducer(s.clients[i]) <==> s.producerLock == Some(i);
    assert HoldsBoth(s.clients[i]) <==> s.consumerLock == Some(Client(i));
    hide LocksOk, ThreadsOk;
  }

  lemma LocalLockedPc(c: Config, s: State, i: nat, r: Request)
    requires Inv(c, s) && ClientEnabled(c, s, i, r) && IsLocalLocked(s.clients[i])
    ensures |ClientNext(c, s, i, r).clients| == |s.clients|
    ensures MayMove(c, s, i, ClientNext(c, s, i, r).clients[i])
    ensures ClientNext(c, s, i, r) == Moved(s, i, ClientNext(c, s, i, r).clients[i])
  {
    hide RingOk, FatesOk, WaitOk, CountOk;
    assert ClientOk(c, s.word, s.written, |s.removed|, i, s.clients[i]);
    assert HoldsProducer(s.clients[i]) <==> s.producerLock == Some(i);
    assert HoldsBoth(s.clients[i]) <==> s.consumerLock == Some(Client(i));
    hide LocksOk, ThreadsOk, ClientNext, MayMove, Moved, ClientOk;
    if s.clients[i].AcquireStop? || s.clients[i].ReleaseStop? || s.clients[i].Join? {
      StopPc(c, s, i, r);
    } else {
      BothPc(c, s, i, r);
    }
  }

  lemma StopPc(c: Config, s: State, i: nat, r: Request)
    requires ClientEnabled(c, s, i, r) && (s.clients[i].AcquireStop? || s.clients[i].ReleaseStop? || s.clients[i].Join?)
    requires ClientOk(c, s.word, s.written, |s.removed|, i, s.clients[i])
    requires HoldsProducer(s.clients[i]) <==> s.producerLock == Some(i)
    requires HoldsBoth(s.clients[i]) <==> s.consumerLock == Some(Client(i))
    ensures |ClientNext(c, s, i, r).clients| == |s.clients|
    ensures MayMove(c, s, i, ClientNext(c, s, i, r).clients[i])
    ensures ClientNext(c, s, i, r) == Moved(s, i, ClientNext(c, s, i, r).clients[i])
  {
    hide TrulyIdle, JobOk, IsStopping, PendingOf;
  }

  lemma BothPc(c: Config, s: State, i: nat, r: Request)
    requires ClientEnabled(c, s, i, r)
    requires s.clients[i].AcquireBoth? || s.clients[i].LoadBoth? || s.clients[i].ReleaseBoth?
    requires ClientOk(c, s.word, s.written, |s.removed|, i, s.clients[i])
    requires HoldsProducer(s.clients[i]) <==> s.producerLock == Some(i)
    requires HoldsBoth(s.clients[i]) <==> s.consumerLock == Some(Client(i))
    ensures |ClientNext(c, s, i, r).clients| == |s.clients|
    ensures MayMove(c, s, i, ClientNext(c, s, i, r).clients[i])
    ensures ClientNext(c, s, i, r) == Moved(s, i, ClientNext(c, s, i, r).clients[i])
  {
    hide TrulyIdle, JobOk, IsStopping;
  }

  lemma SubmissionKeeps(c: Config, s: State, i: nat, r: Request)
    requires Inv(c, s) && ClientEnabled(c, s, i, r)
    requires s.clients[i].LoadP? || s.clients[i].Write? || s.clients[i].ReleaseP?
    ensures Inv(c, ClientNext(c, s, i, r))
  {
    hide RingOk, FatesOk, WaitOk, CountOk, LocksOk;
    assert ClientOk(c, s.word, s.written, |s.removed|, i, s.clients[i]);
    hide ThreadsOk;
    if s.clients[i].LoadP? {
      ProducerLoadStep(c, s, i);
    } else if s.clients[i].ReleaseP? {
      ProducerReleaseStep(c, s, i);
    } else if s.clients[i].unpublished < s.clients[i].room {
      WriteStep(c, s, i);
    } else {
      PublishWritesStep(c, s, i);
    }
  }

  lemma CancellationKeeps(c: Config, s: State, i: nat, r: Request)
    requires Inv(c, s) && ClientEnabled(c, s, i, r)
    requires HoldsBoth(s.clients[i]) && !IsLocal(s.clients[i])
    ensures Inv(c, ClientNext(c, s, i, r))
  {
    hide RingOk, FatesOk, WaitOk, CountOk, LocksOk, ThreadsOk;
    var pc := s.clients[i];
    if pc.Cancel? {
      if pc.left > 0 { CancelStep(c, s, i); } else { CancelDoneStep(c, s, i); }
    } else if pc.LoadActive? {
      LoadActiveStep(c, s, i);
    } else if pc.CNotifyTest? {
      CNotifyTestStep(c, s, i);
    } else if pc.CNotifyBump? {
      CBumpStep(c, s, i);
    } else {
      CNotifyStep(c, s, i);
    }
  }

  lemma EpochTestStep(c: Config, s: State, i: nat)
    requires Inv(c, s) && i < |s.clients| && s.clients[i].EpochTest?
    ensures Inv(c, SetClient(s, i, if s.epoch == s.clients[i].epoch then Blocked(s.clients[i].epoch) else WaiterLeave))
  {
    hide RingOk, FatesOk, CountOk;
    assert AwakeOk(s, s.clients[i]);
    assert s.producerLock != Some(i) && s.consumerLock != Some(Client(i));
    hide WaitOk;
    ClientMove(c, s, i, if s.epoch == s.clients[i].epoch then Blocked(s.clients[i].epoch) else WaiterLeave);
  }

  lemma BlockedStep(c: Config, s: State, i: nat)
    requires Inv(c, s) && i < |s.clients| && s.clients[i].Blocked?
    ensures Inv(c, SetClient(s, i, EpochTest(s.clients[i].epoch)))
  {
    hide RingOk, FatesOk, CountOk;
    assert AwakeOk(s, s.clients[i]);
    assert s.producerLock != Some(i) && s.consumerLock != Some(Client(i));
    hide WaitOk;
    ClientMove(c, s, i, EpochTest(s.clients[i].epoch));
  }

  lemma WaitKeeps(c: Config, s: State, i: nat, r: Request)
    requires Inv(c, s) && ClientEnabled(c, s, i, r)
    requires InWait(s.clients[i]) || s.clients[i].WaiterEnter?
    requires !IsLocal(s.clients[i])
    ensures Inv(c, ClientNext(c, s, i, r))
  {
    hide RingOk, FatesOk, WaitOk, CountOk, LocksOk, ThreadsOk;
    var pc := s.clients[i];
    if pc.WaiterEnter? {
      WaiterEnterStep(c, s, i);
    } else if pc.IdleAgain? {
      IdleAgainStep(c, s, i);
    } else if pc.EpochTest? {
      EpochTestStep(c, s, i);
    } else if pc.Blocked? {
      BlockedStep(c, s, i);
    } else {
      WaiterLeaveStep(c, s, i);
    }
  }

  lemma ClientStepKeeps(c: Config, s: State, i: nat, r: Request)
    requires Inv(c, s) && ClientEnabled(c, s, i, r)
    ensures Inv(c, ClientNext(c, s, i, r))
  {
    hide RingOk, LocksOk, CountOk, ThreadsOk, FatesOk, WaitOk;
    var pc := s.clients[i];
    if IsLocal(pc) {
      LocalKeeps(c, s, i, r);
    } else if HoldsBoth(pc) {
      CancellationKeeps(c, s, i, r);
    } else if InWait(pc) || pc.WaiterEnter? {
      WaitKeeps(c, s, i, r);
    } else if pc.SetStop? {
      SetStopStep(c, s, i);
    } else {
      SubmissionKeeps(c, s, i, r);
    }
  }

  /** Every step of every thread keeps the invariant. */
  lemma StepKeeps(c: Config, s: State, a: Action)
    requires Inv(c, s) && Enabled(c, s, a)
    ensures Inv(c, Next(c, s, a))
  {
    hide RingOk, LocksOk, CountOk, ThreadsOk, FatesOk, WaitOk;
    match a
    case WorkerStep(w, o) => WorkerStepKeeps(c, s, w, o);
    case ClientStep(i, r) => ClientStepKeeps(c, s, i, r);
  }

  /** Every interleaving keeps the invariant. */
  lemma {:induction false} RunKeeps(c: Config, s: State, acts: seq<Action>, t: State)
    requires Inv(c, s) && Leads(c, s, acts, t)
    ensures Inv(c, t)
    decreases |acts|
  {
    hide Inv;
    if |acts| > 0 {
      StepKeeps(c, s, acts[0]);
      RunKeeps(c, Next(c, s, acts[0]), acts[1..], t);
    }
  }

  /** The invariant holds in every reachable state; in particular no slot is ever
      read empty or overwritten full, and no promise is ever set twice. */
  lemma ReachableInv(c: Config, s: State)
    requires ValidConfig(c) && Reachable(c, s)
    ensures Inv(c, s)
  {
    hide Inv;
    var acts :| Leads(c, Init(c), acts, s);
    InitInv(c);
    RunKeeps(c, Init(c), acts, s);
  }
}
