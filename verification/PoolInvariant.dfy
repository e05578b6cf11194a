/** The inductive invariant of the pool over all interleavings. */
module PoolInvariant {
  import opened Common
  import opened PackedState
  import opened Ring
  import opened PoolMachine

  // ------------------------------------------------- what a program counter means

  predicate WorkerHolds(pc: WorkerPc) { pc.LoadC? || pc.Claim? || pc.ReleaseC? }

  predicate HoldsBoth(pc: ClientPc) {
    pc.LoadBoth? || pc.Cancel? || pc.LoadActive? || pc.CNotifyTest? || pc.CNotifyBump? ||
    pc.CNotifyAll? || pc.ReleaseBoth?
  }

  predicate HoldsProducer(pc: ClientPc) {
    pc.LoadP? || pc.Write? || pc.ReleaseP? || pc.SetStop? || pc.ReleaseStop? || HoldsBoth(pc)
  }

  /** Tasks this worker counts for in the active field. */
  function Held(pc: WorkerPc): nat {
    if pc.ReleaseC? || pc.Run? then |pc.batch| else 0
  }

  /** Slots emptied but still counted as pending. */
  function WorkerTaken(pc: WorkerPc): nat { if pc.Claim? then |pc.batch| else 0 }
  function ClientTaken(pc: ClientPc): int { if pc.Cancel? then pc.total - pc.left else 0 }

  /** Slots filled but not yet counted as pending. */
  function ClientPut(pc: ClientPc): nat { if pc.Write? then pc.unpublished else 0 }

  function Put(s: State): nat {
    match s.producerLock
    case Some(i) => if i < |s.clients| then ClientPut(s.clients[i]) else 0
    case None => 0
  }

  function Taken(s: State): int {
    match s.consumerLock
    case Some(Worker(w)) => if w < |s.workers| then WorkerTaken(s.workers[w]) else 0
    case Some(Client(i)) => if i < |s.clients| then ClientTaken(s.clients[i]) else 0
    case None => 0
  }

  /** The tickets a worker has claimed and not yet settled. */
  predicate Owes(pc: WorkerPc, t: nat) {
    match pc
    case Claim(_, _, base, batch) => base <= t < base + |batch|
    case ReleaseC(base, batch) => base <= t < base + |batch|
    case Run(base, batch, next) => base + next <= t < base + |batch|
    case _ => false
  }

  predicate InWait(pc: ClientPc) {
    pc.LoadEpoch? || pc.IdleAgain? || pc.EpochTest? || pc.Blocked? || pc.WaiterLeave?
  }
  function WaitWeight(pc: ClientPc): nat { if InWait(pc) then 1 else 0 }

  predicate WorkerCommits(pc: WorkerPc) { pc.NotifyTest? || pc.NotifyBump? }
  predicate ClientCommits(pc: ClientPc) { pc.LoadActive? || pc.CNotifyTest? || pc.CNotifyBump? }

  function FailedWeight(r: Removed): nat {
    if r.fate.Finished? then Failure(r.item, r.fate.outcome) else 0
  }
  function CancelledWeight(r: Removed): nat {
    if r.fate.Cancelled? && !r.item.tracked then 1 else 0
  }

  // ---------------------------------------------------------------- the invariant

  /** The full slots are exactly the circular window from head to tail, and they
      hold the writes that have not been removed, in order. */
  ghost predicate RingOk(c: Config, s: State) {
    && |s.slots| == c.capacity
    && |s.removed| <= |s.written|
    && Window(s.slots, s.head, WrittenItems(s.written[|s.removed|..]))
    && s.tail == At(c.capacity, s.head, |s.written| - |s.removed|)
    && (forall t :: 0 <= t < |s.removed| ==> s.removed[t].item == s.written[t].item)
  }

  ghost predicate LocksOk(s: State) {
    && (forall w :: 0 <= w < |s.workers| ==>
          (WorkerHolds(s.workers[w]) <==> s.consumerLock == Some(Worker(w))))
    && (forall i :: 0 <= i < |s.clients| ==>
          (HoldsBoth(s.clients[i]) <==> s.consumerLock == Some(Client(i))))
    && (forall i :: 0 <= i < |s.clients| ==>
          (HoldsProducer(s.clients[i]) <==> s.producerLock == Some(i)))
    && (s.producerLock.Some? ==> s.producerLock.value < |s.clients|)
    && (s.consumerLock.Some? ==>
          match s.consumerLock.value
          case Worker(w) => w < |s.workers|
          case Client(i) => i < |s.clients|)
  }

  /** The word packs the true counts; the window differs from `pending` by what
      the two lock holders have moved without publishing it. */
  ghost predicate CountOk(c: Config, s: State) {
    && Sum(Held, s.workers) <= MAX_ACTIVE
    && PendingOf(s.word) <= c.capacity
    && s.word == Encode(PendingOf(s.word), Sum(Held, s.workers), IsStopping(s.word))
    && |s.written| - |s.removed| == PendingOf(s.word) + Put(s) - Taken(s)
  }

  function MaxClaim(c: Config): nat { Min(BULK_CLAIM, c.capacity) }

  predicate BatchOk(c: Config, batch: seq<Item>) {
    && 1 <= |batch| <= MaxClaim(c)
    && ((forall x | x in batch :: x.bulk) || (|batch| == 1 && !batch[0].bulk))
  }

  ghost predicate Owned(removed: seq<Removed>, w: nat, base: nat, batch: seq<Item>, next: nat) {
    && next <= |batch| && base + |batch| <= |removed|
    && forall t :: base + next <= t < base + |batch| ==> removed[t] == Removed(batch[t - base], Running(w))
  }

  ghost predicate WorkerOk(c: Config, word: Word, written: seq<Written>, removed: seq<Removed>,
                           w: nat, pc: WorkerPc) {
    match pc
    case Claim(bulk, seen, base, batch) =>
      && 1 <= seen <= PendingOf(word)
      && |batch| <= ClaimLimit(bulk, seen)
      && base + |batch| == |removed|
      && (forall x | x in batch :: x.bulk == bulk)
      && base < |written| && written[base].item.bulk == bulk
      && Owned(removed, w, base, batch, 0)
    case ReleaseC(base, batch) => BatchOk(c, batch) && Owned(removed, w, base, batch, 0)
    case Run(base, batch, next) => BatchOk(c, batch) && Owned(removed, w, base, batch, next)
    case Exited => IsStopping(word) && PendingOf(word) == 0
    case _ => true
  }

  /** The submission's items stand, in order, at its tickets. */
  ghost predicate JobOk(written: seq<Written>, i: nat, job: Job) {
    && |job.tickets| <= |job.items|
    && (forall a :: 0 <= a < |job.tickets| ==>
          job.tickets[a] < |written| && written[job.tickets[a]] == Written(job.items[a], i))
    && (forall a, b :: 0 <= a < b < |job.tickets| ==> job.tickets[a] < job.tickets[b])
  }

  ghost predicate ClientOk(c: Config, word: Word, written: seq<Written>, gone: nat,
                           i: nat, pc: ClientPc) {
    match pc
    case Space(job) => JobOk(written, i, job) && |job.tickets| < |job.items|
    case AcquireP(job) => JobOk(written, i, job) && |job.tickets| < |job.items|
    case LoadP(job) => JobOk(written, i, job) && |job.tickets| < |job.items|
    case Write(job, room, n) =>
      && JobOk(written, i, job)
      && n <= room && 1 <= room <= c.capacity - PendingOf(word)
      && n <= |job.tickets| && |job.tickets| - n + room <= |job.items|
      && (forall a :: |job.tickets| - n <= a < |job.tickets| ==>
            job.tickets[a] == |written| - |job.tickets| + a)
      && !IsStopping(word)
    case ReleaseP(job) => JobOk(written, i, job)
    case Submitted(job, stopped) =>
      && JobOk(written, i, job)
      && (stopped ==> IsStopping(word))
      && (!stopped ==> |job.tickets| == |job.items|)
    case Cancel(closing, total, left) =>
      left <= total == PendingOf(word) && total - left <= gone && (closing ==> IsStopping(word))
    case AcquireBoth(closing) => closing ==> IsStopping(word)
    case LoadBoth(closing) => closing ==> IsStopping(word)
    case LoadActive(closing) => PendingOf(word) == 0 && (closing ==> IsStopping(word))
    case CNotifyTest(closing) => PendingOf(word) == 0 && (closing ==> IsStopping(word))
    case CNotifyBump(closing) => PendingOf(word) == 0 && (closing ==> IsStopping(word))
    case CNotifyAll(closing) => PendingOf(word) == 0 && (closing ==> IsStopping(word))
    case ReleaseBoth(closing) => PendingOf(word) == 0 && (closing ==> IsStopping(word))
    case ReleaseStop(_) => IsStopping(word)
    case Join => IsStopping(word)
    case _ => true
  }

  /** Every task still marked running is owed by the worker it names. */
  ghost predicate FatesOk(s: State) {
    && (forall t :: 0 <= t < |s.removed| && s.removed[t].fate.Running? ==>
          s.removed[t].fate.worker < |s.workers| && Owes(s.workers[s.removed[t].fate.worker], t))
    && s.failed == Sum(FailedWeight, s.removed)
    && s.cancelled == Sum(CancelledWeight, s.removed)
  }

  /** No task is pending and no worker holds one: idleness by the true counts. */
  predicate TrulyIdle(s: State) {
    PendingOf(s.word) == 0 && Sum(Held, s.workers) == 0
  }

  /** Some thread is bound to advance the epoch if anyone waits for idleness. */
  ghost predicate Committed(s: State) {
    || (exists w :: 0 <= w < |s.workers| && WorkerCommits(s.workers[w]))
    || (exists i :: 0 <= i < |s.clients| && ClientCommits(s.clients[i]))
  }

  /** Some thread has advanced the epoch and is about to call notify_all. */
  ghost predicate Notifying(s: State) {
    || (exists w :: 0 <= w < |s.workers| && s.workers[w].NotifyAll?)
    || (exists i :: 0 <= i < |s.clients| && s.clients[i].CNotifyAll?)
  }

  ghost predicate AwakeOk(s: State, pc: ClientPc) {
    match pc
    case IdleAgain(e) => e <= s.epoch
    case EpochTest(e) => e <= s.epoch && (e == s.epoch && TrulyIdle(s) ==> Committed(s))
    case Blocked(e) =>
      && e <= s.epoch
      && (e == s.epoch && TrulyIdle(s) ==> Committed(s))
      && (e < s.epoch ==> Notifying(s))
    case _ => true
  }

  ghost predicate WaitOk(s: State) {
    && s.idleWaiters == Sum(WaitWeight, s.clients)
    && forall i :: 0 <= i < |s.clients| ==> AwakeOk(s, s.clients[i])
  }

  ghost predicate ThreadsOk(c: Config, s: State) {
    && (forall w :: 0 <= w < |s.workers| ==> WorkerOk(c, s.word, s.written, s.removed, w, s.workers[w]))
    && (forall i :: 0 <= i < |s.clients| ==> ClientOk(c, s.word, s.written, |s.removed|, i, s.clients[i]))
  }

  ghost predicate Inv(c: Config, s: State) {
    && ValidConfig(c) && |s.workers| == c.workers && |s.clients| == c.clients && !s.fault
    && RingOk(c, s) && LocksOk(s) && CountOk(c, s) && ThreadsOk(c, s) && FatesOk(s) && WaitOk(s)
  }

  lemma InitInv(c: Config)
    requires ValidConfig(c)
    ensures Inv(c, Init(c))
  {
    var s := Init(c);
    SumZero(Held, s.workers);
    SumZero(WaitWeight, s.clients);
    Decode(0, 0, false);
  }

  lemma ProductBound(a: nat, b: nat, m: nat, n: nat)
    requires a <= m && b <= n
    ensures a * b <= m * n
  {
  }

  /** Holding at most 16 tasks each, the workers never exceed the model's range. */
  lemma HeldBound(c: Config, workers: seq<WorkerPc>)
    requires ValidConfig(c) && |workers| == c.workers
    requires forall w :: 0 <= w < |workers| ==> Held(workers[w]) <= MaxClaim(c)
    ensures Sum(Held, workers) <= c.workers * MaxClaim(c)
    ensures Sum(Held, workers) <= MAX_ACTIVE
  {
    SumAtMost(Held, workers, MaxClaim(c));
    ProductBound(c.workers, MaxClaim(c), 1024, 16);
  }

  // ------------------------------------------------------------ ring lemmas

  /** With a task in the window, the slot at the head is full and holds the oldest. */
  lemma HeadFull(c: Config, s: State)
    requires RingOk(c, s) && |s.removed| < |s.written|
    ensures HeadItem(s) == Some(s.written[|s.removed|].item)
  {
    PopWindow(s.slots, s.head, WrittenItems(s.written[|s.removed|..]));
  }

  /** With room in the window, the slot at the tail is empty. */
  lemma TailEmpty(c: Config, s: State)
    requires RingOk(c, s) && |s.written| - |s.removed| < c.capacity
    ensures s.tail < |s.slots| && s.slots[s.tail] == None
  {
  }

  /** Emptying the head slot and recording its task keeps the ring consistent. */
  lemma RingRemove(c: Config, s: State, s': State, fate: Fate)
    requires RingOk(c, s) && |s.removed| < |s.written|
    requires s'.slots == s.slots[s.head := None] && s'.head == NextIndex(c.capacity, s.head)
    requires s'.tail == s.tail && s'.written == s.written
    requires s'.removed == s.removed + [Removed(s.written[|s.removed|].item, fate)]
    ensures RingOk(c, s')
  {
    PopWindow(s.slots, s.head, WrittenItems(s.written[|s.removed|..]));
    assert WrittenItems(s'.written[|s'.removed|..]) == WrittenItems(s.written[|s.removed|..])[1..];
  }

  /** Filling the tail slot and recording its task keeps the ring consistent. */
  lemma RingWrite(c: Config, s: State, s': State, x: Written)
    requires RingOk(c, s) && |s.written| - |s.removed| < c.capacity
    requires s'.slots == s.slots[s.tail := Some(x.item)] && s'.tail == NextIndex(c.capacity, s.tail)
    requires s'.head == s.head && s'.removed == s.removed && s'.written == s.written + [x]
    ensures RingOk(c, s')
  {
    PushWindow(s.slots, s.head, WrittenItems(s.written[|s.removed|..]), x.item);
    assert WrittenItems(s'.written[|s'.removed|..]) == WrittenItems(s.written[|s.removed|..]) + [x.item];
  }
}
