/** The worker pool as a step system: one step per atomic operation or
    critical-section action, for any number of workers and client threads.
    A client thread runs any sequence of the public operations. Locks, the ring
    slots, both indices, the packed word and the wait counters are explicit. */
module PoolMachine {
  import opened Common
  import opened PackedState
  import opened Ring

  datatype Config = Config(workers: nat, capacity: nat, clients: nat)

  /** The limits enforced by the constructor. */
  predicate ValidConfig(c: Config) {
    1 <= c.workers <= MAX_WORKERS && 1 <= c.capacity <= MAX_CAPACITY
  }

  /** A queued callback; `tracked` items own a promise, `bulk` items never do. */
  datatype Item = Item(callback: nat, tracked: bool, bulk: bool)

  predicate ScalarItem(x: Item) { !x.bulk }
  predicate BulkItem(x: Item) { x.bulk && !x.tracked }

  /** What running a callback produced. */
  datatype Outcome = Returned(ok: bool) | Threw

  /** What became of a task that has left the queue. */
  datatype Fate = Running(worker: nat) | Finished(outcome: Outcome) | Cancelled

  /** History: one entry per slot written, with the client that wrote it ... */
  datatype Written = Written(item: Item, client: nat)
  /** ... and one entry per slot emptied, with the fate of its task. */
  datatype Removed = Removed(item: Item, fate: Fate)

  function WrittenItems(ws: seq<Written>): (r: seq<Item>)
    ensures |r| == |ws| && forall i :: 0 <= i < |ws| ==> r[i] == ws[i].item
  {
    seq(|ws|, i requires 0 <= i < |ws| => ws[i].item)
  }

  function RemovedItems(rs: seq<Removed>): (r: seq<Item>)
    ensures |r| == |rs| && forall i :: 0 <= i < |rs| ==> r[i] == rs[i].item
  {
    seq(|rs|, i requires 0 <= i < |rs| => rs[i].item)
  }

  datatype WorkerPc =
    | Top
    | AcquireC
    | LoadC
    | Claim(bulk: bool, seen: nat, base: nat, batch: seq<Item>)
    | ReleaseC(base: nat, batch: seq<Item>)
    | Run(base: nat, batch: seq<Item>, next: nat)
    | NotifyTest
    | NotifyBump
    | NotifyAll
    | Exited

  /** A submission in progress: `tickets` are the positions in the history of
      writes at which this submission's items were placed so far. */
  datatype Job = Job(items: seq<Item>, tickets: seq<nat>)

  datatype ShutdownMode = Drain | CancelPending

  datatype ClientPc =
    | Ready
    // enqueue and dispatch_bulk
    | Space(job: Job)
    | AcquireP(job: Job)
    | LoadP(job: Job)
    | Write(job: Job, room: nat, unpublished: nat)
    | ReleaseP(job: Job)
    | Submitted(job: Job, stopped: bool)
    // wait
    | IdleFirst
    | WaiterEnter
    | LoadEpoch
    | IdleAgain(epoch: nat)
    | EpochTest(epoch: nat)
    | Blocked(epoch: nat)
    | WaiterLeave
    // cancel_pending, on its own or inside shutdown
    | AcquireBoth(closing: bool)
    | LoadBoth(closing: bool)
    | Cancel(closing: bool, total: nat, left: nat)
    | LoadActive(closing: bool)
    | CNotifyTest(closing: bool)
    | CNotifyBump(closing: bool)
    | CNotifyAll(closing: bool)
    | ReleaseBoth(closing: bool)
    // shutdown
    | AcquireStop(mode: ShutdownMode)
    | SetStop(mode: ShutdownMode)
    | ReleaseStop(mode: ShutdownMode)
    | Join

  datatype Owner = Worker(w: nat) | Client(i: nat)

  datatype State = State(
    slots: seq<Option<Item>>,
    head: nat,
    tail: nat,
    word: Word,
    producerLock: Option<nat>,
    consumerLock: Option<Owner>,
    epoch: nat,
    idleWaiters: nat,
    failed: nat,
    cancelled: nat,
    workers: seq<WorkerPc>,
    clients: seq<ClientPc>,
    // history
    written: seq<Written>,
    removed: seq<Removed>,
    // an empty slot was read, a full slot overwritten, a promise set twice, or
    // the count of idle waiters taken below zero
    fault: bool)

  function Init(c: Config): State {
    State(seq(c.capacity, i => None), 0, 0, 0, None, None, 0, 0, 0, 0,
          seq(c.workers, i => Top), seq(c.clients, i => Ready), [], [], false)
  }

  datatype Request =
    | Submit(item: Item)
    | DispatchBulk(items: seq<Item>)
    | Wait
    | ClearQueue
    | Shutdown(mode: ShutdownMode)

  datatype Action =
    | WorkerStep(w: nat, outcome: Outcome)
    | ClientStep(i: nat, request: Request)

  function ClaimLimit(bulk: bool, seen: nat): nat {
    if bulk then Min(BULK_CLAIM, seen) else 1
  }

  function SetWorker(s: State, w: nat, pc: WorkerPc): State
    requires w < |s.workers|
  {
    s.(workers := s.workers[w := pc])
  }

  function SetClient(s: State, i: nat, pc: ClientPc): State
    requires i < |s.clients|
  {
    s.(clients := s.clients[i := pc])
  }

  // ---------------------------------------------------------------- workers

  /** Blocking operations are guards; a parked worker re-reads the word. */
  predicate WorkerEnabled(s: State, w: nat) {
    && w < |s.workers|
    && match s.workers[w]
       case Top => PendingOf(s.word) != 0 || IsStopping(s.word)
       case AcquireC => s.consumerLock == None
       case Exited => false
       case _ => true
  }

  /** Reads the slot at the head; an empty slot is a fault. */
  function HeadItem(s: State): Option<Item> {
    if s.head < |s.slots| then s.slots[s.head] else None
  }

  function WorkerTop(s: State, w: nat): State
    requires w < |s.workers|
  {
    SetWorker(s, w, if PendingOf(s.word) == 0 then Exited else AcquireC)
  }

  function WorkerLoad(s: State, w: nat): State
    requires w < |s.workers|
  {
    if PendingOf(s.word) == 0 then SetWorker(s, w, Top).(consumerLock := None)
    else if HeadItem(s).None? then s.(fault := true)
    else SetWorker(s, w, Claim(HeadItem(s).value.bulk, PendingOf(s.word), |s.removed|, []))
  }

  predicate WantsMore(s: State, pc: WorkerPc)
    requires pc.Claim?
  {
    |pc.batch| < ClaimLimit(pc.bulk, pc.seen) &&
    (pc.bulk && HeadItem(s).Some? ==> HeadItem(s).value.bulk)
  }

  function TakeSlot(c: Config, s: State, w: nat): State
    requires w < |s.workers| && s.workers[w].Claim?
  {
    var pc := s.workers[w];
    if HeadItem(s).None? then s.(fault := true)
    else
      var x := HeadItem(s).value;
      SetWorker(s, w, Claim(pc.bulk, pc.seen, pc.base, pc.batch + [x])).(
        slots := s.slots[s.head := None],
        head := NextIndex(c.capacity, s.head),
        removed := s.removed + [Removed(x, Running(w))])
  }

  function PublishClaim(s: State, w: nat): State
    requires w < |s.workers| && s.workers[w].Claim?
  {
    var pc := s.workers[w];
    SetWorker(s, w, ReleaseC(pc.base, pc.batch)).(
      word := FetchAdd(s.word, |pc.batch| * (COUNT_RANGE - 1)))
  }

  function Failure(x: Item, o: Outcome): nat {
    if !x.tracked && (o.Threw? || !o.ok) then 1 else 0
  }

  /** Runs one callback and settles its task: a promise may be set only once. */
  function RunOne(s: State, w: nat, o: Outcome): State
    requires w < |s.workers| && s.workers[w].Run? && s.workers[w].next < |s.workers[w].batch|
  {
    var pc := s.workers[w];
    var ticket := pc.base + pc.next;
    if ticket >= |s.removed| || !s.removed[ticket].fate.Running? then s.(fault := true)
    else
      SetWorker(s, w, Run(pc.base, pc.batch, pc.next + 1)).(
        removed := s.removed[ticket := s.removed[ticket].(fate := Finished(o))],
        failed := s.failed + Failure(pc.batch[pc.next], o))
  }

  function FinishTasks(s: State, w: nat): State
    requires w < |s.workers| && s.workers[w].Run?
  {
    var count := |s.workers[w].batch|;
    SetWorker(s, w, if ActiveOf(s.word) == count && PendingOf(s.word) == 0 then NotifyTest else Top).(
      word := FetchSub(s.word, count * COUNT_RANGE))
  }

  /** notify_all: every thread parked on the epoch re-reads it. */
  function WakePc(pc: ClientPc): ClientPc {
    if pc.Blocked? then EpochTest(pc.epoch) else pc
  }

  function Wake(clients: seq<ClientPc>): (r: seq<ClientPc>)
    ensures |r| == |clients|
  {
    seq(|clients|, i requires 0 <= i < |clients| => WakePc(clients[i]))
  }

  function WorkerNext(c: Config, s: State, w: nat, o: Outcome): State
    requires WorkerEnabled(s, w)
  {
    match s.workers[w]
    case Top => WorkerTop(s, w)
    case AcquireC => SetWorker(s, w, LoadC).(consumerLock := Some(Worker(w)))
    case LoadC => WorkerLoad(s, w)
    case Claim(_, _, _, _) =>
      if WantsMore(s, s.workers[w]) then TakeSlot(c, s, w) else PublishClaim(s, w)
    case ReleaseC(base, batch) => SetWorker(s, w, Run(base, batch, 0)).(consumerLock := None)
    case Run(_, batch, next) => if next < |batch| then RunOne(s, w, o) else FinishTasks(s, w)
    case NotifyTest => SetWorker(s, w, if s.idleWaiters == 0 then Top else NotifyBump)
    case NotifyBump => SetWorker(s, w, NotifyAll).(epoch := s.epoch + 1)
    case NotifyAll => SetWorker(s, w, Top).(clients := Wake(s.clients))
    case Exited => s
  }

  // ---------------------------------------------------------------- clients

  predicate WellFormed(r: Request) {
    match r
    case Submit(x) => ScalarItem(x)
    case DispatchBulk(xs) => forall x | x in xs :: BulkItem(x)
    case _ => true
  }

  predicate ClientEnabled(c: Config, s: State, i: nat, r: Request) {
    && i < |s.clients|
    && match s.clients[i]
       case Ready => WellFormed(r)
       case Space(_) => IsStopping(s.word) || PendingOf(s.word) != c.capacity
       case AcquireP(_) => s.producerLock == None
       case AcquireBoth(_) => s.producerLock == None && s.consumerLock == None
       case AcquireStop(_) => s.producerLock == None
       case Join => forall w :: 0 <= w < |s.workers| ==> s.workers[w] == Exited
       case _ => true
  }

  function Start(s: State, i: nat, r: Request): State
    requires i < |s.clients|
  {
    SetClient(s, i,
      match r
      case Submit(x) => Space(Job([x], []))
      case DispatchBulk(xs) => if xs == [] then Submitted(Job(xs, []), false) else Space(Job(xs, []))
      case Wait => IdleFirst
      case ClearQueue => AcquireBoth(false)
      case Shutdown(mode) => AcquireStop(mode))
  }

  /** Under the producer lock: give up, retry, or reserve room for a refill. */
  function ProducerLoad(c: Config, s: State, i: nat): State
    requires i < |s.clients| && s.clients[i].LoadP?
  {
    var job := s.clients[i].job;
    var available: int := c.capacity - PendingOf(s.word);
    if IsStopping(s.word) then SetClient(s, i, Submitted(job, true)).(producerLock := None)
    else if available <= 0 then SetClient(s, i, Space(job)).(producerLock := None)
    else SetClient(s, i, Write(job, Min(Monus(|job.items|, |job.tickets|), available), 0))
  }

  function WriteSlot(c: Config, s: State, i: nat): State
    requires i < |s.clients| && s.clients[i].Write?
  {
    var pc := s.clients[i];
    if s.tail >= |s.slots| || s.slots[s.tail].Some? || |pc.job.tickets| >= |pc.job.items| then
      s.(fault := true)
    else
      var x := pc.job.items[|pc.job.tickets|];
      SetClient(s, i, Write(pc.job.(tickets := pc.job.tickets + [|s.written|]),
                            pc.room, pc.unpublished + 1)).(
        slots := s.slots[s.tail := Some(x)],
        tail := NextIndex(c.capacity, s.tail),
        written := s.written + [Written(x, i)])
  }

  function PublishWrites(s: State, i: nat): State
    requires i < |s.clients| && s.clients[i].Write?
  {
    var pc := s.clients[i];
    SetClient(s, i, ReleaseP(pc.job)).(word := FetchAdd(s.word, pc.unpublished))
  }

  function ProducerRelease(s: State, i: nat): State
    requires i < |s.clients| && s.clients[i].ReleaseP?
  {
    var job := s.clients[i].job;
    SetClient(s, i, if |job.tickets| < |job.items| then Space(job) else Submitted(job, false)).(
      producerLock := None)
  }

  function CancelOne(c: Config, s: State, i: nat): State
    requires i < |s.clients| && s.clients[i].Cancel? && s.clients[i].left > 0
  {
    var pc := s.clients[i];
    if HeadItem(s).None? then s.(fault := true)
    else
      var x := HeadItem(s).value;
      SetClient(s, i, Cancel(pc.closing, pc.total, pc.left - 1)).(
        slots := s.slots[s.head := None],
        head := NextIndex(c.capacity, s.head),
        removed := s.removed + [Removed(x, Cancelled)],
        cancelled := s.cancelled + if x.tracked then 0 else 1)
  }

  function CancelDone(s: State, i: nat): State
    requires i < |s.clients| && s.clients[i].Cancel?
  {
    var pc := s.clients[i];
    SetClient(s, i, if pc.total == 0 then ReleaseBoth(pc.closing) else LoadActive(pc.closing)).(
      tail := s.head,
      word := FetchSub(s.word, pc.total))
  }

  function ClientNext(c: Config, s: State, i: nat, r: Request): State
    requires ClientEnabled(c, s, i, r)
  {
    match s.clients[i]
    case Ready => Start(s, i, r)
    case Space(job) => SetClient(s, i, if IsStopping(s.word) then Submitted(job, true) else AcquireP(job))
    case AcquireP(job) => SetClient(s, i, LoadP(job)).(producerLock := Some(i))
    case LoadP(_) => ProducerLoad(c, s, i)
    case Write(_, room, n) => if n < room then WriteSlot(c, s, i) else PublishWrites(s, i)
    case ReleaseP(_) => ProducerRelease(s, i)
    case Submitted(_, _) => SetClient(s, i, Ready)
    case IdleFirst => SetClient(s, i, if LooksIdle(s.word) then Ready else WaiterEnter)
    case WaiterEnter => SetClient(s, i, LoadEpoch).(idleWaiters := s.idleWaiters + 1)
    case LoadEpoch => SetClient(s, i, IdleAgain(s.epoch))
    case IdleAgain(e) => SetClient(s, i, if LooksIdle(s.word) then WaiterLeave else EpochTest(e))
    case EpochTest(e) => SetClient(s, i, if s.epoch == e then Blocked(e) else WaiterLeave)
    case Blocked(e) => SetClient(s, i, EpochTest(e))  // the value is re-read on any unblocking
    case WaiterLeave =>
      if s.idleWaiters == 0 then s.(fault := true)
      else SetClient(s, i, IdleFirst).(idleWaiters := s.idleWaiters - 1)
    case AcquireBoth(k) =>
      SetClient(s, i, LoadBoth(k)).(producerLock := Some(i), consumerLock := Some(Client(i)))
    case LoadBoth(k) => SetClient(s, i, Cancel(k, PendingOf(s.word), PendingOf(s.word)))
    case Cancel(_, _, left) => if left > 0 then CancelOne(c, s, i) else CancelDone(s, i)
    case LoadActive(k) => SetClient(s, i, if ActiveOf(s.word) == 0 then CNotifyTest(k) else ReleaseBoth(k))
    case CNotifyTest(k) => SetClient(s, i, if s.idleWaiters == 0 then ReleaseBoth(k) else CNotifyBump(k))
    case CNotifyBump(k) => SetClient(s, i, CNotifyAll(k)).(epoch := s.epoch + 1)
    case CNotifyAll(k) => SetClient(s.(clients := Wake(s.clients)), i, ReleaseBoth(k))
    case ReleaseBoth(k) =>
      SetClient(s, i, if k then Join else Ready).(producerLock := None, consumerLock := None)
    case AcquireStop(mode) => SetClient(s, i, SetStop(mode)).(producerLock := Some(i))
    case SetStop(mode) => SetClient(s, i, ReleaseStop(mode)).(word := FetchOrStop(s.word))
    case ReleaseStop(mode) =>
      SetClient(s, i, if mode == CancelPending then AcquireBoth(true) else Join).(producerLock := None)
    case Join => SetClient(s, i, Ready)
  }

  // ------------------------------------------------------------------- runs

  predicate Enabled(c: Config, s: State, a: Action) {
    match a
    case WorkerStep(w, _) => WorkerEnabled(s, w)
    case ClientStep(i, r) => ClientEnabled(c, s, i, r)
  }

  function Next(c: Config, s: State, a: Action): State
    requires Enabled(c, s, a)
  {
    match a
    case WorkerStep(w, o) => WorkerNext(c, s, w, o)
    case ClientStep(i, r) => ClientNext(c, s, i, r)
  }

  /** `acts` is an interleaving that leads from `s` to `t`. */
  ghost predicate Leads(c: Config, s: State, acts: seq<Action>, t: State)
    decreases |acts|
  {
    if |acts| == 0 then s == t
    else Enabled(c, s, acts[0]) && Leads(c, Next(c, s, acts[0]), acts[1..], t)
  }

  lemma {:induction false} LeadsAppend(c: Config, s: State, acts: seq<Action>, t: State, a: Action)
    requires Leads(c, s, acts, t) && Enabled(c, t, a)
    ensures Leads(c, s, acts + [a], Next(c, t, a))
    decreases |acts|
  {
    hide Next, Enabled;
    if |acts| == 0 {
      assert (acts + [a])[1..] == [];
    } else {
      LeadsAppend(c, Next(c, s, acts[0]), acts[1..], t, a);
      assert (acts + [a])[1..] == acts[1..] + [a];
    }
  }

  ghost predicate Reachable(c: Config, s: State) {
    exists acts :: Leads(c, Init(c), acts, s)
  }
}
