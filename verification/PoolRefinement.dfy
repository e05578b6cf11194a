/** The fine-grained pool refines the bounded queue, step by step. */
module PoolRefinement {
  import opened Common
  import opened PackedState
  import opened PoolMachine
  import opened PoolInvariant
  import opened PoolWorkerSteps
  import opened PoolClientSteps
  import opened BoundedFifo

  /** Published writes and published removals. */
  ghost function AcceptedCount(s: State): int { |s.written| - Put(s) }
  ghost function TakenCount(s: State): int { |s.removed| - Taken(s) }

  ghost predicate Sized(s: State) {
    0 <= TakenCount(s) <= AcceptedCount(s) <= |s.written| && TakenCount(s) <= |s.removed|
  }

  /** The queue the pool stands for: what is published and not yet claimed. */
  ghost function Abs(c: Config, s: State): Fifo
    requires Sized(s)
  {
    Fifo(c.capacity,
         WrittenItems(s.written[TakenCount(s)..AcceptedCount(s)]),
         IsStopping(s.word),
         WrittenItems(s.written[..AcceptedCount(s)]),
         RemovedItems(s.removed[..TakenCount(s)]))
  }

  /** The abstract queue is orderly, and `pending` is exactly its length. */
  lemma AbsOrderly(c: Config, s: State)
    requires Inv(c, s)
    ensures Sized(s) && Orderly(Abs(c, s))
    ensures |Abs(c, s).queue| == PendingOf(s.word)
  {
    hide LocksOk, FatesOk, WaitOk;
    TakenBound(c, s);
    PutBound(c, s);
    var f := Abs(c, s);
    assert f.accepted == f.taken + f.queue;
  }

  lemma PutBound(c: Config, s: State)
    requires Inv(c, s)
    ensures 0 <= Put(s) <= |s.written| && 0 <= Taken(s) <= |s.removed|
  {
    hide FatesOk, WaitOk;
    TakenBound(c, s);
    match s.consumerLock {
      case Some(Worker(w)) => assert WorkerOk(c, s.word, s.written, s.removed, w, s.workers[w]);
      case Some(Client(i)) => assert ClientOk(c, s.word, s.written, |s.removed|, i, s.clients[i]);
      case None =>
    }
    match s.producerLock
    case Some(i) =>
      assert ClientOk(c, s.word, s.written, |s.removed|, i, s.clients[i]);
      if s.clients[i].Write? { TicketsBelow(s.written, i, s.clients[i].job); }
    case None =>
  }

  /** Increasing tickets below the length of the history are at most that many. */
  lemma {:induction false} TicketsBelow(written: seq<Written>, i: nat, job: Job)
    requires JobOk(written, i, job)
    ensures |job.tickets| <= |written|
  {
    if |job.tickets| > 0 {
      TicketAtLeast(written, i, job, |job.tickets| - 1);
    }
  }

  lemma {:induction false} TicketAtLeast(written: seq<Written>, i: nat, job: Job, a: nat)
    requires JobOk(written, i, job) && a < |job.tickets|
    ensures a <= job.tickets[a]
  {
    if a > 0 { TicketAtLeast(written, i, job, a - 1); }
  }

  // ------------------------------------------------------------- invisible steps

  /** The four actions that publish something. */
  predicate Publishes(s: State, a: Action) {
    match a
    case WorkerStep(w, _) => w < |s.workers| && s.workers[w].Claim? && !WantsMore(s, s.workers[w])
    case ClientStep(i, _) =>
      && i < |s.clients|
      && match s.clients[i]
         case Write(_, room, n) => n >= room
         case Cancel(_, _, left) => left == 0
         case SetStop(_) => true
         case _ => false
  }

  /** Lock holders at the same intermediate counts leave the same amounts unpublished. */
  lemma SameUnpublished(s: State, t: State)
    requires LocksOk(s) && LocksOk(t) && |s.workers| == |t.workers| && |s.clients| == |t.clients|
    requires forall w :: 0 <= w < |s.workers| ==> WorkerTaken(s.workers[w]) == WorkerTaken(t.workers[w])
    requires forall i :: 0 <= i < |s.clients| ==>
               && ClientTaken(s.clients[i]) == ClientTaken(t.clients[i])
               && ClientPut(s.clients[i]) == ClientPut(t.clients[i])
    ensures Put(s) == Put(t) && Taken(s) == Taken(t)
  {
    match s.consumerLock
    case Some(Worker(w)) => assert WorkerHolds(s.workers[w]);
    case Some(Client(i)) => assert HoldsBoth(s.clients[i]);
    case None =>
  }

  lemma SameUnpublishedWorker(s: State, t: State, w: nat)
    requires LocksOk(s) && LocksOk(t) && w < |s.workers|
    requires t.clients == s.clients && |t.workers| == |s.workers| && t.workers == s.workers[w := t.workers[w]]
    requires WorkerTaken(t.workers[w]) == WorkerTaken(s.workers[w])
    ensures Put(s) == Put(t) && Taken(s) == Taken(t)
  {
    hide LocksOk;
    SameUnpublished(s, t);
  }

  lemma SameUnpublishedClient(s: State, t: State, i: nat)
    requires LocksOk(s) && LocksOk(t) && i < |s.clients| == |t.clients| && t.workers == s.workers
    requires forall j :: 0 <= j < |s.clients| && j != i ==>
               t.clients[j] == WakePc(s.clients[j]) || t.clients[j] == s.clients[j]
    requires ClientTaken(t.clients[i]) == ClientTaken(s.clients[i])
    requires ClientPut(t.clients[i]) == ClientPut(s.clients[i])
    ensures Put(s) == Put(t) && Taken(s) == Taken(t)
  {
    hide LocksOk;
    SameUnpublished(s, t);
  }

  lemma SameAbs(c: Config, s: State, t: State)
    requires Inv(c, s) && Inv(c, t)
    requires AcceptedCount(t) == AcceptedCount(s) && TakenCount(t) == TakenCount(s)
    requires IsStopping(t.word) == IsStopping(s.word)
    requires s.written <= t.written && |s.removed| <= |t.removed|
    requires forall u :: 0 <= u < |s.removed| ==> t.removed[u].item == s.removed[u].item
    ensures Sized(s) && Sized(t) && Abs(c, t) == Abs(c, s)
  {
    AbsOrderly(c, s);
    AbsOrderly(c, t);
    hide Inv;
    assert Abs(c, s).accepted == Abs(c, t).accepted;
    assert Abs(c, s).queue == Abs(c, t).queue;
    assert Abs(c, s).taken == Abs(c, t).taken;
  }

  lemma WorkerStepHidden(c: Config, s: State, w: nat, o: Outcome)
    requires Inv(c, s) && WorkerEnabled(s, w) && !Publishes(s, WorkerStep(w, o))
    ensures var t := WorkerNext(c, s, w, o);
            && AcceptedCount(t) == AcceptedCount(s) && TakenCount(t) == TakenCount(s)
            && IsStopping(t.word) == IsStopping(s.word)
            && t.written == s.written && |s.removed| <= |t.removed|
            && (forall u :: 0 <= u < |s.removed| ==> t.removed[u].item == s.removed[u].item)
  {
    hide RingOk, CountOk, FatesOk, WaitOk, ThreadsOk, LocksOk;
    var pc := s.workers[w];
    if pc.Claim? {
      TakeHidden(c, s, w);
    } else if pc.Run? {
      RunHidden(c, s, w, o);
    } else if pc.NotifyAll? {
      NotifyHidden(c, s, w, o);
    } else {
      WorkerPlain(c, s, w, o);
    }
  }

  lemma TakeHidden(c: Config, s: State, w: nat)
    requires Inv(c, s) && w < |s.workers| && s.workers[w].Claim? && WantsMore(s, s.workers[w])
    ensures var t := TakeSlot(c, s, w);
            && AcceptedCount(t) == AcceptedCount(s) && TakenCount(t) == TakenCount(s)
            && t.word == s.word && t.written == s.written && s.removed <= t.removed
  {
    TakeReady(c, s, w);
    hide RingOk, CountOk, FatesOk, WaitOk, ThreadsOk;
    assert s.consumerLock == Some(Worker(w));
  }

  lemma RunHidden(c: Config, s: State, w: nat, o: Outcome)
    requires Inv(c, s) && WorkerEnabled(s, w) && s.workers[w].Run?
    ensures var t := WorkerNext(c, s, w, o);
            && AcceptedCount(t) == AcceptedCount(s) && TakenCount(t) == TakenCount(s)
            && IsStopping(t.word) == IsStopping(s.word)
            && t.written == s.written && |s.removed| == |t.removed|
            && (forall u :: 0 <= u < |s.removed| ==> t.removed[u].item == s.removed[u].item)
  {
    WorkerStepKeeps(c, s, w, o);
    var t := WorkerNext(c, s, w, o);
    assert LocksOk(s) && LocksOk(t);
    hide Inv, Put, Taken, LocksOk;
    if s.workers[w].next < |s.workers[w].batch| { RunReady(c, s, w); } else { FinishWord(c, s, w); }
    SameUnpublishedWorker(s, t, w);
  }

  lemma NotifyHidden(c: Config, s: State, w: nat, o: Outcome)
    requires Inv(c, s) && WorkerEnabled(s, w) && s.workers[w].NotifyAll?
    ensures var t := WorkerNext(c, s, w, o);
            && AcceptedCount(t) == AcceptedCount(s) && TakenCount(t) == TakenCount(s)
            && t.word == s.word && t.written == s.written && t.removed == s.removed
  {
    hide Inv;
    NotifyLocks(c, s, w);
  }

  lemma WorkerPlain(c: Config, s: State, w: nat, o: Outcome)
    requires Inv(c, s) && WorkerEnabled(s, w) && !s.workers[w].Claim? && !s.workers[w].Run? && !s.workers[w].NotifyAll?
    ensures var t := WorkerNext(c, s, w, o);
            && AcceptedCount(t) == AcceptedCount(s) && TakenCount(t) == TakenCount(s)
            && t.word == s.word && t.written == s.written && t.removed == s.removed
  {
    hide RingOk, CountOk, FatesOk, WaitOk, ThreadsOk, LocksOk;
    WorkerStepKeeps(c, s, w, o);
    if s.workers[w].LoadC? && PendingOf(s.word) != 0 { LoadFindsItem(c, s, w); }
    var t := WorkerNext(c, s, w, o);
    assert LocksOk(s) && LocksOk(t);
    hide Inv, Put, Taken;
    SameUnpublishedWorker(s, t, w);
  }

  lemma LoadFindsItem(c: Config, s: State, w: nat)
    requires Inv(c, s) && w < |s.workers| && s.workers[w].LoadC? && PendingOf(s.word) != 0
    ensures HeadItem(s).Some?
  {
    hide FatesOk, WaitOk, ThreadsOk;
    assert s.consumerLock == Some(Worker(w));
    HeadFull(c, s);
  }

  lemma ClientStepHidden(c: Config, s: State, i: nat, r: Request)
    requires Inv(c, s) && ClientEnabled(c, s, i, r) && !Publishes(s, ClientStep(i, r))
    ensures var t := ClientNext(c, s, i, r);
            && AcceptedCount(t) == AcceptedCount(s) && TakenCount(t) == TakenCount(s)
            && t.word == s.word && s.written <= t.written && s.removed <= t.removed
  {
    var pc := s.clients[i];
    hide FatesOk, WaitOk, RingOk, CountOk, ThreadsOk;
    if pc.Write? {
      WriteReady(c, s, i);
    } else if pc.Cancel? {
      CancelReady(c, s, i);
    } else {
      ClientPlain(c, s, i, r);
    }
  }

  predicate KeepsAside(s: State, t: State, i: nat)
    requires i < |s.clients|
  {
    && |t.clients| == |s.clients| && t.workers == s.workers
    && (forall j :: 0 <= j < |s.clients| && j != i ==>
          t.clients[j] == WakePc(s.clients[j]) || t.clients[j] == s.clients[j])
    && ClientTaken(t.clients[i]) == ClientTaken(s.clients[i]) && ClientPut(t.clients[i]) == ClientPut(s.clients[i])
    && t.word == s.word && t.written == s.written && t.removed == s.removed
  }

  lemma LocalAside(c: Config, s: State, i: nat, r: Request)
    requires ClientEnabled(c, s, i, r) && IsLocal(s.clients[i])
    ensures KeepsAside(s, ClientNext(c, s, i, r), i)
  {
  }

  lemma OtherAside(c: Config, s: State, i: nat, r: Request)
    requires ClientEnabled(c, s, i, r) && !IsLocal(s.clients[i])
    requires !s.clients[i].Write? && !s.clients[i].Cancel? && !s.clients[i].SetStop?
    ensures ClientNext(c, s, i, r).fault || KeepsAside(s, ClientNext(c, s, i, r), i)
  {
  }

  lemma ClientPlain(c: Config, s: State, i: nat, r: Request)
    requires Inv(c, s) && ClientEnabled(c, s, i, r)
    requires !s.clients[i].Write? && !s.clients[i].Cancel? && !s.clients[i].SetStop?
    ensures var t := ClientNext(c, s, i, r);
            && AcceptedCount(t) == AcceptedCount(s) && TakenCount(t) == TakenCount(s)
            && t.word == s.word && t.written == s.written && t.removed == s.removed
  {
    hide FatesOk, WaitOk, RingOk, CountOk, ThreadsOk, LocksOk, ClientNext, Put, Taken;
    ClientStepKeeps(c, s, i, r);
    if IsLocal(s.clients[i]) { LocalAside(c, s, i, r); } else { OtherAside(c, s, i, r); }
    SameUnpublishedClient(s, ClientNext(c, s, i, r), i);
  }

  // --------------------------------------------------------------- visible steps

  /** A worker's claim takes exactly the longest bulk prefix, or one scalar task. */
  lemma ClaimTakes(c: Config, s: State, w: nat)
    requires Inv(c, s) && w < |s.workers| && s.workers[w].Claim? && !WantsMore(s, s.workers[w])
    ensures Sized(s) && Sized(PublishClaim(s, w)) && Inv(c, PublishClaim(s, w))
    ensures Take(Abs(c, s), Abs(c, PublishClaim(s, w)), s.workers[w].seen, |s.workers[w].batch|)
    ensures Abs(c, s).queue[..|s.workers[w].batch|] == s.workers[w].batch
  {
    hide Inv;
    var t := PublishClaim(s, w);
    PublishStep(c, s, w);
    AbsOrderly(c, s);
    AbsOrderly(c, t);
    PublishReady(c, s, w);
    PublishWord(c, s, w);
    ClaimIsPrefix(c, s, w);
    ClaimUnpublished(c, s, w);
    RemovedMatch(c, s);
    var k := |s.workers[w].batch|;
    assert TakenCount(t) == TakenCount(s) + k && AcceptedCount(t) == AcceptedCount(s);
    assert t.written == s.written && t.removed == s.removed && IsStopping(t.word) == IsStopping(s.word);
    hide PublishClaim, FetchAdd, IsStopping, Put, Taken, Orderly, IsClaim, WantsMore, LooksIdle, PendingOf;
    TakenItems(s.written, s.removed, TakenCount(s), AcceptedCount(s), k);
  }

  /** Moving the first k items of the queue to the taken history. */
  lemma TakenItems(written: seq<Written>, removed: seq<Removed>, a: nat, b: nat, k: nat)
    requires a + k <= b <= |written| && a + k <= |removed| <= |written|
    requires forall u :: 0 <= u < |removed| ==> removed[u].item == written[u].item
    ensures WrittenItems(written[a + k..b]) == WrittenItems(written[a..b])[k..]
    ensures RemovedItems(removed[..a + k]) == RemovedItems(removed[..a]) + WrittenItems(written[a..b])[..k]
  {
  }

  lemma ClaimUnpublished(c: Config, s: State, w: nat)
    requires Inv(c, s) && w < |s.workers| && s.workers[w].Claim? && !WantsMore(s, s.workers[w])
    ensures Sized(s) && TakenCount(s) == s.workers[w].base
    ensures Put(PublishClaim(s, w)) == Put(s) && Taken(PublishClaim(s, w)) == 0
  {
    AbsOrderly(c, s);
    hide RingOk, FatesOk, WaitOk, CountOk;
    assert s.consumerLock == Some(Worker(w));
    assert WorkerOk(c, s.word, s.written, s.removed, w, s.workers[w]);
  }

  /** What the worker holds is what the abstract queue starts with. */
  lemma ClaimHolds(c: Config, s: State, w: nat)
    requires Inv(c, s) && w < |s.workers| && s.workers[w].Claim? && !WantsMore(s, s.workers[w])
    ensures Sized(s) && |s.workers[w].batch| <= |Abs(c, s).queue| == PendingOf(s.word)
    ensures Abs(c, s).queue[..|s.workers[w].batch|] == s.workers[w].batch
    ensures forall x | x in s.workers[w].batch :: x.bulk == s.workers[w].bulk
    ensures 1 <= s.workers[w].seen <= PendingOf(s.word)
    ensures 1 <= |s.workers[w].batch| <= ClaimLimit(s.workers[w].bulk, s.workers[w].seen)
  {
    AbsOrderly(c, s);
    PublishReady(c, s, w);
    ClaimUnpublished(c, s, w);
    hide LocksOk, FatesOk, WaitOk, CountOk;
    var pc := s.workers[w];
    assert WorkerOk(c, s.word, s.written, s.removed, w, pc);
    hide ThreadsOk, Put, Taken, Orderly, IsStopping, LooksIdle;
    var k, f := |pc.batch|, Abs(c, s);
    forall j | 0 <= j < k ensures f.queue[j] == pc.batch[j] {
      assert s.removed[pc.base + j] == Removed(pc.batch[j], Running(w));
    }
  }

  lemma ClaimIsPrefix(c: Config, s: State, w: nat)
    requires Inv(c, s) && w < |s.workers| && s.workers[w].Claim? && !WantsMore(s, s.workers[w])
    ensures Sized(s)
    ensures var f, pc := Abs(c, s), s.workers[w];
            && IsClaim(f.queue, pc.seen, |pc.batch|) && |pc.batch| <= |f.queue|
            && f.queue[..|pc.batch|] == pc.batch
  {
    ClaimHolds(c, s, w);
    ClaimUnpublished(c, s, w);
    var pc := s.workers[w];
    var k, f := |pc.batch|, Abs(c, s);
    forall j | 0 <= j < k ensures f.queue[j].bulk == pc.bulk {
      assert f.queue[j] == f.queue[..k][j] == pc.batch[j];
    }
    if k < ClaimLimit(pc.bulk, pc.seen) {
      HeadFull(c, s);
      ClaimSize(c, s, w);
      hide Inv, Put, Taken, LooksIdle, PendingOf;
      assert f.queue[k] == s.written[|s.removed|].item;
    }
  }

  lemma ClaimSize(c: Config, s: State, w: nat)
    requires Inv(c, s) && w < |s.workers| && s.workers[w].Claim?
    ensures s.workers[w].base + |s.workers[w].batch| == |s.removed|
  {
    assert WorkerOk(c, s.word, s.written, s.removed, w, s.workers[w]);
  }

  /** What a refill publishes: the next `room` items of its submission. */
  function Refill(pc: ClientPc): seq<Item>
    requires pc.Write? && pc.unpublished <= |pc.job.tickets| <= |pc.job.items|
  {
    pc.job.items[|pc.job.tickets| - pc.unpublished..|pc.job.tickets|]
  }

  /** A refill appends, in one piece and in order, exactly the next items of its submission. */
  lemma RefillOffers(c: Config, s: State, i: nat)
    requires Inv(c, s) && i < |s.clients| && s.clients[i].Write? && s.clients[i].unpublished == s.clients[i].room
    ensures Sized(s) && Sized(PublishWrites(s, i)) && Inv(c, PublishWrites(s, i))
    ensures s.clients[i].unpublished <= |s.clients[i].job.tickets| <= |s.clients[i].job.items|
    ensures Offer(Abs(c, s), Abs(c, PublishWrites(s, i)), Refill(s.clients[i]))
  {
    hide Inv;
    var t := PublishWrites(s, i);
    PublishWritesStep(c, s, i);
    AbsOrderly(c, s);
    AbsOrderly(c, t);
    RefillCounts(c, s, i);
    RefillItems(c, s, i);
    hide FetchAdd, IsStopping, Put, Taken, Orderly, Refill;
    var from, to := TakenCount(s), AcceptedCount(s);
    assert s.written[from..] == s.written[from..to] + s.written[to..];
    assert s.written == s.written[..to] + s.written[to..];
    WrittenConcat(s.written[from..to], s.written[to..]);
    WrittenConcat(s.written[..to], s.written[to..]);
    assert t.written[from..AcceptedCount(t)] == s.written[from..] && t.written[..AcceptedCount(t)] == s.written;
  }

  lemma WrittenConcat(a: seq<Written>, b: seq<Written>)
    ensures WrittenItems(a + b) == WrittenItems(a) + WrittenItems(b)
  {
  }

  lemma RefillCounts(c: Config, s: State, i: nat)
    requires Inv(c, s) && i < |s.clients| && s.clients[i].Write? && s.clients[i].unpublished == s.clients[i].room
    ensures var t := PublishWrites(s, i);
            && AcceptedCount(t) == |s.written| == AcceptedCount(s) + s.clients[i].unpublished
            && AcceptedCount(s) < AcceptedCount(t) && TakenCount(t) == TakenCount(s)
            && !IsStopping(s.word) && !IsStopping(t.word) && PendingOf(t.word) <= c.capacity
  {
    hide RingOk, FatesOk, WaitOk, CountOk;
    PublishWritesWord(c, s, i);
    assert ClientOk(c, s.word, s.written, |s.removed|, i, s.clients[i]);
    assert s.producerLock == Some(i) && s.consumerLock != Some(Client(i));
  }

  lemma RefillItems(c: Config, s: State, i: nat)
    requires Inv(c, s) && i < |s.clients| && s.clients[i].Write? && s.clients[i].unpublished == s.clients[i].room
    ensures Sized(s) && s.clients[i].unpublished <= |s.clients[i].job.tickets| <= |s.clients[i].job.items|
    ensures WrittenItems(s.written[AcceptedCount(s)..]) == Refill(s.clients[i])
  {
    hide RingOk, FatesOk, WaitOk, CountOk, LocksOk;
    AbsOrderly(c, s);
    RefillCounts(c, s, i);
    assert ClientOk(c, s.word, s.written, |s.removed|, i, s.clients[i]);
    hide Inv;
    var job, n := s.clients[i].job, s.clients[i].unpublished;
    var xs := WrittenItems(s.written[AcceptedCount(s)..]);
    forall j | 0 <= j < n ensures xs[j] == Refill(s.clients[i])[j] {
      assert job.tickets[|job.tickets| - n + j] == |s.written| - n + j;
    }
  }

  lemma CancelDrops(c: Config, s: State, i: nat)
    requires Inv(c, s) && i < |s.clients| && s.clients[i].Cancel? && s.clients[i].left == 0
    ensures Sized(s) && Sized(CancelDone(s, i)) && Inv(c, CancelDone(s, i))
    ensures DropAll(Abs(c, s), Abs(c, CancelDone(s, i)))
  {
    hide Inv;
    var t := CancelDone(s, i);
    CancelDoneStep(c, s, i);
    AbsOrderly(c, s);
    AbsOrderly(c, t);
    CancelDoneWord(c, s, i);
    CancelReady(c, s, i);
    CancelCountsAll(c, s, i);
    var f, g := Abs(c, s), Abs(c, t);
    RemovedMatch(c, s);
    assert g.queue == [];
    assert g.accepted == f.accepted;
    assert g.taken == f.taken + f.queue;
  }

  lemma CancelCountsAll(c: Config, s: State, i: nat)
    requires Inv(c, s) && i < |s.clients| && s.clients[i].Cancel? && s.clients[i].left == 0
    ensures var t := CancelDone(s, i);
            && AcceptedCount(t) == AcceptedCount(s) == |s.written| == |s.removed| == TakenCount(t)
  {
    CancelReady(c, s, i);
    hide RingOk, FatesOk, WaitOk, CountOk, ThreadsOk;
  }

  lemma RemovedMatch(c: Config, s: State)
    requires Inv(c, s)
    ensures |s.removed| <= |s.written|
    ensures forall u :: 0 <= u < |s.removed| ==> s.removed[u].item == s.written[u].item
  {
  }

  lemma SetStopUnpublished(c: Config, s: State, i: nat, r: Request)
    requires Inv(c, s) && i < |s.clients| && s.clients[i].SetStop?
    ensures Put(ClientNext(c, s, i, r)) == Put(s) && Taken(ClientNext(c, s, i, r)) == Taken(s)
  {
    hide RingOk, FatesOk, WaitOk, CountOk, ThreadsOk;
    ClientStepKeeps(c, s, i, r);
    SameUnpublishedClient(s, ClientNext(c, s, i, r), i);
  }

  lemma StopCloses(c: Config, s: State, i: nat, r: Request)
    requires Inv(c, s) && i < |s.clients| && s.clients[i].SetStop?
    ensures var t := ClientNext(c, s, i, r);
            Inv(c, t) && Sized(s) && Sized(t) && Close(Abs(c, s), Abs(c, t))
  {
    hide Inv;
    var t := ClientNext(c, s, i, r);
    ClientStepKeeps(c, s, i, r);
    AbsOrderly(c, s);
    AbsOrderly(c, t);
    SetStopWord(c, s);
    SetStopUnpublished(c, s, i, r);
    SetStopLeaves(c, s, i, r);
    hide ClientNext, IsStopping, Put, Taken, Orderly;
  }

  lemma SetStopLeaves(c: Config, s: State, i: nat, r: Request)
    requires ClientEnabled(c, s, i, r) && s.clients[i].SetStop?
    ensures var t := ClientNext(c, s, i, r);
            t.written == s.written && t.removed == s.removed && t.word == FetchOrStop(s.word)
  {
    hide FetchOrStop;
  }

  /** Every step of the pool is a step of the bounded queue, or invisible to it. */
  lemma Refines(c: Config, s: State, a: Action)
    requires Inv(c, s) && Enabled(c, s, a)
    ensures Sized(s) && Sized(Next(c, s, a))
    ensures FifoNext(Abs(c, s), Abs(c, Next(c, s, a)))
  {
    hide RingOk, LocksOk, CountOk, ThreadsOk, FatesOk, WaitOk;
    StepKeeps(c, s, a);
    AbsOrderly(c, s);
    AbsOrderly(c, Next(c, s, a));
    if Publishes(s, a) {
      RefinesVisibly(c, s, a);
    } else {
      match a
      case WorkerStep(w, o) => WorkerStepHidden(c, s, w, o); SameAbs(c, s, Next(c, s, a));
      case ClientStep(i, r) => ClientStepHidden(c, s, i, r); SameAbs(c, s, Next(c, s, a));
    }
  }

  lemma RefinesVisibly(c: Config, s: State, a: Action)
    requires Inv(c, s) && Enabled(c, s, a) && Publishes(s, a)
    ensures Sized(s) && Sized(Next(c, s, a))
    ensures FifoNext(Abs(c, s), Abs(c, Next(c, s, a)))
  {
    hide RingOk, LocksOk, CountOk, FatesOk, WaitOk, Offer, Take, DropAll, Close, Abs, Sized;
    match a
    case WorkerStep(w, o) =>
      ClaimTakes(c, s, w);
    case ClientStep(i, r) =>
      assert ClientOk(c, s.word, s.written, |s.removed|, i, s.clients[i]);
      if s.clients[i].Write? {
        RefillOffers(c, s, i);
      } else if s.clients[i].Cancel? {
        CancelDrops(c, s, i);
      } else {
        StopCloses(c, s, i, r);
      }
  }

  /** Over any run, tasks are accepted and taken in the same order, never lost,
      never duplicated, and nothing is accepted once the pool is stopping. */
  lemma {:induction false} RunRefines(c: Config, s: State, acts: seq<Action>, t: State)
    requires Inv(c, s) && Leads(c, s, acts, t)
    ensures Inv(c, t) && Sized(s) && Sized(t)
    ensures Orderly(Abs(c, s)) && Advances(Abs(c, s), Abs(c, t))
    decreases |acts|
  {
    hide Inv, Abs, Sized, FifoNext, Orderly;
    AbsOrderly(c, s);
    if |acts| > 0 {
      var u := Next(c, s, acts[0]);
      Refines(c, s, acts[0]);
      FifoKeepsOrder(Abs(c, s), Abs(c, u));
      StepKeeps(c, s, acts[0]);
      RunRefines(c, u, acts[1..], t);
    }
  }
}
