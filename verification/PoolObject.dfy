/** Every critical section of the pool class takes the object from the image of one
    state of the step system to the image of another, along a run of one thread. */
module PoolObject {
  import opened Common
  import opened PackedState
  import opened Ring
  import opened PoolMachine
  import opened PoolInvariant
  import opened PoolWorkerSteps
  import opened PoolClientSteps
  import opened BoundedFifo
  import opened WorkerPool
  import opened PoolRuns

  /** The object's ring, word and counters are those of the state. */
  ghost predicate Mirrors(c: Config, p: Pool, m: State)
    reads p, p.tasks
  {
    && c.capacity == p.capacity && m.slots == p.tasks[..] && m.head == p.queueHead && m.tail == p.queueTail
    && m.word == p.queueState && m.failed == p.failedDispatches && m.cancelled == p.cancelledDispatches
  }

  /** No thread has moved a task that the word does not tell of yet. */
  ghost predicate AtRest(m: State) { Put(m) == 0 && Taken(m) == 0 }

  lemma MirrorFacts(c: Config, p: Pool, m: State)
    requires p.Valid() && Inv(c, m) && Mirrors(c, p, m) && AtRest(m)
    ensures p.content == WrittenItems(m.written[|m.removed|..]) && |p.content| == PendingOf(m.word)
    ensures p.active == Sum(Held, m.workers)
  {
    hide LocksOk, ThreadsOk, FatesOk, WaitOk, Put, Taken;
    Decode(|p.content|, p.active, IsStopping(p.queueState));
    DecodeUnbounded(|p.content|, p.active, IsStopping(p.queueState));
    DecodeUnbounded(PendingOf(m.word), Sum(Held, m.workers), IsStopping(m.word));
    ContentIsUnique(m.slots, m.head, p.content, WrittenItems(m.written[|m.removed|..]));
  }

  lemma MirrorsAgain(c: Config, p: Pool, t: State)
    requires p.Valid() && Inv(c, t) && AtRest(t) && c.capacity == p.capacity
    requires p.content == WrittenItems(t.written[|t.removed|..]) && p.active == Sum(Held, t.workers)
    requires IsStopping(p.queueState) == IsStopping(t.word)
    requires t.head == p.queueHead || t.tail == p.queueTail
    requires t.failed == p.failedDispatches && t.cancelled == p.cancelledDispatches
    ensures Mirrors(c, p, t)
  {
    hide LocksOk, ThreadsOk, FatesOk, WaitOk, Put, Taken;
    HeadIsUnique(c.capacity, t.head, p.queueHead, |p.content|);
    WindowIsUnique(t.slots, p.tasks[..], t.head, p.content);
  }

  // ------------------------------------------------------------------- producers

  /** The state that mirrors the object after an attempt under the producer lock. */
  lemma ProducerLinks(c: Config, p: Pool, m: State, i: nat, content: seq<Item>, r: Attempt, moved: nat)
    returns (acts: seq<Action>, t: State)
    requires p.Valid() && Inv(c, m) && c.capacity == p.capacity
    requires i < |m.clients| && m.clients[i].LoadP? && m.consumerLock == None
    requires |m.removed| <= |m.written| && content == WrittenItems(m.written[|m.removed|..])
    requires |content| == PendingOf(m.word) && p.active == Sum(Held, m.workers) && p.queueHead == m.head
    requires r == Rejected <==> IsStopping(m.word)
    requires r == Full <==> !IsStopping(m.word) && |content| == c.capacity
    requires var job := m.clients[i].job;
             && |job.tickets| + moved <= |job.items|
             && moved == (if r == Accepted then Min(|job.items| - |job.tickets|, c.capacity - |content|) else 0)
             && p.content == content + job.items[|job.tickets|..|job.tickets| + moved]
    requires IsStopping(p.queueState) == IsStopping(m.word)
    requires m.failed == p.failedDispatches && m.cancelled == p.cancelledDispatches
    ensures Leads(c, m, acts, t) && Inv(c, t) && Mirrors(c, p, t) && i < |t.clients|
    ensures var job := m.clients[i].job;
            && (r == Rejected ==> t.clients[i] == Submitted(job, true))
            && (r == Full ==> t.clients[i] == Space(job))
            && (r == Accepted ==> t.clients[i].ReleaseP?)
            && WrittenItems(t.written) == WrittenItems(m.written) +
                 job.items[|job.tickets|..|job.tickets| + moved]
  {
    var room;
    hide Inv, Leads;
    acts, t, room := ProducerRun(c, m, i);
    hide Put, Taken, Window, Encode;
    assert moved == room;
    QuietAtRest(c, m, t, i);
    var job := m.clients[i].job;
    GrownContent(m, t, job.items[|job.tickets|..|job.tickets| + moved]);
    MirrorsAgain(c, p, t);
  }

  lemma QuietAtRest(c: Config, m: State, t: State, i: nat)
    requires t.consumerLock == None && i < |t.clients| && !t.clients[i].Write?
    requires t.producerLock == None || t.producerLock == Some(i)
    ensures AtRest(t)
  {
  }

  lemma GrownContent(m: State, t: State, xs: seq<Item>)
    requires t.removed == m.removed && |m.removed| <= |m.written|
    requires WrittenItems(t.written) == WrittenItems(m.written) + xs
    ensures |t.removed| <= |t.written|
    ensures WrittenItems(t.written[|t.removed|..]) == WrittenItems(m.written[|m.removed|..]) + xs
  {
    assert |t.written| == |WrittenItems(t.written)| == |m.written| + |xs|;
    assert WrittenItems(t.written[|m.removed|..]) == WrittenItems(t.written)[|m.removed|..];
    assert WrittenItems(m.written[|m.removed|..]) == WrittenItems(m.written)[|m.removed|..];
  }

  lemma ProducerFacts(c: Config, p: Pool, m: State, i: nat)
    requires p.Valid() && Inv(c, m) && Mirrors(c, p, m)
    requires i < |m.clients| && m.clients[i].LoadP? && m.consumerLock == None
    ensures |m.removed| <= |m.written| && p.content == WrittenItems(m.written[|m.removed|..])
    ensures |p.content| == PendingOf(m.word) && p.active == Sum(Held, m.workers)
  {
    assert m.producerLock == Some(i);
    QuietAtRest(c, m, m, i);
    MirrorFacts(c, p, m);
  }

  /** `enqueue` under its lock is the run of a client from its load to its release. */
  method EnqueueRuns(p: Pool, item: Item, ghost c: Config, ghost m: State, ghost i: nat)
    returns (r: Attempt, ghost acts: seq<Action>, ghost t: State)
    requires p.Valid() && Inv(c, m) && Mirrors(c, p, m)
    requires i < |m.clients| && m.clients[i] == LoadP(Job([item], [])) && m.consumerLock == None
    modifies p, p.tasks
    ensures p.Valid() && Leads(c, m, acts, t) && Inv(c, t) && Mirrors(c, p, t) && i < |t.clients|
    ensures r == Rejected ==> t.clients[i] == Submitted(m.clients[i].job, true)
    ensures r == Full ==> t.clients[i] == Space(m.clients[i].job)
    ensures r == Accepted ==> t.clients[i].ReleaseP?
    ensures WrittenItems(t.written) == WrittenItems(m.written) + if r == Accepted then [item] else []
  {
    ProducerFacts(c, p, m, i);
    hide Inv, Leads;
    ghost var content := p.content;
    r := p.TryEnqueue(item);
    ghost var moved: nat := if r == Accepted then 1 else 0;
    assert [item][0..moved] == if r == Accepted then [item] else [];
    hide Window, Encode, Put, Taken;
    acts, t := ProducerLinks(c, p, m, i, content, r, moved);
  }

  lemma SpanHolds(items: seq<Item>, span: seq<Option<Item>>, from: nat, moved: nat)
    requires from + moved <= |span| == |items|
    requires forall j :: from <= j < |span| ==> span[j] == Some(items[j])
    ensures WorkerPool.Moved(span[from..from + moved]) == items[from..from + moved]
  {
    var part := span[from..from + moved];
    assert forall j :: 0 <= j < moved ==> part[j] == Some(items[from + j]);
  }

  /** So is one refill of `dispatch_bulk`. */
  method RefillRuns(p: Pool, span: array<Option<Item>>, from: nat, ghost c: Config, ghost m: State, ghost i: nat)
    returns (r: Attempt, moved: nat, ghost acts: seq<Action>, ghost t: State)
    requires p.Valid() && span != p.tasks && Inv(c, m) && Mirrors(c, p, m)
    requires i < |m.clients| && m.clients[i].LoadP? && m.consumerLock == None
    requires var job := m.clients[i].job;
             && |job.tickets| == from < |job.items| == span.Length
             && forall j :: from <= j < span.Length ==> span[j] == Some(job.items[j])
    modifies p, p.tasks, span
    ensures p.Valid() && Leads(c, m, acts, t) && Inv(c, t) && Mirrors(c, p, t) && i < |t.clients|
    ensures from + moved <= span.Length
    ensures var job := m.clients[i].job;
            && (r == Rejected ==> t.clients[i] == Submitted(job, true))
            && (r == Full ==> t.clients[i] == Space(job))
            && (r == Accepted ==> t.clients[i].ReleaseP? && moved > 0)
            && WrittenItems(t.written) == WrittenItems(m.written) + job.items[from..from + moved]
  {
    ProducerFacts(c, p, m, i);
    assert m.head == p.queueHead && c.capacity == p.capacity && m.word == p.queueState;
    assert m.failed == p.failedDispatches && m.cancelled == p.cancelledDispatches;
    hide Inv, Leads, Window, Encode, Put, Taken, Mirrors, WorkerPool.Moved;
    ghost var items, content, was := m.clients[i].job.items, p.content, span[..];
    SpanHolds(items, was, from, 0);
    r, moved := p.Refill(span, from);
    SpanHolds(items, was, from, moved);
    assert was[from..from + moved] == old(span[from..from + moved]);
    assert r != Accepted ==> items[from..from + moved] == [];
    assert p.content == content + items[from..from + moved];
    acts, t := ProducerLinks(c, p, m, i, content, r, moved);
  }

  // --------------------------------------------------------------------- workers

  /** A worker that holds nothing may still claim 16 tasks. */
  lemma RoomToClaim(c: Config, m: State, w: nat)
    requires Inv(c, m) && w < |m.workers| && Held(m.workers[w]) == 0
    ensures Sum(Held, m.workers) + BULK_CLAIM <= MAX_ACTIVE
  {
    hide RingOk, LocksOk, CountOk, FatesOk, WaitOk;
    forall x | x in m.workers ensures Held(x) <= BULK_CLAIM {
      var v :| 0 <= v < |m.workers| && m.workers[v] == x;
      assert WorkerOk(c, m.word, m.written, m.removed, v, m.workers[v]);
    }
    SumLeavesRoom(Held, m.workers, BULK_CLAIM, w);
    ProductBound(c.workers, BULK_CLAIM, 1024, 16);
  }

  lemma WorkerFacts(c: Config, p: Pool, m: State, w: nat)
    requires p.Valid() && Inv(c, m) && Mirrors(c, p, m)
    requires w < |m.workers| && m.workers[w].LoadC? && m.producerLock == None
    ensures |m.removed| <= |m.written| && p.content == WrittenItems(m.written[|m.removed|..])
    ensures |p.content| == PendingOf(m.word) && p.active == Sum(Held, m.workers)
    ensures p.active + BULK_CLAIM <= MAX_ACTIVE && Put(m) == 0
  {
    assert m.consumerLock == Some(Worker(w));
    MirrorFacts(c, p, m);
    RoomToClaim(c, m, w);
  }

  /** The state that mirrors the object after a claim. */
  lemma ClaimLinks(c: Config, p: Pool, m: State, w: nat, content: seq<Item>, batch: seq<Item>)
    returns (acts: seq<Action>, t: State)
    requires p.Valid() && Inv(c, m) && c.capacity == p.capacity
    requires w < |m.workers| && m.workers[w].LoadC? && m.producerLock == None
    requires |m.removed| <= |m.written| && content == WrittenItems(m.written[|m.removed|..])
    requires |content| == PendingOf(m.word) && p.active == Sum(Held, m.workers) + |batch| && Put(m) == 0
    requires content == [] ==> batch == []
    requires content != [] ==>
               IsClaim(content, |content|, |batch|) && |batch| <= |content| && batch == content[..|batch|]
    requires p.content == content[|batch|..] && p.queueTail == m.tail
    requires IsStopping(p.queueState) == IsStopping(m.word)
    requires m.failed == p.failedDispatches && m.cancelled == p.cancelledDispatches
    ensures Leads(c, m, acts, t) && Inv(c, t) && Mirrors(c, p, t) && w < |t.workers|
    ensures t.workers[w] == if content == [] then Top else ReleaseC(|m.removed|, batch)
  {
    var taken;
    hide Inv, Leads, IsClaim;
    acts, t, taken := ClaimRun(c, m, w);
    if content != [] { ClaimIsUnique(content, |content|, |taken|, |batch|); }
    assert taken == batch;
    SumUpdate(Held, m.workers, w, t.workers[w]);
    ClaimedAtRest(c, t, w);
    assert WrittenItems(t.written[|t.removed|..]) == content[|batch|..];
    hide Put, Taken, Window, Encode;
    MirrorsAgain(c, p, t);
  }

  lemma ClaimedAtRest(c: Config, t: State, w: nat)
    requires Inv(c, t) && w < |t.workers| && (t.workers[w] == Top || t.workers[w].ReleaseC?)
    requires t.producerLock == None && (t.consumerLock == None || t.consumerLock == Some(Worker(w)))
    ensures AtRest(t)
  {
    hide RingOk, CountOk, ThreadsOk, FatesOk, WaitOk;
  }

  /** A claim is the run of a worker from its load to its release. */
  method ClaimRuns(p: Pool, ghost c: Config, ghost m: State, ghost w: nat)
    returns (batch: seq<Item>, ghost acts: seq<Action>, ghost t: State)
    requires p.Valid() && Inv(c, m) && Mirrors(c, p, m)
    requires w < |m.workers| && m.workers[w].LoadC? && m.producerLock == None
    modifies p, p.tasks
    ensures p.Valid() && Leads(c, m, acts, t) && Inv(c, t) && Mirrors(c, p, t) && w < |t.workers|
    ensures t.workers[w] == if batch == [] then Top else ReleaseC(|m.removed|, batch)
  {
    WorkerFacts(c, p, m, w);
    hide Inv, Leads, Window, Encode, Put, Taken;
    ghost var content := p.content;
    batch := p.ClaimNext();
    acts, t := ClaimLinks(c, p, m, w, content, batch);
  }

  // --------------------------------------------------------------------- batches

  lemma BatchFacts(c: Config, p: Pool, m: State, w: nat)
    requires p.Valid() && Inv(c, m) && Mirrors(c, p, m) && AtRest(m)
    requires w < |m.workers| && m.workers[w].Run? && m.workers[w].next == 0
    ensures |m.removed| <= |m.written| && p.content == WrittenItems(m.written[|m.removed|..])
    ensures p.active == Sum(Held, m.workers)
    ensures 0 < |m.workers[w].batch| <= BULK_CLAIM && |m.workers[w].batch| <= p.active
  {
    MirrorFacts(c, p, m);
    assert WorkerOk(c, m.word, m.written, m.removed, w, m.workers[w]);
    SumAtLeast(Held, m.workers, w);
  }

  lemma BatchLinks(c: Config, p: Pool, m: State, w: nat, outcomes: seq<Outcome>)
    returns (acts: seq<Action>, t: State)
    requires p.Valid() && Inv(c, m) && c.capacity == p.capacity && AtRest(m)
    requires w < |m.workers| && m.workers[w].Run? && m.workers[w].next == 0
    requires |outcomes| == |m.workers[w].batch| && |m.removed| <= |m.written|
    requires p.content == WrittenItems(m.written[|m.removed|..]) && p.active + |outcomes| == Sum(Held, m.workers)
    requires IsStopping(p.queueState) == IsStopping(m.word) && m.head == p.queueHead
    requires p.failedDispatches == m.failed + Failures(m.workers[w].batch, outcomes)
    requires m.cancelled == p.cancelledDispatches
    ensures Leads(c, m, acts, t) && Inv(c, t) && Mirrors(c, p, t) && w < |t.workers|
    ensures t.workers[w] == if LooksIdle(p.queueState) then NotifyTest else Top
  {
    hide Inv, Leads;
    acts, t := BatchRun(c, m, w, outcomes);
    BatchAtRest(c, m, t, w);
    hide Put, Taken, Window, Encode;
    MirrorsAgain(c, p, t);
  }

  lemma BatchAtRest(c: Config, m: State, t: State, w: nat)
    requires Inv(c, m) && AtRest(m) && w < |m.workers| && m.workers[w].Run? && |t.workers| == |m.workers|
    requires t.workers == m.workers[w := t.workers[w]] && t.clients == m.clients
    requires t.producerLock == m.producerLock && t.consumerLock == m.consumerLock
    ensures AtRest(t)
  {
    hide RingOk, CountOk, ThreadsOk, FatesOk, WaitOk;
  }

  /** A batch is the run of its worker from the first callback to the release. */
  method BatchRuns(p: Pool, batch: seq<Item>, outcomes: seq<Outcome>, ghost c: Config, ghost m: State, ghost w: nat)
    returns (notify: bool, ghost acts: seq<Action>, ghost t: State)
    requires p.Valid() && Inv(c, m) && Mirrors(c, p, m) && AtRest(m)
    requires w < |m.workers| && m.workers[w].Run? && m.workers[w].next == 0
    requires batch == m.workers[w].batch && |outcomes| == |batch|
    modifies p
    ensures p.Valid() && Leads(c, m, acts, t) && Inv(c, t) && Mirrors(c, p, t) && w < |t.workers|
    ensures t.workers[w] == if notify then NotifyTest else Top
  {
    BatchFacts(c, p, m, w);
    hide Inv, Leads, Window, Encode, Put, Taken;
    notify := p.RunBatch(batch, outcomes);
    acts, t := BatchLinks(c, p, m, w, outcomes);
  }

  // ------------------------------------------------------- cancelling and stopping

  lemma CancelFacts(c: Config, p: Pool, m: State, i: nat)
    requires p.Valid() && Inv(c, m) && Mirrors(c, p, m) && i < |m.clients| && m.clients[i].LoadBoth?
    ensures |m.removed| <= |m.written| && p.content == WrittenItems(m.written[|m.removed|..])
    ensures |p.content| == PendingOf(m.word) && p.active == Sum(Held, m.workers)
  {
    assert HoldsBoth(m.clients[i]) && HoldsProducer(m.clients[i]);
    assert m.producerLock == Some(i) && m.consumerLock == Some(Client(i));
    MirrorFacts(c, p, m);
  }

  lemma CancelLinks(c: Config, p: Pool, m: State, i: nat, content: seq<Item>)
    returns (acts: seq<Action>, t: State)
    requires p.Valid() && Inv(c, m) && c.capacity == p.capacity && i < |m.clients| && m.clients[i].LoadBoth?
    requires |m.removed| <= |m.written| && content == WrittenItems(m.written[|m.removed|..])
    requires |content| == PendingOf(m.word) && p.active == Sum(Held, m.workers) && p.content == []
    requires p.queueHead == p.queueTail == m.tail && IsStopping(p.queueState) == IsStopping(m.word)
    requires m.failed == p.failedDispatches
    requires p.cancelledDispatches == m.cancelled + Sum(Untracked, content)
    ensures Leads(c, m, acts, t) && Inv(c, t) && Mirrors(c, p, t) && i < |t.clients|
    ensures t.clients[i] ==
            if content == [] then ReleaseBoth(m.clients[i].closing) else LoadActive(m.clients[i].closing)
  {
    hide Inv, Leads;
    acts, t := CancelRun(c, m, i);
    assert t.written[|t.removed|..] == [] && WrittenItems(t.written[|t.removed|..]) == [];
    CancelledAtRest(c, m, t, i);
    hide Put, Taken, Window, Encode;
    MirrorsAgain(c, p, t);
  }

  lemma CancelledAtRest(c: Config, m: State, t: State, i: nat)
    requires Inv(c, m) && i < |m.clients| && m.clients[i].LoadBoth? && |t.clients| == |m.clients|
    requires t.clients == m.clients[i := t.clients[i]] && !t.clients[i].Write? && !t.clients[i].Cancel?
    requires t.producerLock == m.producerLock && t.consumerLock == m.consumerLock && t.workers == m.workers
    ensures AtRest(t)
  {
    hide RingOk, CountOk, ThreadsOk, FatesOk, WaitOk;
    assert HoldsBoth(m.clients[i]) && HoldsProducer(m.clients[i]);
  }

  /** `cancel_pending` is the run of a client from its load to its subtraction. */
  method CancelRuns(p: Pool, ghost c: Config, ghost m: State, ghost i: nat)
    returns (cancelled: nat, notify: bool, ghost acts: seq<Action>, ghost t: State)
    requires p.Valid() && Inv(c, m) && Mirrors(c, p, m) && i < |m.clients| && m.clients[i].LoadBoth?
    modifies p, p.tasks
    ensures p.Valid() && Leads(c, m, acts, t) && Inv(c, t) && Mirrors(c, p, t) && i < |t.clients|
    ensures t.clients[i] ==
            if cancelled == 0 then ReleaseBoth(m.clients[i].closing) else LoadActive(m.clients[i].closing)
  {
    CancelFacts(c, p, m, i);
    hide Inv, Leads, Window, Encode, Put, Taken;
    ghost var content := p.content;
    cancelled, notify := p.CancelPending();
    acts, t := CancelLinks(c, p, m, i, content);
  }

  /** `signal_shutdown` under its lock is one step. */
  method StopRuns(p: Pool, ghost c: Config, ghost m: State, ghost i: nat) returns (ghost t: State)
    requires p.Valid() && Inv(c, m) && Mirrors(c, p, m)
    requires i < |m.clients| && m.clients[i].SetStop? && m.consumerLock == None
    modifies p`queueState
    ensures p.Valid() && t == Next(c, m, ClientStep(i, Wait)) && Inv(c, t) && Mirrors(c, p, t)
  {
    StepKeeps(c, m, ClientStep(i, Wait));
    t := ClientNext(c, m, i, Wait);
    hide Inv, Window;
    p.SetStopping();
  }
}
