/** The critical sections of the pool class are runs of the step system: what a method
    does to the ring, the word and the counters is what one thread's steps do. */
module PoolRuns {
  import opened Common
  import opened PackedState
  import opened Ring
  import opened PoolMachine
  import opened PoolInvariant
  import opened PoolWorkerSteps
  import opened PoolClientSteps
  import opened BoundedFifo
  import opened PoolRefinement
  import opened WorkerPool

  /** From `o` the given steps lead to `m`, where the invariant holds. */
  ghost predicate Follows(c: Config, o: State, acts: seq<Action>, m: State) {
    Leads(c, o, acts, m) && Inv(c, m)
  }

  lemma RunOn(c: Config, o: State, acts: seq<Action>, m: State, a: Action)
    requires Follows(c, o, acts, m) && Enabled(c, m, a)
    ensures Follows(c, o, acts + [a], Next(c, m, a))
  {
    hide Leads, Inv, Enabled, Next;
    LeadsAppend(c, o, acts, m, a);
    StepKeeps(c, m, a);
  }

  lemma RunNowhere(c: Config, m: State)
    requires Inv(c, m)
    ensures Follows(c, m, [], m)
  {
    hide Inv;
  }

  // ------------------------------------------------------------- producer's runs

  lemma WriteOne(c: Config, m: State, i: nat)
    requires Inv(c, m) && i < |m.clients| && m.clients[i].Write? && m.clients[i].unpublished < m.clients[i].room
    ensures var a, pc := ClientStep(i, Wait), m.clients[i];
            && Enabled(c, m, a) && |pc.job.tickets| < |pc.job.items|
            && var u := Next(c, m, a);
               && u == m.(slots := u.slots, tail := u.tail, written := u.written, clients := u.clients)
               && u.written == m.written + [Written(pc.job.items[|pc.job.tickets|], i)]
               && u.clients == m.clients[i :=
                    Write(pc.job.(tickets := pc.job.tickets + [|m.written|]), pc.room, pc.unpublished + 1)]
  {
    WriteReady(c, m, i);
    hide Inv, Window, PendingOf, IsStopping;
  }

  /** Client i has made all its writes. */
  ghost predicate AllWritten(m: State, t: State, i: nat) {
    && i < |m.clients| && m.clients[i].Write? && m.clients[i].unpublished <= m.clients[i].room
    && |m.clients[i].job.tickets| + m.clients[i].room <= |m.clients[i].job.items| + m.clients[i].unpublished
    && |t.clients| == |m.clients|
    && t == m.(slots := t.slots, tail := t.tail, written := t.written, clients := m.clients[i := t.clients[i]])
    && var p, q := m.clients[i], t.clients[i];
       && q.Write? && q.room == q.unpublished == p.room && q.job.items == p.job.items
       && |q.job.tickets| == |p.job.tickets| + (p.room - p.unpublished)
       && WrittenItems(t.written) == WrittenItems(m.written) + p.job.items[|p.job.tickets|..|q.job.tickets|]
  }

  lemma WrittenBefore(m: State, u: State, t: State, i: nat)
    requires i < |m.clients| && m.clients[i].Write? && m.clients[i].unpublished < m.clients[i].room
    requires |m.clients[i].job.tickets| < |m.clients[i].job.items|
    requires |m.clients[i].job.tickets| + m.clients[i].room <= |m.clients[i].job.items| + m.clients[i].unpublished
    requires u == m.(slots := u.slots, tail := u.tail, written := u.written, clients := u.clients)
    requires var pc := m.clients[i];
             && u.written == m.written + [Written(pc.job.items[|pc.job.tickets|], i)]
             && u.clients == m.clients[i :=
                  Write(pc.job.(tickets := pc.job.tickets + [|m.written|]), pc.room, pc.unpublished + 1)]
    requires AllWritten(u, t, i)
    ensures AllWritten(m, t, i)
  {
    var pc, n := m.clients[i], |m.clients[i].job.tickets|;
    assert WrittenItems(u.written) == WrittenItems(m.written) + [pc.job.items[n]];
    assert pc.job.items[n..|t.clients[i].job.tickets|] ==
           [pc.job.items[n]] + pc.job.items[n + 1..|t.clients[i].job.tickets|];
  }

  /** All writes that client i has still to make. */
  lemma {:induction false} Writes(c: Config, o: State, before: seq<Action>, m: State, i: nat)
    returns (acts: seq<Action>, t: State)
    requires Follows(c, o, before, m) && i < |m.clients| && m.clients[i].Write?
    requires |m.clients[i].job.tickets| + m.clients[i].room <= |m.clients[i].job.items| + m.clients[i].unpublished
    requires m.clients[i].unpublished <= m.clients[i].room
    ensures Follows(c, o, acts, t) && AllWritten(m, t, i)
    decreases m.clients[i].room - m.clients[i].unpublished
  {
    if m.clients[i].unpublished == m.clients[i].room {
      acts, t := before, m;
      assert m.clients[i := m.clients[i]] == m.clients;
    } else {
      var a := ClientStep(i, Wait);
      WriteOne(c, m, i);
      RunOn(c, o, before, m, a);
      hide Follows, Next, Enabled, AllWritten;
      acts, t := Writes(c, o, before + [a], Next(c, m, a), i);
      WrittenBefore(m, Next(c, m, a), t, i);
    }
  }

  lemma LoadProducer(c: Config, m: State, i: nat)
    requires Inv(c, m) && i < |m.clients| && m.clients[i].LoadP?
    ensures m.producerLock == Some(i) && PendingOf(m.word) <= c.capacity
    ensures var a, job := ClientStep(i, Wait), m.clients[i].job;
            && Enabled(c, m, a) && |job.tickets| < |job.items|
            && var u := Next(c, m, a);
               && u == m.(clients := m.clients[i := u.clients[i]], producerLock := u.producerLock)
               && if IsStopping(m.word) then u.clients[i] == Submitted(job, true) && u.producerLock == None
                  else if PendingOf(m.word) == c.capacity then u.clients[i] == Space(job) && u.producerLock == None
                  else
                    && u.producerLock == Some(i) && u.clients[i] ==
                         Write(job, Min(|job.items| - |job.tickets|, c.capacity - PendingOf(m.word)), 0)
  {
    hide RingOk, FatesOk, WaitOk;
    assert ClientOk(c, m.word, m.written, |m.removed|, i, m.clients[i]);
    assert HoldsProducer(m.clients[i]);
    hide LocksOk, ThreadsOk, Encode, IsStopping;
  }

  lemma PublishOne(c: Config, m: State, i: nat)
    requires Inv(c, m) && i < |m.clients| && m.clients[i].Write? && m.clients[i].unpublished == m.clients[i].room
    ensures var a, pc := ClientStep(i, Wait), m.clients[i];
            && Enabled(c, m, a)
            && var u := Next(c, m, a);
               && u == m.(word := u.word, clients := m.clients[i := ReleaseP(pc.job)])
               && PendingOf(u.word) == PendingOf(m.word) + pc.room && !IsStopping(u.word)
  {
    PublishWritesWord(c, m, i);
    hide Inv, FetchAdd;
  }

  /** One attempt of client i under the producer lock, from the load to the release. */
  lemma ProducerRun(c: Config, m: State, i: nat) returns (acts: seq<Action>, t: State, room: nat)
    requires Inv(c, m) && i < |m.clients| && m.clients[i].LoadP?
    ensures Follows(c, m, acts, t) && i < |t.clients|
    ensures t == m.(slots := t.slots, tail := t.tail, written := t.written, word := t.word,
                    clients := m.clients[i := t.clients[i]], producerLock := t.producerLock)
    ensures (t.producerLock == None || t.producerLock == Some(i)) && !t.clients[i].Write?
    ensures var job := m.clients[i].job;
            && |job.tickets| + room <= |job.items|
            && WrittenItems(t.written) == WrittenItems(m.written) + job.items[|job.tickets|..|job.tickets| + room]
            && if IsStopping(m.word) then t.clients[i] == Submitted(job, true) && room == 0 && t.word == m.word
               else if PendingOf(m.word) == c.capacity then t.clients[i] == Space(job) && room == 0 && t.word == m.word
               else
                 && room == Min(|job.items| - |job.tickets|, c.capacity - PendingOf(m.word))
                 && t.clients[i].ReleaseP? && PendingOf(t.word) == PendingOf(m.word) + room && !IsStopping(t.word)
  {
    hide Inv, Leads, Enabled, Next, PendingOf, IsStopping;
    var a, job := ClientStep(i, Wait), m.clients[i].job;
    LoadProducer(c, m, i);
    RunNowhere(c, m);
    RunOn(c, m, [], m, a);
    acts, t, room := [] + [a], Next(c, m, a), 0;
    assert job.items[|job.tickets|..|job.tickets|] == [];
    if t.clients[i].Write? {
      room := t.clients[i].room;
      hide Follows;
      acts, t := Writes(c, m, acts, t, i);
      PublishLast(c, m, acts, t, i);
      acts := acts + [a];
      t := Next(c, t, a);
    }
  }

  lemma PublishLast(c: Config, o: State, acts: seq<Action>, m: State, i: nat)
    requires Follows(c, o, acts, m) && i < |m.clients| && m.clients[i].Write?
    requires m.clients[i].unpublished == m.clients[i].room
    ensures var a, pc := ClientStep(i, Wait), m.clients[i];
            && Enabled(c, m, a) && Follows(c, o, acts + [a], Next(c, m, a))
            && var u := Next(c, m, a);
               && u == m.(word := u.word, clients := m.clients[i := ReleaseP(pc.job)])
               && PendingOf(u.word) == PendingOf(m.word) + pc.room && !IsStopping(u.word)
  {
    hide Next, Enabled, PendingOf, IsStopping, Inv, Leads;
    PublishOne(c, m, i);
    RunOn(c, o, acts, m, ClientStep(i, Wait));
  }

  // --------------------------------------------------------------- worker's runs

  lemma TakeOne(c: Config, m: State, w: nat)
    requires Inv(c, m) && w < |m.workers| && m.workers[w].Claim? && WantsMore(m, m.workers[w])
    ensures var a, pc := WorkerStep(w, Threw), m.workers[w];
            && Enabled(c, m, a)
            && var u := Next(c, m, a);
               && |u.workers| == |m.workers| && |u.removed| == |m.removed| + 1
               && u == m.(slots := u.slots, head := u.head, removed := u.removed,
                          workers := m.workers[w := u.workers[w]])
               && u.workers[w].Claim? && u.workers[w].bulk == pc.bulk && u.workers[w].seen == pc.seen
               && u.workers[w].base == pc.base && |u.workers[w].batch| == |pc.batch| + 1
  {
    TakeReady(c, m, w);
    hide Inv;
  }

  /** All slots that worker w has still to take for its claim. */
  lemma {:induction false} Takes(c: Config, o: State, before: seq<Action>, m: State, w: nat)
    returns (acts: seq<Action>, t: State)
    requires Follows(c, o, before, m) && w < |m.workers| && m.workers[w].Claim?
    ensures Follows(c, o, acts, t) && |t.workers| == |m.workers|
    ensures t == m.(slots := t.slots, head := t.head, removed := t.removed, workers := m.workers[w := t.workers[w]])
    ensures var p, q := m.workers[w], t.workers[w];
            && q.Claim? && !WantsMore(t, q) && q.bulk == p.bulk && q.seen == p.seen && q.base == p.base
            && |t.removed| + |p.batch| == |m.removed| + |q.batch|
    decreases Monus(ClaimLimit(m.workers[w].bulk, m.workers[w].seen), |m.workers[w].batch|)
  {
    var pc := m.workers[w];
    if !WantsMore(m, pc) {
      acts, t := before, m;
      assert m.workers[w := m.workers[w]] == m.workers;
    } else {
      var a := WorkerStep(w, Threw);
      TakeOne(c, m, w);
      RunOn(c, o, before, m, a);
      hide Follows, Next, Enabled;
      var u := Next(c, m, a);
      acts, t := Takes(c, o, before + [a], u, w);
    }
  }

  /** One claim of worker w under the consumer lock, from the load to the release. */
  lemma ClaimRun(c: Config, m: State, w: nat) returns (acts: seq<Action>, t: State, batch: seq<Item>)
    requires Inv(c, m) && w < |m.workers| && m.workers[w].LoadC? && Put(m) == 0
    ensures Follows(c, m, acts, t) && |t.workers| == |m.workers|
    ensures t == m.(slots := t.slots, head := t.head, removed := t.removed, word := t.word,
                    workers := m.workers[w := t.workers[w]], consumerLock := t.consumerLock)
    ensures var queue := WrittenItems(m.written[|m.removed|..]);
            if PendingOf(m.word) == 0 then t.workers[w] == Top && batch == [] && t.removed == m.removed
            else
              && t.workers[w] == ReleaseC(|m.removed|, batch) && |t.removed| == |m.removed| + |batch|
              && |queue| == PendingOf(m.word) && IsClaim(queue, |queue|, |batch|)
              && |batch| <= |queue| && batch == queue[..|batch|]
    ensures IsStopping(t.word) == IsStopping(m.word)
    ensures t.consumerLock == None || t.consumerLock == Some(Worker(w))
  {
    hide Inv, Leads, Enabled, Next, PendingOf, IsStopping, WantsMore, Put, Encode;
    var a := WorkerStep(w, Threw);
    LoadOne(c, m, w);
    RunNowhere(c, m);
    RunOn(c, m, [], m, a);
    acts, t, batch := [] + [a], Next(c, m, a), [];
    if PendingOf(m.word) != 0 {
      hide Follows;
      acts, t := Takes(c, m, acts, t, w);
      SamePut(m, t);
      PublishClaimLast(c, m, acts, t, w, m);
      batch := t.workers[w].batch;
      acts := acts + [a];
      t := Next(c, t, a);
    }
  }

  lemma SamePut(m: State, t: State)
    requires t.producerLock == m.producerLock && t.clients == m.clients
    ensures Put(t) == Put(m)
  {
  }

  lemma LoadOne(c: Config, m: State, w: nat)
    requires Inv(c, m) && w < |m.workers| && m.workers[w].LoadC? && Put(m) == 0
    ensures |m.written| - |m.removed| == PendingOf(m.word)
    ensures m.consumerLock == Some(Worker(w))
    ensures var a := WorkerStep(w, Threw);
            && Enabled(c, m, a)
            && var u := Next(c, m, a);
               && |u.workers| == |m.workers|
               && u == m.(workers := m.workers[w := u.workers[w]], consumerLock := u.consumerLock)
               && if PendingOf(m.word) == 0 then u.workers[w] == Top && u.consumerLock == None
                  else
                    && u.workers[w].Claim? && u.workers[w].base == |m.removed| && u.workers[w].batch == []
                    && u.workers[w].seen == PendingOf(m.word) && u.consumerLock == m.consumerLock
  {
    LoadFull(c, m, w);
    assert WorkerHolds(m.workers[w]) && m.consumerLock == Some(Worker(w));
    hide Inv, PendingOf;
  }

  /** The publishing of a claim that needs no more slots. */
  lemma PublishClaimLast(c: Config, o: State, acts: seq<Action>, t: State, w: nat, m: State)
    requires Follows(c, o, acts, t) && w < |t.workers| && t.workers[w].Claim? && !WantsMore(t, t.workers[w])
    requires t.workers[w].base == |m.removed| && t.workers[w].seen == PendingOf(m.word) && t.written == m.written
    requires Put(t) == 0 && |m.written| - |m.removed| == PendingOf(m.word) && |m.removed| <= |m.written|
    ensures var queue, batch, a := WrittenItems(m.written[|m.removed|..]), t.workers[w].batch, WorkerStep(w, Threw);
            && IsClaim(queue, |queue|, |batch|) && |batch| <= |queue| && batch == queue[..|batch|]
            && Enabled(c, t, a) && Follows(c, o, acts + [a], Next(c, t, a))
            && var u := Next(c, t, a);
               && |u.workers| == |t.workers| && IsStopping(u.word) == IsStopping(t.word)
               && u == t.(word := u.word, workers := t.workers[w := ReleaseC(|m.removed|, batch)])
  {
    hide Inv, Leads, PendingOf, IsStopping, WantsMore, Put, IsClaim;
    ClaimBatch(c, m, t, w);
    PublishReady(c, t, w);
    PublishWord(c, t, w);
    hide FetchAdd;
    assert Enabled(c, t, WorkerStep(w, Threw));
    RunOn(c, o, acts, t, WorkerStep(w, Threw));
  }

  lemma LoadFull(c: Config, m: State, w: nat)
    requires Inv(c, m) && w < |m.workers| && m.workers[w].LoadC? && Put(m) == 0
    ensures |m.written| - |m.removed| == PendingOf(m.word)
    ensures PendingOf(m.word) > 0 ==> HeadItem(m).Some?
  {
    assert WorkerHolds(m.workers[w]) && m.consumerLock == Some(Worker(w));
    if PendingOf(m.word) > 0 { HeadFull(c, m); }
  }

  /** What has been taken is the claim that the queue before it allows. */
  lemma ClaimBatch(c: Config, m: State, t: State, w: nat)
    requires Inv(c, t) && w < |t.workers| && t.workers[w].Claim? && !WantsMore(t, t.workers[w])
    requires t.workers[w].base == |m.removed| && t.workers[w].seen == PendingOf(m.word) && t.written == m.written
    requires Put(t) == 0 && |m.written| - |m.removed| == PendingOf(m.word) && |m.removed| <= |m.written|
    ensures var queue, batch := WrittenItems(m.written[|m.removed|..]), t.workers[w].batch;
            IsClaim(queue, |queue|, |batch|) && |batch| <= |queue| && batch == queue[..|batch|]
  {
    ClaimIsPrefix(c, t, w);
    ClaimUnpublished(c, t, w);
    hide Inv, WantsMore, IsClaim;
    assert m.written[|m.removed|..|m.written|] == m.written[|m.removed|..];
  }

  lemma ExecuteOne(c: Config, m: State, w: nat, outcome: Outcome)
    requires Inv(c, m) && w < |m.workers| && m.workers[w].Run? && m.workers[w].next < |m.workers[w].batch|
    ensures var a, pc := WorkerStep(w, outcome), m.workers[w];
            && Enabled(c, m, a)
            && var u := Next(c, m, a);
               && |u.workers| == |m.workers| && |u.removed| == |m.removed|
               && u == m.(removed := u.removed, failed := u.failed,
                          workers := m.workers[w := Run(pc.base, pc.batch, pc.next + 1)])
               && u.failed == m.failed + Failure(pc.batch[pc.next], outcome)
  {
    RunReady(c, m, w);
    hide Inv, Failure;
  }

  /** Worker w has run the rest of its batch, with the given outcomes. */
  ghost predicate AllExecuted(m: State, t: State, w: nat, outcomes: seq<Outcome>) {
    && w < |m.workers| && m.workers[w].Run? && m.workers[w].next <= |m.workers[w].batch| == |outcomes|
    && |t.workers| == |m.workers|
    && var pc := m.workers[w];
       && t == m.(removed := t.removed, failed := t.failed, workers := m.workers[w := t.workers[w]])
       && t.workers[w] == Run(pc.base, pc.batch, |pc.batch|) && |t.removed| == |m.removed|
       && t.failed + Failures(pc.batch[..pc.next], outcomes[..pc.next]) == m.failed + Failures(pc.batch, outcomes)
  }

  lemma ExecutedBefore(m: State, u: State, t: State, w: nat, outcomes: seq<Outcome>)
    requires w < |m.workers| && m.workers[w].Run? && m.workers[w].next < |m.workers[w].batch| == |outcomes|
    requires var pc := m.workers[w];
             && |u.workers| == |m.workers| && |u.removed| == |m.removed|
             && u == m.(removed := u.removed, failed := u.failed,
                        workers := m.workers[w := Run(pc.base, pc.batch, pc.next + 1)])
             && u.failed == m.failed + Failure(pc.batch[pc.next], outcomes[pc.next])
    requires AllExecuted(u, t, w, outcomes)
    ensures AllExecuted(m, t, w, outcomes)
  {
    hide Failure;
    var pc := m.workers[w];
    assert pc.batch[..pc.next + 1][..pc.next] == pc.batch[..pc.next];
    assert outcomes[..pc.next + 1][..pc.next] == outcomes[..pc.next];
  }

  /** The rest of a batch: one callback after the other, with the given outcomes. */
  lemma {:induction false} Executes(c: Config, o: State, before: seq<Action>, m: State, w: nat, outcomes: seq<Outcome>)
    returns (acts: seq<Action>, t: State)
    requires Follows(c, o, before, m) && w < |m.workers| && m.workers[w].Run?
    requires m.workers[w].next <= |m.workers[w].batch| == |outcomes|
    ensures Follows(c, o, acts, t) && AllExecuted(m, t, w, outcomes)
    decreases |outcomes| - m.workers[w].next
  {
    var pc := m.workers[w];
    if pc.next == |pc.batch| {
      acts, t := before, m;
      assert m.workers[w := m.workers[w]] == m.workers;
      assert pc.batch[..pc.next] == pc.batch && outcomes[..pc.next] == outcomes;
    } else {
      var a := WorkerStep(w, outcomes[pc.next]);
      ExecuteOne(c, m, w, outcomes[pc.next]);
      RunOn(c, o, before, m, a);
      hide Follows, Next, Enabled, Failure, AllExecuted;
      acts, t := Executes(c, o, before + [a], Next(c, m, a), w, outcomes);
      ExecutedBefore(m, Next(c, m, a), t, w, outcomes);
    }
  }

  /** A claimed batch from its first callback to its release. */
  lemma BatchRun(c: Config, m: State, w: nat, outcomes: seq<Outcome>) returns (acts: seq<Action>, t: State)
    requires Inv(c, m) && w < |m.workers| && m.workers[w].Run? && m.workers[w].next == 0
    requires |outcomes| == |m.workers[w].batch|
    ensures Follows(c, m, acts, t) && |t.workers| == |m.workers|
    ensures t == m.(removed := t.removed, failed := t.failed, word := t.word, workers := m.workers[w := t.workers[w]])
    ensures |t.removed| == |m.removed| && t.failed == m.failed + Failures(m.workers[w].batch, outcomes)
    ensures PendingOf(t.word) == PendingOf(m.word) && IsStopping(t.word) == IsStopping(m.word)
    ensures Sum(Held, t.workers) + |outcomes| == Sum(Held, m.workers)
    ensures t.workers[w] == if LooksIdle(t.word) then NotifyTest else Top
  {
    hide Inv, Leads, Enabled, Next, PendingOf, IsStopping, LooksIdle;
    RunNowhere(c, m);
    hide Follows;
    acts, t := Executes(c, m, [], m, w, outcomes);
    SumUpdate(Held, m.workers, w, t.workers[w]);
    hide Sum;
    FinishLast(c, m, acts, t, w);
    assert m.workers[w].batch[..0] == [] && outcomes[..0] == [];
    acts := acts + [WorkerStep(w, Threw)];
    t := Next(c, t, WorkerStep(w, Threw));
  }

  lemma FinishLast(c: Config, o: State, acts: seq<Action>, t: State, w: nat)
    requires Follows(c, o, acts, t) && w < |t.workers| && t.workers[w].Run? && t.workers[w].next == |t.workers[w].batch|
    ensures var a := WorkerStep(w, Threw);
            && Enabled(c, t, a) && Follows(c, o, acts + [a], Next(c, t, a))
            && var u := Next(c, t, a);
               && |u.workers| == |t.workers| && u == t.(word := u.word, workers := t.workers[w := u.workers[w]])
               && PendingOf(u.word) == PendingOf(t.word) && IsStopping(u.word) == IsStopping(t.word)
               && Sum(Held, u.workers) + |t.workers[w].batch| == Sum(Held, t.workers)
               && u.workers[w] == if LooksIdle(u.word) then NotifyTest else Top
  {
    hide Inv, Leads, PendingOf, IsStopping, LooksIdle, Sum;
    FinishWord(c, t, w);
    FinishNotifies(c, t, w);
    hide FetchSub, Encode;
    RunOn(c, o, acts, t, WorkerStep(w, Threw));
  }

  lemma FinishNotifies(c: Config, s: State, w: nat)
    requires Inv(c, s) && w < |s.workers| && s.workers[w].Run?
    ensures FinishTasks(s, w).workers[w] == if LooksIdle(FinishTasks(s, w).word) then NotifyTest else Top
  {
    assert WorkerOk(c, s.word, s.written, s.removed, w, s.workers[w]);
    SumAtLeast(Held, s.workers, w);
    FinisherTest(PendingOf(s.word), Sum(Held, s.workers), IsStopping(s.word), |s.workers[w].batch|);
  }

  // ------------------------------------------------------------ cancellation runs

  lemma CancelNext(c: Config, m: State, i: nat)
    requires Inv(c, m) && i < |m.clients| && m.clients[i].Cancel? && m.clients[i].left > 0
    ensures |m.removed| < |m.written|
    ensures var a, pc := ClientStep(i, Wait), m.clients[i];
            && Enabled(c, m, a)
            && var u := Next(c, m, a);
               && u == m.(slots := u.slots, head := u.head, removed := u.removed, cancelled := u.cancelled,
                          clients := m.clients[i := Cancel(pc.closing, pc.total, pc.left - 1)])
               && |u.removed| == |m.removed| + 1
               && u.cancelled == m.cancelled + Untracked(m.written[|m.removed|].item)
  {
    CancelReady(c, m, i);
    hide Inv;
  }

  /** Canceller i has settled every task that was left. */
  ghost predicate AllCancelled(m: State, t: State, i: nat) {
    && i < |m.clients| && m.clients[i].Cancel? && |t.clients| == |m.clients|
    && t == m.(slots := t.slots, head := t.head, removed := t.removed, cancelled := t.cancelled,
               clients := m.clients[i := t.clients[i]])
    && t.clients[i] == Cancel(m.clients[i].closing, m.clients[i].total, 0)
    && |t.removed| == |m.written| && |m.removed| <= |m.written|
    && t.cancelled == m.cancelled + Sum(Untracked, WrittenItems(m.written[|m.removed|..]))
  }

  lemma SettledBefore(m: State, u: State, t: State, i: nat)
    requires i < |m.clients| && m.clients[i].Cancel? && m.clients[i].left > 0 && |m.removed| < |m.written|
    requires var pc := m.clients[i];
             && u == m.(slots := u.slots, head := u.head, removed := u.removed, cancelled := u.cancelled,
                        clients := m.clients[i := Cancel(pc.closing, pc.total, pc.left - 1)])
             && |u.removed| == |m.removed| + 1
             && u.cancelled == m.cancelled + Untracked(m.written[|m.removed|].item)
    requires AllCancelled(u, t, i)
    ensures AllCancelled(m, t, i)
  {
    hide Untracked, Sum;
    var x, rest := m.written[|m.removed|].item, WrittenItems(m.written[|u.removed|..]);
    assert WrittenItems(m.written[|m.removed|..]) == [x] + rest;
    SumPrepend(Untracked, x, rest);
  }

  /** All tasks that canceller i has still to settle. */
  lemma {:induction false} Cancels(c: Config, o: State, before: seq<Action>, m: State, i: nat)
    returns (acts: seq<Action>, t: State)
    requires Follows(c, o, before, m) && i < |m.clients| && m.clients[i].Cancel?
    ensures Follows(c, o, acts, t) && AllCancelled(m, t, i)
    decreases m.clients[i].left
  {
    CancelReady(c, m, i);
    if m.clients[i].left == 0 {
      acts, t := before, m;
      assert |m.removed| == |m.written| by { hide CanCancel, ThreadsOk, FatesOk, WaitOk; }
      assert m.clients[i := m.clients[i]] == m.clients && WrittenItems(m.written[|m.removed|..]) == [];
    } else {
      var a := ClientStep(i, Wait);
      CancelNext(c, m, i);
      RunOn(c, o, before, m, a);
      hide Follows, Next, Enabled, AllCancelled;
      acts, t := Cancels(c, o, before + [a], Next(c, m, a), i);
      SettledBefore(m, Next(c, m, a), t, i);
    }
  }

  lemma {:induction false} SumPrepend(weight: Item -> nat, x: Item, xs: seq<Item>)
    ensures Sum(weight, [x] + xs) == weight(x) + Sum(weight, xs)
    decreases |xs|
  {
    var all := [x] + xs;
    if |xs| == 0 {
      assert all[..0] == [];
    } else {
      SumPrepend(weight, x, xs[..|xs| - 1]);
      assert all[..|all| - 1] == [x] + xs[..|xs| - 1];
    }
  }

  lemma EmptyRing(c: Config, s: State)
    requires Inv(c, s) && |s.removed| == |s.written|
    ensures s.head == s.tail
  {
  }

  /** A cancellation under both locks, from the load to the subtraction. */
  lemma CancelRun(c: Config, m: State, i: nat) returns (acts: seq<Action>, t: State)
    requires Inv(c, m) && i < |m.clients| && m.clients[i].LoadBoth?
    ensures Follows(c, m, acts, t) && |t.clients| == |m.clients|
    ensures t == m.(slots := t.slots, head := t.head, tail := t.tail, removed := t.removed, word := t.word,
                    cancelled := t.cancelled, clients := m.clients[i := t.clients[i]])
    ensures |t.removed| == |m.written| && t.tail == t.head == m.tail && PendingOf(t.word) == 0
    ensures IsStopping(t.word) == IsStopping(m.word)
    ensures |m.removed| <= |m.written| &&
            t.cancelled == m.cancelled + Sum(Untracked, WrittenItems(m.written[|m.removed|..]))
    ensures t.clients[i] == if PendingOf(m.word) == 0 then ReleaseBoth(m.clients[i].closing)
                            else LoadActive(m.clients[i].closing)
  {
    hide Inv, Leads, Enabled, Next, PendingOf, IsStopping, Sum;
    var a := ClientStep(i, Wait);
    LoadCanceller(c, m, i);
    RunNowhere(c, m);
    RunOn(c, m, [], m, a);
    hide Follows;
    acts, t := Cancels(c, m, [] + [a], Next(c, m, a), i);
    CancelLast(c, m, acts, t, i);
    acts := acts + [a];
    t := Next(c, t, a);
  }

  lemma LoadCanceller(c: Config, m: State, i: nat)
    requires Inv(c, m) && i < |m.clients| && m.clients[i].LoadBoth?
    ensures var a, n := ClientStep(i, Wait), PendingOf(m.word);
            && Enabled(c, m, a)
            && Next(c, m, a) == m.(clients := m.clients[i := Cancel(m.clients[i].closing, n, n)])
  {
    hide Inv, PendingOf;
  }

  lemma CancelLast(c: Config, o: State, acts: seq<Action>, t: State, i: nat)
    requires Follows(c, o, acts, t) && i < |t.clients| && t.clients[i].Cancel? && t.clients[i].left == 0
    requires |t.removed| == |t.written|
    ensures var a, pc := ClientStep(i, Wait), t.clients[i];
            && Enabled(c, t, a) && Follows(c, o, acts + [a], Next(c, t, a))
            && var u := Next(c, t, a);
               && u == t.(word := u.word, clients := t.clients[i := u.clients[i]]) && u.tail == u.head
               && PendingOf(u.word) == 0 && IsStopping(u.word) == IsStopping(t.word)
               && u.clients[i] == if pc.total == 0 then ReleaseBoth(pc.closing) else LoadActive(pc.closing)
  {
    hide Inv, Leads, PendingOf, IsStopping;
    CancelDoneWord(c, t, i);
    EmptyRing(c, t);
    hide FetchSub, Encode;
    RunOn(c, o, acts, t, ClientStep(i, Wait));
  }
}
