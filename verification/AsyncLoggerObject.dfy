/** The asynchronous logger as an object: every critical section and the worker loop
    as methods, each proved to take exactly the steps of the step system. */
module AsyncLoggerObject {
  import opened Common
  import opened Errors
  import opened TextRecord
  import opened SinkList
  import opened AsyncLogger
  import opened AsyncLoggerTheorems

  lemma {:induction false} LeadsOn(c: Config, s: State, xs: seq<Action>, m: State, a: Action)
    requires Leads(c, s, xs, m) && Enabled(m, a)
    ensures Leads(c, s, xs + [a], Next(c, m, a))
    decreases |xs|
  {
    hide Enabled, Next;
    var all := xs + [a];
    if |xs| == 0 {
      assert all[1..] == [];
      assert Leads(c, Next(c, m, a), [], Next(c, m, a));
    } else {
      assert all[1..] == xs[1..] + [a];
      LeadsOn(c, Next(c, s, xs[0]), xs[1..], m, a);
    }
  }

  /** What another thread does while the worker is between two of its steps. */
  datatype Turn = Turn(thread: nat, request: Request)

  class AsyncLog {
    const accepts: Level -> bool
    const sinks: Sinks
    const backend: Logger
    var queue: seq<Entry>
    var stopping: bool
    var batchActive: bool
    var failedRecords: nat
    var shutdownHolder: Option<nat>
    /** The publishing threads, including those that wait on a condition. */
    var threads: seq<ClientPc>
    ghost var started: seq<Entry>
    ghost var published: seq<Entry>
    ghost var refused: seq<Entry>
    ghost var accepted: seq<Entry>
    ghost var delivered: seq<Entry>
    ghost var outcomes: seq<Outcome>

    ghost predicate Valid()
      reads this, backend
    {
      backend.Valid() && backend.accepts == accepts && backend.sinks == sinks
    }

    ghost function Configuration(): Config { Config(accepts, sinks) }

    /** The state of the step system when the worker is at the given point. */
    ghost function At(w: WorkerPc): State
      reads this, backend
    {
      State(queue, stopping, batchActive, failedRecords, shutdownHolder, w, threads,
            backend.slots, backend.calls, started, published, refused, accepted, delivered, outcomes)
    }

    constructor (accepts: Level -> bool, sinks: Sinks, initial: seq<nat>, clients: nat)
      ensures Valid() && fresh(backend) && Configuration() == Config(accepts, sinks)
      ensures var attached := seq(|initial|, k requires 0 <= k < |initial| => Attach(initial[k]));
              At(Test) == Init(ChangedAll([], attached), clients)
    {
      this.accepts, this.sinks := accepts, sinks;
      backend := new Logger(accepts, sinks, initial);
      queue, stopping, batchActive, failedRecords, shutdownHolder := [], false, false, 0, None;
      threads := seq(clients, i => Idle);
      started, published, refused, accepted, delivered, outcomes := [], [], [], [], [], [];
    }

    // ------------------------------------------------------------------- clients

    /** The critical section of `enqueue`, for a thread that passed the filter. No
        result means that the thread waits for space. */
    method EnqueueSection(i: nat, e: Entry, w: WorkerPc) returns (v: WorkerPc, result: Option<bool>)
      requires Valid() && i < |threads| && threads[i] == Enqueue(e)
      modifies this
      ensures Valid() && At(v) == ClientNext(Configuration(), old(At(w)), i, CallFlush)
      ensures result == Some(true) <==> accepted == old(accepted) + [e] && queue == old(queue) + [e]
      ensures result == Some(false) <==> stopping
    {
      if !stopping && |queue| >= QUEUE_CAPACITY {
        threads := threads[i := AwaitSpace(e)];
        return w, None;
      }
      threads := threads[i := Idle];
      if stopping {
        refused := refused + [e];
        return w, Some(false);
      }
      queue := queue + [e];
      accepted, published := accepted + [e], published + [e];
      return WokenWorker(w), Some(true);
    }

    /** The test of `flush`. */
    method FlushSection(i: nat, ghost w: WorkerPc)
      requires Valid() && i < |threads| && threads[i] == Flush
      modifies this
      ensures Valid() && At(w) == ClientNext(Configuration(), old(At(w)), i, CallFlush)
    {
      threads := threads[i := if queue == [] && !batchActive then Idle else AwaitDrain];
    }

    /** The critical section of `shutdown`. */
    method StopSection(i: nat, w: WorkerPc) returns (v: WorkerPc)
      requires Valid() && i < |threads| && threads[i] == Stop
      modifies this
      ensures Valid() && At(v) == ClientNext(Configuration(), old(At(w)), i, CallFlush)
    {
      stopping := true;
      v := WokenWorker(w);
      threads := Notified(threads, true, false)[i := Joining];
    }

    /** A new call by an idle thread. */
    method BeginCall(i: nat, request: Request, ghost w: WorkerPc)
      requires Valid() && i < |threads| && threads[i] == Idle
      modifies this, backend
      ensures Valid() && At(w) == ClientNext(Configuration(), old(At(w)), i, request)
    {
      match request {
        case Write(e) =>
          started := started + [e];
          if accepts(e.level) { threads := threads[i := Enqueue(e)]; } else { published := published + [e]; }
        case CallFlush => threads := threads[i := Flush];
        case CallShutdown => threads := threads[i := WantShutdown];
        case ChangeSinks(change) => var changed := backend.Change(change);
      }
    }

    /** The next step of a thread; one that waits on a condition wakes up spuriously. */
    method TakeTurn(turn: Turn, w: WorkerPc) returns (v: WorkerPc, ghost acts: seq<Action>)
      requires Valid()
      modifies this, backend
      ensures Valid() && (v == w || v == WokenWorker(w))
      ensures acts == [] ==> At(v) == old(At(w))
      ensures acts != [] ==> |acts| == 1 && Enabled(old(At(w)), acts[0]) && !acts[0].WorkerStep?
                             && At(v) == Next(Configuration(), old(At(w)), acts[0])
    {
      var i := turn.thread;
      v, acts := w, [];
      if i >= |threads| { return; }
      ghost var act := ClientStep(i, turn.request);
      var pc := threads[i];
      if pc.AwaitSpace? || pc.AwaitDrain? {
        act := WakeClient(i);
        threads := threads[i := WokenClient(pc, true, true)];
      } else if pc.Idle? {
        BeginCall(i, turn.request, w);
      } else if pc.Enqueue? {
        var result;
        v, result := EnqueueSection(i, pc.e, w);
      } else if pc.Flush? {
        FlushSection(i, w);
      } else if pc.Stop? {
        v := StopSection(i, w);
      } else if pc.WantShutdown? {
        if shutdownHolder != None { return; }
        threads, shutdownHolder := threads[i := Stop], Some(i);
      } else {
        if !w.Done? { return; }
        threads, shutdownHolder := threads[i := Idle], None;
      }
      acts := [act];
    }

    /** Other threads take turns; the run of the step system so far is extended by them. */
    method Interfere(turns: seq<Turn>, w: WorkerPc, ghost start: State, ghost before: seq<Action>)
      returns (v: WorkerPc, ghost acts: seq<Action>)
      requires Valid() && Leads(Configuration(), start, before, At(w))
      modifies this, backend
      ensures Valid() && Leads(Configuration(), start, acts, At(v)) && (v == w || v == WokenWorker(w))
    {
      hide Enabled, Next;
      v, acts := w, before;
      for k := 0 to |turns|
        invariant Valid() && Leads(Configuration(), start, acts, At(v)) && (v == w || v == WokenWorker(w))
      {
        ghost var here, more := At(v), [];
        v, more := TakeTurn(turns[k], v);
        if more != [] {
          LeadsOn(Configuration(), start, acts, here, more[0]);
          acts := acts + [more[0]];
        }
      }
    }

    // -------------------------------------------------------------------- worker

    /** The first critical section of `run`: sleep, exit, or swap the buffers. */
    method TakeBatch() returns (w: WorkerPc)
      requires Valid()
      modifies this
      ensures Valid() && At(w) == WorkerNext(Configuration(), old(At(Test)))
    {
      if queue == [] && !stopping { return Asleep; }
      if queue == [] {
        threads := Notified(threads, false, true);
        return Done;
      }
      w := Deliver(queue, 0);
      queue := [];
      batchActive := true;
      threads := Notified(threads, true, false);
    }

    /** One record of the batch: a refusal or an exception counts as a failure. */
    method DeliverRecord(batch: seq<Entry>, k: nat)
      requires Valid() && k < |batch|
      modifies this, backend
      ensures Valid() && At(Deliver(batch, k + 1)) == WorkerNext(Configuration(), old(At(Deliver(batch, k))))
    {
      var outcome := backend.WriteEntry(batch[k], []);
      if outcome.Threw? || !outcome.accepted {
        failedRecords := failedRecords + 1;
      }
      delivered, outcomes := delivered + [batch[k]], outcomes + [outcome];
    }

    /** The second critical section of `run`. */
    method FinishBatch(batch: seq<Entry>)
      requires Valid()
      modifies this
      ensures Valid() && At(Test) == WorkerNext(Configuration(), old(At(Deliver(batch, |batch|))))
    {
      batchActive := false;
      if queue == [] { threads := Notified(threads, false, true); }
    }

    /** The delivery loop, with other threads running before every record. */
    method DeliverBatch(batch: seq<Entry>, during: nat -> seq<Turn>, ghost start: State, ghost before: seq<Action>)
      returns (ghost acts: seq<Action>)
      requires Valid() && Leads(Configuration(), start, before, At(Deliver(batch, 0)))
      modifies this, backend
      ensures Valid() && Leads(Configuration(), start, acts, At(Deliver(batch, |batch|)))
    {
      hide Leads, WorkerNext;
      acts := before;
      var k := 0;
      while k < |batch|
        invariant k <= |batch| && Valid()
        invariant Leads(Configuration(), start, acts, At(Deliver(batch, k)))
      {
        var w;
        w, acts := Interfere(during(k), Deliver(batch, k), start, acts);
        LeadsOn(Configuration(), start, acts, At(Deliver(batch, k)), WorkerStep);
        acts := acts + [WorkerStep];
        DeliverRecord(batch, k);
        k := k + 1;
      }
    }

    /** One turn of the worker loop: a critical section and, if it yielded a batch,
        the delivery of the batch and the critical section behind it. */
    method RunOnce(during: nat -> seq<Turn>, ghost start: State, ghost before: seq<Action>)
      returns (w: WorkerPc, ghost acts: seq<Action>)
      requires Valid() && Leads(Configuration(), start, before, At(Test))
      modifies this, backend
      ensures Valid() && Leads(Configuration(), start, acts, At(w)) && !w.Deliver?
    {
      hide Leads;
      LeadsOn(Configuration(), start, before, At(Test), WorkerStep);
      acts := before + [WorkerStep];
      w := TakeBatch();
      if w.Deliver? {
        acts := DeliverBatch(w.batch, during, start, acts);
        LeadsOn(Configuration(), start, acts, At(Deliver(w.batch, |w.batch|)), WorkerStep);
        acts := acts + [WorkerStep];
        FinishBatch(w.batch);
        w := Test;
      }
    }

    /** The worker loop, for as long as the observed schedule of other threads lasts. */
    method Run(rounds: nat, between: nat -> seq<Turn>, during: nat -> nat -> seq<Turn>)
      returns (w: WorkerPc, ghost acts: seq<Action>)
      requires Valid()
      modifies this, backend
      ensures Valid() && Leads(Configuration(), old(At(Test)), acts, At(w))
    {
      hide Leads, WorkerNext;
      ghost var start := At(Test);
      w, acts := Test, [];
      LeadsNowhere(Configuration(), start);
      var round := 0;
      while round < rounds && w != Done
        invariant Valid() && Leads(Configuration(), start, acts, At(w)) && !w.Deliver?
        decreases rounds - round
      {
        w, acts := Interfere(between(round), w, start, acts);
        if w.Test? {
          w, acts := RunOnce(during(round), start, acts);
        }
        round := round + 1;
      }
    }
  }

  lemma LeadsNowhere(c: Config, s: State)
    ensures Leads(c, s, [], s)
  {
  }

  /** A new logger, its worker loop and any schedule of publishing, flushing, attaching
      and stopping threads. When the loop exits every accepted record has been
      delivered; if the list was left alone, the sinks have been called exactly as by
      the synchronous logger on everything published. */
  method RunLogger(accepts: Level -> bool, sinks: Sinks, initial: seq<nat>, clients: nat,
      rounds: nat, between: nat -> seq<Turn>, during: nat -> nat -> seq<Turn>)
    returns (log: AsyncLog, w: WorkerPc, ghost acts: seq<Action>)
    ensures log.backend.Valid()
    ensures log.failedRecords == Failures(log.outcomes) && |log.outcomes| == |log.delivered| <= |log.accepted|
    ensures w.Done? ==> log.delivered == log.accepted == Filtered(accepts, log.published)
    ensures w.Done? && FixedList(acts) ==>
              var slots := ChangedAll([], seq(|initial|, k requires 0 <= k < |initial| => Attach(initial[k])));
              var y := SyncRun(Config(accepts, sinks), slots, log.published);
              log.backend.calls == y.calls && log.backend.slots == y.slots && log.failedRecords == Failures(y.outcomes)
  {
    hide Leads, Filtered, Failures, SyncRun, ChangedAll;
    log := new AsyncLog(accepts, sinks, initial, clients);
    w, acts := log.Run(rounds, between, during);
    ghost var c := Config(accepts, sinks);
    ghost var slots := ChangedAll([], seq(|initial|, k requires 0 <= k < |initial| => Attach(initial[k])));
    ReachedInv(c, slots, clients, acts, log.At(w));
    if FixedList(acts) {
      AsyncRefinesSync(c, slots, clients, acts, log.At(w));
    }
  }
}
