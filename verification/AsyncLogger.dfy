/** The asynchronous logger as a step system: any number of publishing, flushing,
    attaching and stopping threads and one background worker. A critical section of
    the logger's mutex is one step, and so is one delivery to the backend; waits on
    the three condition variables are explicit states. */
module AsyncLogger {
  import opened Common
  import opened Errors
  import opened TextRecord
  import opened SinkList

  const QUEUE_CAPACITY: nat := 1024

  /** The filtering policy and the callbacks of all sinks. */
  datatype Config = Config(accepts: Level -> bool, sinks: Sinks)

  datatype WorkerPc =
    | Test
    | Asleep
    | Deliver(batch: seq<Entry>, next: nat)
    | Done

  datatype ClientPc =
    | Idle
    | Enqueue(e: Entry)
    | AwaitSpace(e: Entry)
    | Flush
    | AwaitDrain
    | WantShutdown
    | Stop
    | Joining

  datatype State = State(
    queue: seq<Entry>,
    stopping: bool,
    batchActive: bool,
    failed: nat,
    shutdownLock: Option<nat>,
    worker: WorkerPc,
    clients: seq<ClientPc>,
    slots: seq<Slot>,
    calls: seq<Call>,
    // history: calls of write, and those that returned true or false
    started: seq<Entry>,
    published: seq<Entry>,
    refused: seq<Entry>,
    accepted: seq<Entry>,
    delivered: seq<Entry>,
    outcomes: seq<Outcome>)

  function Init(slots: seq<Slot>, clients: nat): State {
    State([], false, false, 0, None, Test, seq(clients, i => Idle), slots, [], [], [], [], [], [], [])
  }

  /** What an idle thread calls next. */
  datatype Request = Write(e: Entry) | CallFlush | CallShutdown | ChangeSinks(c: Change)

  /** A spurious wake-up may happen to any waiting thread at any time. */
  datatype Action =
    | WorkerStep
    | ClientStep(i: nat, request: Request)
    | WakeWorker
    | WakeClient(i: nat)

  function WokenClient(pc: ClientPc, space: bool, drain: bool): ClientPc {
    match pc
    case AwaitSpace(e) => if space then Enqueue(e) else pc
    case AwaitDrain => if drain then Flush else pc
    case _ => pc
  }

  /** `notify_all` on the space and drain conditions. */
  function Notified(pcs: seq<ClientPc>, space: bool, drain: bool): (r: seq<ClientPc>)
    ensures |r| == |pcs| && forall i :: 0 <= i < |pcs| ==> r[i] == WokenClient(pcs[i], space, drain)
  {
    seq(|pcs|, i requires 0 <= i < |pcs| => WokenClient(pcs[i], space, drain))
  }

  /** A notification on the record condition, on which only the worker waits. */
  function WokenWorker(w: WorkerPc): WorkerPc {
    if w.Asleep? then Test else w
  }

  function Fails(o: Outcome): nat {
    if o == Returned(true) then 0 else 1
  }

  // ------------------------------------------------------------------------ worker

  predicate WorkerEnabled(s: State) {
    !s.worker.Asleep? && !s.worker.Done?
  }

  function WorkerNext(c: Config, s: State): State
    requires WorkerEnabled(s)
  {
    match s.worker
    case Test =>
      if s.queue == [] && !s.stopping then s.(worker := Asleep)
      else if s.queue == [] then s.(worker := Done, clients := Notified(s.clients, false, true))
      else s.(worker := Deliver(s.queue, 0), queue := [], batchActive := true,
              clients := Notified(s.clients, true, false))
    case Deliver(batch, next) =>
      if next < |batch| then
        var d := Publish(c.accepts, c.sinks, s.calls, s.slots, batch[next]);
        s.(worker := Deliver(batch, next + 1), calls := d.calls, slots := d.slots,
           failed := s.failed + Fails(d.outcome),
           delivered := s.delivered + [batch[next]], outcomes := s.outcomes + [d.outcome])
      else
        s.(worker := Test, batchActive := false,
           clients := if s.queue == [] then Notified(s.clients, false, true) else s.clients)
  }

  // ----------------------------------------------------------------------- clients

  function SetClient(s: State, i: nat, pc: ClientPc): State
    requires i < |s.clients|
  {
    s.(clients := s.clients[i := pc])
  }

  predicate ClientEnabled(s: State, i: nat) {
    && i < |s.clients|
    && match s.clients[i]
       case AwaitSpace(_) => false
       case AwaitDrain => false
       case WantShutdown => s.shutdownLock == None
       case Joining => s.worker.Done?
       case _ => true
  }

  function Begin(c: Config, s: State, i: nat, request: Request): State
    requires i < |s.clients|
  {
    match request
    case Write(e) =>
      if c.accepts(e.level) then SetClient(s, i, Enqueue(e)).(started := s.started + [e])
      else s.(started := s.started + [e], published := s.published + [e])
    case CallFlush => SetClient(s, i, Flush)
    case CallShutdown => SetClient(s, i, WantShutdown)
    case ChangeSinks(change) => s.(slots := Changed(s.slots, change))
  }

  function ClientNext(c: Config, s: State, i: nat, request: Request): State
    requires ClientEnabled(s, i)
  {
    match s.clients[i]
    case Idle => Begin(c, s, i, request)
    case Enqueue(e) =>
      if s.stopping then SetClient(s, i, Idle).(refused := s.refused + [e])
      else if |s.queue| < QUEUE_CAPACITY then
        SetClient(s, i, Idle).(
          queue := s.queue + [e], worker := WokenWorker(s.worker),
          accepted := s.accepted + [e], published := s.published + [e])
      else SetClient(s, i, AwaitSpace(e))
    case Flush =>
      if s.queue == [] && !s.batchActive then SetClient(s, i, Idle) else SetClient(s, i, AwaitDrain)
    case WantShutdown => SetClient(s, i, Stop).(shutdownLock := Some(i))
    case Stop =>
      s.(stopping := true, worker := WokenWorker(s.worker),
         clients := Notified(s.clients, true, false)[i := Joining])
    case Joining => SetClient(s, i, Idle).(shutdownLock := None)
    case _ => s
  }

  predicate Enabled(s: State, a: Action) {
    match a
    case WorkerStep => WorkerEnabled(s)
    case ClientStep(i, _) => ClientEnabled(s, i)
    case WakeWorker => s.worker.Asleep?
    case WakeClient(i) => i < |s.clients| && (s.clients[i].AwaitSpace? || s.clients[i].AwaitDrain?)
  }

  function Next(c: Config, s: State, a: Action): State
    requires Enabled(s, a)
  {
    match a
    case WorkerStep => WorkerNext(c, s)
    case ClientStep(i, request) => ClientNext(c, s, i, request)
    case WakeWorker => s.(worker := Test)
    case WakeClient(i) => SetClient(s, i, WokenClient(s.clients[i], true, true))
  }

  ghost predicate Leads(c: Config, s: State, acts: seq<Action>, t: State)
    decreases |acts|
  {
    if |acts| == 0 then s == t else Enabled(s, acts[0]) && Leads(c, Next(c, s, acts[0]), acts[1..], t)
  }

  // --------------------------------------------------------------------- invariant

  /** What the worker has swapped out and not delivered yet. */
  function Undelivered(w: WorkerPc): seq<Entry> {
    if w.Deliver? && w.next <= |w.batch| then w.batch[w.next..] else []
  }

  function Failures(os: seq<Outcome>): nat {
    if |os| == 0 then 0 else Failures(os[..|os| - 1]) + Fails(os[|os| - 1])
  }

  function Filtered(accepts: Level -> bool, es: seq<Entry>): seq<Entry> {
    if |es| == 0 then []
    else Filtered(accepts, es[..|es| - 1]) + if accepts(es[|es| - 1].level) then [es[|es| - 1]] else []
  }

  /** Every accepted record is delivered, in the batch or in the queue, in order. */
  ghost predicate Conserved(s: State) {
    s.accepted == s.delivered + Undelivered(s.worker) + s.queue
  }

  predicate WorkerOk(s: State) {
    && |s.queue| <= QUEUE_CAPACITY
    && (s.batchActive <==> s.worker.Deliver?)
    && (s.worker.Deliver? ==> s.worker.next <= |s.worker.batch| <= QUEUE_CAPACITY)
    && (s.worker.Done? ==> s.stopping && s.queue == [])
  }

  ghost predicate HistoryOk(c: Config, s: State) {
    && |s.outcomes| == |s.delivered| && s.failed == Failures(s.outcomes)
    && s.accepted == Filtered(c.accepts, s.published)
  }

  /** Nobody sleeps on a condition that holds. */
  predicate NoSleeperMissed(s: State) {
    && (s.worker.Asleep? ==> !s.stopping && s.queue == [])
    && forall i :: 0 <= i < |s.clients| ==>
         && (s.clients[i].AwaitSpace? ==> !s.stopping && |s.queue| == QUEUE_CAPACITY)
         && (s.clients[i].AwaitDrain? ==> s.queue != [] || s.batchActive)
  }

  predicate ClientOk(c: Config, s: State, i: nat)
    requires i < |s.clients|
  {
    match s.clients[i]
    case Enqueue(e) => c.accepts(e.level)
    case AwaitSpace(e) => c.accepts(e.level)
    case Stop => s.shutdownLock == Some(i)
    case Joining => s.shutdownLock == Some(i) && s.stopping
    case _ => true
  }

  ghost predicate ClientsOk(c: Config, s: State) {
    forall i: nat :: i < |s.clients| ==> ClientOk(c, s, i)
  }

  ghost predicate Inv(c: Config, s: State) {
    Conserved(s) && WorkerOk(s) && HistoryOk(c, s) && NoSleeperMissed(s) && ClientsOk(c, s)
  }

  lemma InitInv(c: Config, slots: seq<Slot>, clients: nat)
    ensures Inv(c, Init(slots, clients))
  {
  }

  lemma WorkerKeepsRecords(c: Config, s: State)
    requires Inv(c, s) && WorkerEnabled(s)
    ensures Conserved(WorkerNext(c, s)) && WorkerOk(WorkerNext(c, s)) && HistoryOk(c, WorkerNext(c, s))
  {
    hide Publish, Fails, NoSleeperMissed, ClientsOk, Filtered;
    var t := WorkerNext(c, s);
    if s.worker.Deliver? && s.worker.next < |s.worker.batch| {
      var w := s.worker;
      assert w.batch[w.next..] == [w.batch[w.next]] + w.batch[w.next + 1..];
      assert t.outcomes[..|s.outcomes|] == s.outcomes;
    }
    assert Conserved(t);
  }

  lemma WorkerKeepsClients(c: Config, s: State)
    requires Inv(c, s) && WorkerEnabled(s)
    ensures NoSleeperMissed(WorkerNext(c, s)) && ClientsOk(c, WorkerNext(c, s))
  {
    hide Publish, Fails, Conserved, HistoryOk;
    var t := WorkerNext(c, s);
    forall i: nat | i < |t.clients| ensures ClientOk(c, t, i) {
      assert ClientOk(c, s, i);
    }
  }

  lemma FilteredPush(accepts: Level -> bool, es: seq<Entry>, e: Entry)
    ensures Filtered(accepts, es + [e]) ==
            if accepts(e.level) then Filtered(accepts, es) + [e] else Filtered(accepts, es)
  {
    assert (es + [e])[..|es|] == es;
  }

  /** All a client step can do to the records: nothing, drop a filtered one, accept one. */
  predicate RecordsChange(c: Config, s: State, t: State) {
    && t.delivered == s.delivered && t.outcomes == s.outcomes && t.failed == s.failed
    && t.batchActive == s.batchActive && (t.worker == s.worker || t.worker == WokenWorker(s.worker))
    && (s.stopping ==> t.stopping)
    && if t.published == s.published then t.queue == s.queue && t.accepted == s.accepted
       else
         && |t.published| == |s.published| + 1
         && var e := t.published[|s.published|];
            && t.published == s.published + [e]
            && if c.accepts(e.level)
               then !s.stopping && |s.queue| < QUEUE_CAPACITY && t.worker == WokenWorker(s.worker)
                    && t.queue == s.queue + [e] && t.accepted == s.accepted + [e]
               else t.queue == s.queue && t.accepted == s.accepted
  }

  lemma ClientStepOnRecords(c: Config, s: State, i: nat, request: Request)
    requires ClientEnabled(s, i) && ClientOk(c, s, i)
    ensures RecordsChange(c, s, ClientNext(c, s, i, request))
  {
    hide Changed;
  }

  lemma ChangeConserves(c: Config, s: State, t: State)
    requires Conserved(s) && RecordsChange(c, s, t)
    ensures Conserved(t)
  {
    assert Undelivered(t.worker) == Undelivered(s.worker);
    var front := s.delivered + Undelivered(s.worker);
    if t.queue != s.queue {
      assert front + (s.queue + [t.published[|s.published|]]) == (front + s.queue) + [t.published[|s.published|]];
    }
  }

  lemma ChangeKeepsHistory(c: Config, s: State, t: State)
    requires HistoryOk(c, s) && RecordsChange(c, s, t)
    ensures HistoryOk(c, t)
  {
    if t.published != s.published {
      FilteredPush(c.accepts, s.published, t.published[|s.published|]);
    }
    hide Filtered, Failures;
  }

  lemma ClientKeepsRecords(c: Config, s: State, i: nat, request: Request)
    requires Inv(c, s) && ClientEnabled(s, i)
    ensures var t := ClientNext(c, s, i, request); Conserved(t) && WorkerOk(t) && HistoryOk(c, t)
  {
    var t := ClientNext(c, s, i, request);
    assert ClientOk(c, s, i);
    ClientStepOnRecords(c, s, i, request);
    ChangeConserves(c, s, t);
    ChangeKeepsHistory(c, s, t);
    hide Conserved, HistoryOk, ClientsOk, NoSleeperMissed, ClientNext, ClientOk, Undelivered;
  }

  lemma EnqueueKeepsSleepers(c: Config, s: State, i: nat, request: Request)
    requires NoSleeperMissed(s) && WorkerOk(s) && ClientEnabled(s, i) && s.clients[i].Enqueue?
    ensures NoSleeperMissed(ClientNext(c, s, i, request))
  {
  }

  lemma StopKeepsSleepers(c: Config, s: State, i: nat, request: Request)
    requires NoSleeperMissed(s) && ClientEnabled(s, i) && s.clients[i].Stop?
    ensures NoSleeperMissed(ClientNext(c, s, i, request))
  {
  }

  lemma ClientKeepsSleepers(c: Config, s: State, i: nat, request: Request)
    requires Inv(c, s) && ClientEnabled(s, i)
    ensures NoSleeperMissed(ClientNext(c, s, i, request))
  {
    hide Conserved, HistoryOk, ClientsOk, Changed, Notified;
    if s.clients[i].Enqueue? {
      EnqueueKeepsSleepers(c, s, i, request);
    } else if s.clients[i].Stop? {
      StopKeepsSleepers(c, s, i, request);
    }
  }

  lemma ClientKeepsClients(c: Config, s: State, i: nat, request: Request)
    requires Inv(c, s) && ClientEnabled(s, i)
    ensures ClientsOk(c, ClientNext(c, s, i, request))
  {
    hide Conserved, HistoryOk, WorkerOk, NoSleeperMissed, Changed;
    var t := ClientNext(c, s, i, request);
    assert ClientOk(c, s, i);
    forall j: nat | j < |t.clients| ensures ClientOk(c, t, j) {
      assert ClientOk(c, s, j);
    }
  }

  lemma StepKeeps(c: Config, s: State, a: Action)
    requires Inv(c, s) && Enabled(s, a)
    ensures Inv(c, Next(c, s, a))
  {
    if a.WorkerStep? {
      hide Conserved, WorkerOk, HistoryOk, NoSleeperMissed, ClientsOk, WorkerNext;
      WorkerKeepsRecords(c, s);
      WorkerKeepsClients(c, s);
    } else if a.ClientStep? {
      hide Conserved, WorkerOk, HistoryOk, NoSleeperMissed, ClientsOk, ClientNext;
      ClientKeepsRecords(c, s, a.i, a.request);
      ClientKeepsSleepers(c, s, a.i, a.request);
      ClientKeepsClients(c, s, a.i, a.request);
    } else {
      var t := Next(c, s, a);
      forall j: nat | j < |t.clients| ensures ClientOk(c, t, j) {
        assert ClientOk(c, s, j);
      }
    }
  }

  lemma {:induction false} RunKeeps(c: Config, s: State, acts: seq<Action>, t: State)
    requires Inv(c, s) && Leads(c, s, acts, t)
    ensures Inv(c, t)
    decreases |acts|
  {
    hide Inv;
    if |acts| > 0 {
      StepKeeps(c, s, acts[0]);
      RunKeeps(c, Next(c, s, acts[0]), acts[1..], t);
    }
  }
}
