/** What a thread of the asynchronous logger was asked to do, and what its call has come
    to: the latest call of every thread is read off the run. */
module AsyncLoggerCalls {
  import opened Common
  import opened Errors
  import opened TextRecord
  import opened SinkList
  import opened AsyncLogger
  import opened AsyncLoggerTheorems

  /** A request and the state in which it was made. */
  datatype Made = Made(request: Request, start: State)

  type Calls = seq<Option<Made>>

  function CallsAfter(s: State, calls: Calls, a: Action): Calls
    requires Enabled(s, a) && |calls| == |s.clients|
  {
    if a.ClientStep? && s.clients[a.i].Idle? then calls[a.i := Some(Made(a.request, s))] else calls
  }

  ghost function CallsOf(c: Config, s: State, calls: Calls, acts: seq<Action>): Calls
    decreases |acts|
  {
    if |acts| == 0 || !Enabled(s, acts[0]) || |calls| != |s.clients| then calls
    else CallsOf(c, Next(c, s, acts[0]), CallsAfter(s, calls, acts[0]), acts[1..])
  }

  /** The record is among those added to a history since the call. */
  ghost predicate Since(before: seq<Entry>, now: seq<Entry>, e: Entry) {
    before <= now && exists k :: |before| <= k < |now| && now[k] == e
  }

  /** What a call that has returned has done, for good. */
  ghost predicate Answered(c: Config, s: State, call: Made) {
    match call.request
    case Write(e) =>
      || (&& Since(call.start.published, s.published, e)
          && (c.accepts(e.level) ==> Since(call.start.accepted, s.accepted, e)))
      || (Since(call.start.refused, s.refused, e) && s.stopping && c.accepts(e.level))
    case CallFlush => call.start.accepted <= s.delivered
    case CallShutdown => s.stopping && s.worker.Done?
    case ChangeSinks(_) => true
  }

  /** A call in progress is at a point of its own operation, with its own record. */
  predicate Serves(pc: ClientPc, r: Request) {
    match pc
    case Idle => true
    case Enqueue(e) => r == Write(e)
    case AwaitSpace(e) => r == Write(e)
    case Flush => r == CallFlush
    case AwaitDrain => r == CallFlush
    case _ => r == CallShutdown
  }

  /** The histories grow only, and the logger stops and its worker exits for good. */
  ghost predicate Onward(s: State, t: State) {
    && s.published <= t.published && s.refused <= t.refused && s.accepted <= t.accepted && s.delivered <= t.delivered
    && (s.stopping ==> t.stopping) && (s.worker.Done? ==> t.worker.Done?)
  }

  ghost predicate CallOk(c: Config, s: State, pc: ClientPc, call: Option<Made>) {
    && (call.None? ==> pc.Idle?)
    && (call.Some? ==>
          Onward(call.value.start, s) && Serves(pc, call.value.request) && (pc.Idle? ==> Answered(c, s, call.value)))
  }

  ghost predicate CallsKept(c: Config, s: State, calls: Calls) {
    |calls| == |s.clients| && forall i: nat :: i < |calls| ==> CallOk(c, s, s.clients[i], calls[i])
  }

  lemma StepOnward(c: Config, s: State, a: Action)
    requires Inv(c, s) && Enabled(s, a)
    ensures Onward(s, Next(c, s, a))
  {
    StepGrows(c, s, a);
    hide Inv, Publish, Changed;
  }

  lemma OthersKeep(c: Config, s: State, t: State, pc: ClientPc, space: bool, drain: bool, call: Option<Made>)
    requires Onward(s, t) && CallOk(c, s, pc, call)
    ensures CallOk(c, t, pc, call) && CallOk(c, t, WokenClient(pc, space, drain), call)
  {
  }

  /** The step of the thread that begins or serves the call. */
  lemma CallerKeeps(c: Config, s: State, i: nat, r: Request, call: Option<Made>)
    requires Inv(c, s) && ClientEnabled(s, i) && CallOk(c, s, s.clients[i], call)
    ensures var t := ClientNext(c, s, i, r);
            && |t.clients| == |s.clients|
            && CallOk(c, t, t.clients[i], if s.clients[i].Idle? then Some(Made(r, s)) else call)
  {
    var t := ClientNext(c, s, i, r);
    StepOnward(c, s, ClientStep(i, r));
    if s.clients[i].Idle? {
      BeginServes(c, s, i, r);
    } else if s.clients[i].Enqueue? {
      EnqueueServes(c, s, i, r, call.value);
    } else {
      OtherServes(c, s, i, r, call.value);
    }
    hide Inv, ClientNext, Onward, Answered;
    assert call.Some? && Onward(call.value.start, s) && Onward(s, t) ==> Onward(call.value.start, t) by {
      OnwardOn(if call.Some? then call.value.start else s, s, t);
    }
  }

  lemma OnwardOn(r: State, s: State, t: State)
    ensures Onward(r, s) && Onward(s, t) ==> Onward(r, t)
  {
  }

  lemma BeginServes(c: Config, s: State, i: nat, r: Request)
    requires ClientEnabled(s, i) && s.clients[i].Idle?
    ensures var t := ClientNext(c, s, i, r);
            && |t.clients| == |s.clients| && Serves(t.clients[i], r)
            && (t.clients[i].Idle? ==> Answered(c, t, Made(r, s)))
  {
    hide Changed;
    var t := ClientNext(c, s, i, r);
    if r.Write? && t.clients[i].Idle? { assert t.published[|s.published|] == r.e; }
  }

  lemma EnqueueServes(c: Config, s: State, i: nat, r: Request, call: Made)
    requires Inv(c, s) && ClientEnabled(s, i) && s.clients[i].Enqueue? && CallOk(c, s, s.clients[i], Some(call))
    ensures var t := ClientNext(c, s, i, r);
            && |t.clients| == |s.clients| && Serves(t.clients[i], call.request)
            && (t.clients[i].Idle? ==> Answered(c, t, call))
  {
    var t, e := ClientNext(c, s, i, r), s.clients[i].e;
    assert ClientOk(c, s, i);
    if s.stopping {
      assert t.refused[|s.refused|] == e;
    } else if t.clients[i].Idle? {
      assert t.published[|s.published|] == e && t.accepted[|s.accepted|] == e;
    }
    hide Inv;
  }

  lemma OtherServes(c: Config, s: State, i: nat, r: Request, call: Made)
    requires Inv(c, s) && ClientEnabled(s, i) && !s.clients[i].Idle? && !s.clients[i].Enqueue?
    requires CallOk(c, s, s.clients[i], Some(call))
    ensures var t := ClientNext(c, s, i, r);
            && |t.clients| == |s.clients| && Serves(t.clients[i], call.request)
            && (t.clients[i].Idle? ==> Answered(c, t, call))
  {
    assert ClientOk(c, s, i);
    hide Notified, HistoryOk, NoSleeperMissed;
  }

  lemma StepCalls(c: Config, s: State, calls: Calls, a: Action)
    requires Inv(c, s) && Enabled(s, a) && CallsKept(c, s, calls)
    ensures CallsKept(c, Next(c, s, a), CallsAfter(s, calls, a))
  {
    var t, after := Next(c, s, a), CallsAfter(s, calls, a);
    StepOnward(c, s, a);
    StepClients(c, s, a);
    hide Inv, CallOk, Onward, WorkerNext, ClientNext, ClientEnabled;
    forall i: nat | i < |after| ensures CallOk(c, t, t.clients[i], after[i]) {
      if a.ClientStep? && a.i == i {
        CallerKeeps(c, s, i, a.request, calls[i]);
      } else {
        OthersKeep(c, s, t, s.clients[i], true, false, calls[i]);
        OthersKeep(c, s, t, s.clients[i], false, true, calls[i]);
        OthersKeep(c, s, t, s.clients[i], true, true, calls[i]);
      }
    }
  }

  /** What a step does to the threads that do not take it: nothing, or it wakes them. */
  lemma StepClients(c: Config, s: State, a: Action)
    requires Enabled(s, a)
    ensures var t := Next(c, s, a);
            && |t.clients| == |s.clients|
            && forall i | 0 <= i < |s.clients| && !(a.ClientStep? && a.i == i) ::
                 || t.clients[i] == s.clients[i] || t.clients[i] == WokenClient(s.clients[i], true, false)
                 || t.clients[i] == WokenClient(s.clients[i], false, true)
                 || t.clients[i] == WokenClient(s.clients[i], true, true)
  {
    hide WokenClient;
    match a
    case WorkerStep => WorkerWakes(c, s);
    case ClientStep(i, r) => ClientOthers(c, s, i, r); hide ClientNext;
    case _ =>
  }

  lemma WorkerWakes(c: Config, s: State)
    requires WorkerEnabled(s)
    ensures var clients := WorkerNext(c, s).clients;
            || clients == s.clients || clients == Notified(s.clients, true, false)
            || clients == Notified(s.clients, false, true)
  {
    hide Publish, Notified;
  }

  lemma {:induction false} RunCalls(c: Config, s: State, calls: Calls, acts: seq<Action>, t: State)
    requires Inv(c, s) && CallsKept(c, s, calls) && Leads(c, s, acts, t)
    ensures Inv(c, t) && CallsKept(c, t, CallsOf(c, s, calls, acts))
    decreases |acts|
  {
    hide Inv, CallOk;
    if |acts| > 0 {
      StepCalls(c, s, calls, acts[0]);
      StepKeeps(c, s, acts[0]);
      RunCalls(c, Next(c, s, acts[0]), CallsAfter(s, calls, acts[0]), acts[1..], t);
    }
  }

  // ----------------------------------------------------------------- the promises

  /** The logger after any run from its start, with the latest call of every thread. */
  ghost predicate Reaches(c: Config, slots: seq<Slot>, clients: nat, acts: seq<Action>, s: State, calls: Calls) {
    && Leads(c, Init(slots, clients), acts, s)
    && calls == CallsOf(c, Init(slots, clients), seq(clients, i => None), acts)
  }

  lemma ReachedCalls(c: Config, slots: seq<Slot>, clients: nat, acts: seq<Action>, s: State, calls: Calls)
    requires Reaches(c, slots, clients, acts, s, calls)
    ensures Inv(c, s) && CallsKept(c, s, calls)
  {
    InitInv(c, slots, clients);
    RunCalls(c, Init(slots, clients), seq(clients, i => None), acts, s);
  }

  /** A call of `write` that has returned has published its own record, and queued it if
      it passes the filter, or the logger is stopping and it has refused it. */
  lemma WriteKeepsItsWord(c: Config, slots: seq<Slot>, clients: nat, acts: seq<Action>, s: State, calls: Calls,
      i: nat, e: Entry)
    requires Reaches(c, slots, clients, acts, s, calls) && i < |calls| && i < |s.clients| && s.clients[i].Idle?
    requires calls[i].Some? && calls[i].value.request == Write(e)
    ensures var start := calls[i].value.start;
            || (&& Since(start.published, s.published, e)
                && (c.accepts(e.level) ==> Since(start.accepted, s.accepted, e)))
            || (Since(start.refused, s.refused, e) && s.stopping && c.accepts(e.level))
  {
    ReachedCalls(c, slots, clients, acts, s, calls);
    assert CallOk(c, s, s.clients[i], calls[i]);
    hide Inv, CallsKept, Since;
  }

  /** When `flush` has returned, everything accepted before it was called is delivered. */
  lemma FlushKeepsItsWord(c: Config, slots: seq<Slot>, clients: nat, acts: seq<Action>, s: State, calls: Calls, i: nat)
    requires Reaches(c, slots, clients, acts, s, calls) && i < |calls| && i < |s.clients| && s.clients[i].Idle?
    requires calls[i].Some? && calls[i].value.request == CallFlush
    ensures calls[i].value.start.accepted <= s.delivered
  {
    ReachedCalls(c, slots, clients, acts, s, calls);
    assert CallOk(c, s, s.clients[i], calls[i]);
    hide Inv, CallsKept;
  }

  /** When `shutdown` has returned, the logger is stopping, its worker has exited and
      everything ever accepted is delivered. */
  lemma ShutdownKeepsItsWord(c: Config, slots: seq<Slot>, clients: nat, acts: seq<Action>, s: State, calls: Calls,
      i: nat)
    requires Reaches(c, slots, clients, acts, s, calls) && i < |calls| && i < |s.clients| && s.clients[i].Idle?
    requires calls[i].Some? && calls[i].value.request == CallShutdown
    ensures s.stopping && s.worker.Done? && s.delivered == s.accepted
  {
    ReachedCalls(c, slots, clients, acts, s, calls);
    assert CallOk(c, s, s.clients[i], calls[i]);
    hide CallsKept;
  }

  /** Attaching or detaching takes effect at once, on the named sink only. */
  lemma ChangeTakesEffect(c: Config, s: State, i: nat, change: Change, sink: nat)
    requires ClientEnabled(s, i) && s.clients[i].Idle?
    ensures var t := ClientNext(c, s, i, ChangeSinks(change));
            && (change == Attach(sink) || change == AttachOwned(Some(sink)) ==> Holds(t.slots, sink))
            && (change == Detach(sink) ==> !Holds(t.slots, sink))
            && (change != Attach(sink) && change != AttachOwned(Some(sink)) && change != Detach(sink) ==>
                  (Holds(t.slots, sink) <==> Holds(s.slots, sink)))
  {
    match change
    case Attach(x) => HoldsAppend(s.slots, Slot(x, false));
    case AttachOwned(owner) => if owner.Some? { HoldsAppend(s.slots, Slot(owner.value, true)); }
    case Detach(x) => WithoutIsExact(s.slots, x);
  }
}
