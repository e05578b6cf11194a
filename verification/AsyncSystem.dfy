/** The asynchronous error system: register operations run as tasks of the pool, each
    worker going through the handler's locks before its future is completed. */
module AsyncSystem {
  import opened Common
  import opened PackedState
  import opened Errors
  import opened Register
  import opened Routing
  import opened PoolMachine
  import opened PoolInvariant
  import opened PoolWorkerSteps
  import opened PoolClientSteps
  import opened PoolCompletion
  import L = LockedHandler

  /** `table[i]` is the operation captured by callback number i; callbacks beyond
      the table are unrelated tasks sharing the pool. */
  type Table = seq<Operation>

  predicate IsOperation(table: Table, x: Item) { x.callback < |table| }

  /** Pool and handler, and the results that futures were completed with, by ticket. */
  datatype System = System(pool: State, handler: L.State, start: Bank, answers: map<nat, OperationResult>)

  /** A step of the pool, or of worker w inside the handler. */
  datatype SysAction = PoolStep(a: Action) | HandlerStep(w: nat)

  function Launch(c: Config, b: Bank): System { System(Init(c), L.Init(b, c.workers), b, map[]) }

  /** Worker w is at a callback that is a register operation. */
  predicate Busy(table: Table, s: State, w: nat) {
    && w < |s.workers| && s.workers[w].Run? && s.workers[w].next < |s.workers[w].batch|
    && IsOperation(table, s.workers[w].batch[s.workers[w].next])
  }

  function CallOf(table: Table, s: State, w: nat): L.Call
    requires Busy(table, s, w)
  {
    L.Call(s.workers[w].base + s.workers[w].next, table[s.workers[w].batch[s.workers[w].next].callback])
  }

  function Move(table: Table, y: System, w: nat): L.Step
    requires Busy(table, y.pool, w) && w < |y.handler.callers|
  {
    if y.handler.callers[w].Away? then L.Begin(w, CallOf(table, y.pool, w)) else L.Proceed(w)
  }

  predicate Settles(table: Table, y: System, a: Action) { a.WorkerStep? && Busy(table, y.pool, a.w) }

  /** A future is completed only with the answer that its worker has got. */
  predicate SysEnabled(c: Config, table: Table, y: System, x: SysAction) {
    match x
    case HandlerStep(w) =>
      && Busy(table, y.pool, w) && w < |y.handler.callers|
      && !y.handler.callers[w].Answered? && L.Enabled(y.handler, Move(table, y, w))
    case PoolStep(a) =>
      && Enabled(c, y.pool, a)
      && (Settles(table, y, a) ==>
            && a.w < |y.handler.callers| && y.handler.callers[a.w].Answered?
            && a.outcome == Returned(y.handler.callers[a.w].result == Ok))
  }

  function SysNext(c: Config, table: Table, y: System, x: SysAction): System
    requires SysEnabled(c, table, y, x)
  {
    match x
    case HandlerStep(w) => y.(handler := L.Next(y.handler, Move(table, y, w)))
    case PoolStep(a) =>
      if Settles(table, y, a) then
        System(Next(c, y.pool, a), L.Next(y.handler, L.Return(a.w)), y.start,
               y.answers[CallOf(table, y.pool, a.w).ticket := y.handler.callers[a.w].result])
      else y.(pool := Next(c, y.pool, a))
  }

  ghost predicate SysLeads(c: Config, table: Table, y: System, acts: seq<SysAction>, z: System)
    decreases |acts|
  {
    if |acts| == 0 then y == z
    else SysEnabled(c, table, y, acts[0]) && SysLeads(c, table, SysNext(c, table, y, acts[0]), acts[1..], z)
  }

  // ----------------------------------------------------------------- invariant

  /** A worker inside the handler is there for the callback it is at. */
  ghost predicate CallersOk(table: Table, y: System) {
    && |y.handler.callers| == |y.pool.workers|
    && forall w: nat :: w < |y.handler.callers| && !y.handler.callers[w].Away? ==>
         Busy(table, y.pool, w) && y.handler.callers[w].call == CallOf(table, y.pool, w)
  }

  /** The caller has its place in a register's lock order. */
  predicate Engaged(p: L.Phase, ticket: nat) { !p.Away? && !p.Waiting? && p.call.ticket == ticket }

  ghost predicate Owned(y: System, ticket: nat) {
    || ticket in y.answers
    || exists w: nat :: w < |y.handler.callers| && Engaged(y.handler.callers[w], ticket)
  }

  /** Every place in a lock order belongs to a register operation that is answered or
      on its way, and no operation has two places. */
  ghost predicate LogsOk(table: Table, y: System) {
    && (forall k, i | 0 <= k < |y.handler.logs| && 0 <= i < |y.handler.logs[k]| ::
          && var call := y.handler.logs[k][i];
          && call.ticket < |y.pool.removed| && IsOperation(table, y.pool.removed[call.ticket].item)
          && call.op == table[y.pool.removed[call.ticket].item.callback]
          && Owned(y, call.ticket))
    && (forall k, i, l, j | 0 <= k < |y.handler.logs| && 0 <= i < |y.handler.logs[k]| &&
          0 <= l < |y.handler.logs| && 0 <= j < |y.handler.logs[l]| ::
          y.handler.logs[k][i].ticket == y.handler.logs[l][j].ticket ==> k == l && i == j)
  }

  /** Exactly the finished register operations are answered, each as its place says. */
  ghost predicate AnswersOk(table: Table, y: System) {
    && (forall t <- y.answers ::
          && t < |y.pool.removed| && IsOperation(table, y.pool.removed[t].item)
          && y.pool.removed[t].fate == Finished(Returned(y.answers[t] == Ok))
          && L.Correct(y.start, y.handler.logs, L.Call(t, table[y.pool.removed[t].item.callback]), y.answers[t]))
    && forall t: nat | t < |y.pool.removed| && IsOperation(table, y.pool.removed[t].item) ::
         y.pool.removed[t].fate.Finished? ==> t in y.answers
  }

  ghost predicate SysInv(c: Config, table: Table, y: System) {
    && Inv(c, y.pool) && L.Inv(y.start, y.handler)
    && CallersOk(table, y) && LogsOk(table, y) && AnswersOk(table, y)
  }

  lemma LaunchInv(c: Config, table: Table, b: Bank)
    requires ValidConfig(c)
    ensures SysInv(c, table, Launch(c, b))
  {
    InitInv(c);
    L.InitInv(b, c.workers);
  }

  /** A worker at a callback is the one its ticket is running on. */
  lemma BusyRuns(c: Config, table: Table, s: State, w: nat)
    requires Inv(c, s) && Busy(table, s, w)
    ensures var t := CallOf(table, s, w).ticket;
            && t < |s.removed|
            && s.removed[t] == Removed(s.workers[w].batch[s.workers[w].next], Running(w))
  {
    RunReady(c, s, w);
  }

  /** How one pool step changes the workers and the removal history. */
  lemma PoolChange(c: Config, table: Table, s: State, a: Action)
    requires Inv(c, s) && Enabled(c, s, a)
    ensures var t := Next(c, s, a);
            && |t.workers| == |s.workers| && |s.removed| <= |t.removed|
            && (forall v: nat :: v < |s.workers| && !(a.WorkerStep? && a.w == v) ==> t.workers[v] == s.workers[v])
            && (forall u :: |s.removed| <= u < |t.removed| ==> !t.removed[u].fate.Finished?)
            && (forall u :: 0 <= u < |s.removed| ==> t.removed[u].item == s.removed[u].item)
            && if a.WorkerStep? && s.workers[a.w].Run? && s.workers[a.w].next < |s.workers[a.w].batch| then
                 var ticket := s.workers[a.w].base + s.workers[a.w].next;
                 && ticket < |s.removed| && s.removed[ticket].fate == Running(a.w)
                 && s.removed[ticket].item == s.workers[a.w].batch[s.workers[a.w].next]
                 && t.removed == s.removed[ticket := Removed(s.removed[ticket].item, Finished(a.outcome))]
               else
                 s.removed <= t.removed
  {
    hide Inv;
    match a
    case WorkerStep(w, o) =>
      if s.workers[w].Run? {
        if s.workers[w].next < |s.workers[w].batch| { RunReady(c, s, w); }
      }
    case ClientStep(i, r) => ClientChange(c, s, i, r);
  }

  lemma ClientChange(c: Config, s: State, i: nat, r: Request)
    requires ClientEnabled(c, s, i, r)
    ensures var t := ClientNext(c, s, i, r);
            && t.workers == s.workers && s.removed <= t.removed
            && forall u :: |s.removed| <= u < |t.removed| ==> t.removed[u].fate.Cancelled?
  {
  }

  // -------------------------------------------------------------- handler steps

  /** What a handler step does to callers and logs. */
  lemma MoveShape(table: Table, y: System, w: nat)
    requires Busy(table, y.pool, w) && w < |y.handler.callers| && !y.handler.callers[w].Answered?
    requires L.Enabled(y.handler, Move(table, y, w))
    requires !y.handler.callers[w].Away? ==> y.handler.callers[w].call == CallOf(table, y.pool, w)
    ensures var h, g := y.handler, L.Next(y.handler, Move(table, y, w));
            && |g.callers| == |h.callers| && g.callers == h.callers[w := g.callers[w]] && !g.callers[w].Away?
            && g.callers[w].call == CallOf(table, y.pool, w) && |g.logs| == |h.logs|
            && if h.callers[w].Waiting? then
                 && h.callers[w].k < |h.logs| && !g.callers[w].Waiting?
                 && g.logs == h.logs[h.callers[w].k := h.logs[h.callers[w].k] + [CallOf(table, y.pool, w)]]
               else g.logs == h.logs && (h.callers[w].Away? || !g.callers[w].Waiting?)
  {
    hide Route, Decide, Apply;
  }

  lemma HandlerCallers(table: Table, y: System, z: System, w: nat)
    requires CallersOk(table, y) && z.pool == y.pool && Busy(table, y.pool, w) && w < |y.handler.callers|
    requires |z.handler.callers| == |y.handler.callers|
    requires z.handler.callers == y.handler.callers[w := z.handler.callers[w]] && !z.handler.callers[w].Away?
    requires z.handler.callers[w].call == CallOf(table, y.pool, w)
    ensures CallersOk(table, z)
  {
  }

  /** No earlier place is that of a call that still waits for its lock. */
  lemma FreshTicket(c: Config, table: Table, y: System, w: nat, k: nat, i: nat)
    requires SysInv(c, table, y) && w < |y.handler.callers| && y.handler.callers[w].Waiting?
    requires k < |y.handler.logs| && i < |y.handler.logs[k]|
    ensures y.handler.logs[k][i].ticket != y.handler.callers[w].call.ticket
  {
    var t := y.handler.callers[w].call.ticket;
    BusyRuns(c, table, y.pool, w);
    if y.handler.logs[k][i].ticket == t {
      assert Owned(y, t);
      if t !in y.answers {
        var v: nat :| v < |y.handler.callers| && Engaged(y.handler.callers[v], t);
        BusyRuns(c, table, y.pool, v);
      }
      assert false;
    }
  }

  lemma OwnedStays(y: System, z: System, w: nat, t: nat)
    requires Owned(y, t) && z.answers == y.answers && |z.handler.callers| == |y.handler.callers|
    requires w < |y.handler.callers| && z.handler.callers == y.handler.callers[w := z.handler.callers[w]]
    requires Engaged(y.handler.callers[w], t) ==> Engaged(z.handler.callers[w], t)
    ensures Owned(z, t)
  {
    if t !in y.answers {
      var v: nat :| v < |y.handler.callers| && Engaged(y.handler.callers[v], t);
      assert Engaged(z.handler.callers[v], t);
    }
  }

  lemma HandlerLogs(c: Config, table: Table, y: System, w: nat)
    requires SysInv(c, table, y) && SysEnabled(c, table, y, HandlerStep(w))
    ensures LogsOk(table, SysNext(c, table, y, HandlerStep(w)))
  {
    var z := SysNext(c, table, y, HandlerStep(w));
    var h, g := y.handler, z.handler;
    MoveShape(table, y, w);
    BusyRuns(c, table, y.pool, w);
    forall t: nat | Owned(y, t) ensures Owned(z, t) {
      OwnedStays(y, z, w, t);
    }
    if h.callers[w].Waiting? {
      var k, call := h.callers[w].k, CallOf(table, y.pool, w);
      assert Engaged(g.callers[w], call.ticket) && Owned(z, call.ticket);
      forall l: nat, j: nat | l < |h.logs| && j < |h.logs[l]| ensures h.logs[l][j].ticket != call.ticket {
        FreshTicket(c, table, y, w, l, j);
      }
    }
    hide Inv, L.Inv, Owned, SysNext, SysEnabled, Busy, AnswersOk, CallersOk;
    LogsExtend(table, y, z);
  }

  /** The logs are as before, or one of them has a new place for a running operation. */
  lemma LogsExtend(table: Table, y: System, z: System)
    requires LogsOk(table, y) && z.pool == y.pool && |z.handler.logs| == |y.handler.logs|
    requires forall t: nat | Owned(y, t) :: Owned(z, t)
    requires z.handler.logs == y.handler.logs || exists k: nat, call: L.Call ::
               && k < |y.handler.logs| && z.handler.logs == y.handler.logs[k := y.handler.logs[k] + [call]]
               && call.ticket < |y.pool.removed| && IsOperation(table, y.pool.removed[call.ticket].item)
               && call.op == table[y.pool.removed[call.ticket].item.callback] && Owned(z, call.ticket)
               && forall l: nat, j: nat | l < |y.handler.logs| && j < |y.handler.logs[l]| ::
                    y.handler.logs[l][j].ticket != call.ticket
    ensures LogsOk(table, z)
  {
  }

  lemma HandlerAnswers(c: Config, table: Table, y: System, w: nat)
    requires AnswersOk(table, y) && SysEnabled(c, table, y, HandlerStep(w))
    ensures AnswersOk(table, SysNext(c, table, y, HandlerStep(w)))
  {
    var z := SysNext(c, table, y, HandlerStep(w));
    L.StepGrows(y.handler, Move(table, y, w));
    forall t | t in z.answers
      ensures L.Correct(z.start, z.handler.logs,
                        L.Call(t, table[y.pool.removed[t].item.callback]), z.answers[t])
    {
      L.CorrectStays(y.start, y.handler, z.handler, L.Call(t, table[y.pool.removed[t].item.callback]), y.answers[t]);
    }
    hide L.Next, L.Correct, Move;
  }

  lemma HandlerKeeps(c: Config, table: Table, y: System, w: nat)
    requires SysInv(c, table, y) && SysEnabled(c, table, y, HandlerStep(w))
    ensures SysInv(c, table, SysNext(c, table, y, HandlerStep(w)))
  {
    var z := SysNext(c, table, y, HandlerStep(w));
    L.StepKeeps(y.start, y.handler, Move(table, y, w));
    MoveShape(table, y, w);
    HandlerCallers(table, y, z, w);
    HandlerLogs(c, table, y, w);
    HandlerAnswers(c, table, y, w);
    hide Inv, L.Inv, L.Next, Move, CallersOk, LogsOk, AnswersOk;
  }

  // ----------------------------------------------------------------- pool steps

  /** A pool step that completes no future of a register operation. */
  lemma OtherPoolKeeps(c: Config, table: Table, y: System, a: Action)
    requires SysInv(c, table, y) && SysEnabled(c, table, y, PoolStep(a)) && !Settles(table, y, a)
    ensures SysInv(c, table, SysNext(c, table, y, PoolStep(a)))
  {
    var z := SysNext(c, table, y, PoolStep(a));
    StepKeeps(c, y.pool, a);
    PoolChange(c, table, y.pool, a);
    hide Inv, L.Inv, Next, Enabled, L.Correct;
    OtherCallers(table, y, z, a);
    OtherRecords(table, y, z);
  }

  lemma OtherCallers(table: Table, y: System, z: System, a: Action)
    requires CallersOk(table, y) && !Settles(table, y, a) && z.handler == y.handler
    requires |z.pool.workers| == |y.pool.workers|
    requires forall v: nat :: v < |y.pool.workers| && !(a.WorkerStep? && a.w == v) ==>
               z.pool.workers[v] == y.pool.workers[v]
    ensures CallersOk(table, z)
  {
    forall w: nat | w < |z.handler.callers| && !z.handler.callers[w].Away?
      ensures Busy(table, z.pool, w) && z.handler.callers[w].call == CallOf(table, z.pool, w)
    {
      assert Busy(table, y.pool, w);
    }
  }

  /** Places and answers are those of register operations, which the step leaves alone. */
  lemma OtherRecords(table: Table, y: System, z: System)
    requires LogsOk(table, y) && AnswersOk(table, y)
    requires z.handler == y.handler && z.start == y.start && z.answers == y.answers
    requires |y.pool.removed| <= |z.pool.removed|
    requires forall u :: |y.pool.removed| <= u < |z.pool.removed| ==> !z.pool.removed[u].fate.Finished?
    requires forall u :: 0 <= u < |y.pool.removed| ==> z.pool.removed[u].item == y.pool.removed[u].item
    requires forall u :: 0 <= u < |y.pool.removed| && IsOperation(table, y.pool.removed[u].item) ==>
               z.pool.removed[u] == y.pool.removed[u]
    ensures LogsOk(table, z) && AnswersOk(table, z)
  {
    forall t: nat | Owned(y, t) ensures Owned(z, t) {
    }
    hide L.Correct, Engaged;
  }

  /** The pool step that completes the future of a register operation. */
  lemma SettleKeeps(c: Config, table: Table, y: System, a: Action)
    requires SysInv(c, table, y) && SysEnabled(c, table, y, PoolStep(a)) && Settles(table, y, a)
    ensures SysInv(c, table, SysNext(c, table, y, PoolStep(a)))
  {
    var z := SysNext(c, table, y, PoolStep(a));
    var w, call, result := a.w, CallOf(table, y.pool, a.w), y.handler.callers[a.w].result;
    StepKeeps(c, y.pool, a);
    PoolChange(c, table, y.pool, a);
    L.StepKeeps(y.start, y.handler, L.Return(w));
    assert L.CallerOk(y.start, y.handler, w);
    hide Inv, L.Inv, Next, Enabled, L.Correct, L.CallerOk, LogsOk, AnswersOk;
    SettleCallers(table, y, z, w);
    SettleRecords(table, y, z, w, call, result);
  }

  lemma SettleCallers(table: Table, y: System, z: System, w: nat)
    requires CallersOk(table, y) && w < |y.handler.callers|
    requires z.handler.callers == y.handler.callers[w := L.Away]
    requires |z.pool.workers| == |y.pool.workers|
    requires forall v: nat :: v < |y.pool.workers| && v != w ==> z.pool.workers[v] == y.pool.workers[v]
    ensures CallersOk(table, z)
  {
    forall v: nat | v < |z.handler.callers| && !z.handler.callers[v].Away?
      ensures Busy(table, z.pool, v) && z.handler.callers[v].call == CallOf(table, z.pool, v)
    {
      assert Busy(table, y.pool, v);
    }
  }

  lemma SettleRecords(table: Table, y: System, z: System, w: nat, call: L.Call, result: OperationResult)
    requires LogsOk(table, y) && AnswersOk(table, y) && w < |y.handler.callers|
    requires y.handler.callers[w] == L.Answered(call, result)
    requires z.handler == y.handler.(callers := y.handler.callers[w := L.Away]) && z.start == y.start
    requires z.answers == y.answers[call.ticket := result]
    requires call.ticket < |y.pool.removed| && y.pool.removed[call.ticket].fate.Running?
    requires IsOperation(table, y.pool.removed[call.ticket].item)
    requires call.op == table[y.pool.removed[call.ticket].item.callback]
    requires L.Correct(y.start, y.handler.logs, call, result)
    requires z.pool.removed == y.pool.removed[call.ticket :=
               Removed(y.pool.removed[call.ticket].item, Finished(Returned(result == Ok)))]
    ensures LogsOk(table, z) && AnswersOk(table, z)
  {
    forall t: nat | Owned(y, t) ensures Owned(z, t) {
      if t !in z.answers {
        var v: nat :| v < |y.handler.callers| && Engaged(y.handler.callers[v], t);
        assert Engaged(z.handler.callers[v], t);
      }
    }
    hide L.Correct, Engaged, Owned, AnswersOk, LogsOk;
    SettleLogs(table, y, z);
    SettleAnswers(table, y, z, call, result);
  }

  lemma SettleAnswers(table: Table, y: System, z: System, call: L.Call, result: OperationResult)
    requires AnswersOk(table, y) && z.handler.logs == y.handler.logs && z.start == y.start
    requires z.answers == y.answers[call.ticket := result]
    requires call.ticket < |y.pool.removed| && y.pool.removed[call.ticket].fate.Running?
    requires IsOperation(table, y.pool.removed[call.ticket].item)
    requires call.op == table[y.pool.removed[call.ticket].item.callback]
    requires L.Correct(y.start, y.handler.logs, call, result)
    requires z.pool.removed == y.pool.removed[call.ticket :=
               Removed(y.pool.removed[call.ticket].item, Finished(Returned(result == Ok)))]
    ensures AnswersOk(table, z)
  {
    hide L.Correct;
    assert call == L.Call(call.ticket, call.op);
    forall t | t in z.answers
      ensures t < |z.pool.removed| && IsOperation(table, z.pool.removed[t].item)
      ensures z.pool.removed[t].fate == Finished(Returned(z.answers[t] == Ok))
      ensures L.Correct(z.start, z.handler.logs, L.Call(t, table[z.pool.removed[t].item.callback]), z.answers[t])
    {
      if t != call.ticket {
        assert t in y.answers && z.pool.removed[t] == y.pool.removed[t];
      }
    }
  }

  lemma SettleLogs(table: Table, y: System, z: System)
    requires LogsOk(table, y) && z.handler.logs == y.handler.logs && |z.pool.removed| == |y.pool.removed|
    requires forall u :: 0 <= u < |y.pool.removed| ==> z.pool.removed[u].item == y.pool.removed[u].item
    requires forall t: nat | Owned(y, t) :: Owned(z, t)
    ensures LogsOk(table, z)
  {
    hide Owned;
  }

  lemma SysStepKeeps(c: Config, table: Table, y: System, x: SysAction)
    requires SysInv(c, table, y) && SysEnabled(c, table, y, x)
    ensures SysInv(c, table, SysNext(c, table, y, x)) && SysNext(c, table, y, x).start == y.start
  {
    hide SysInv;
    match x
    case HandlerStep(w) => HandlerKeeps(c, table, y, w);
    case PoolStep(a) =>
      if Settles(table, y, a) { SettleKeeps(c, table, y, a); } else { OtherPoolKeeps(c, table, y, a); }
  }

  /** Every run of pool and handler together keeps the invariant. */
  lemma {:induction false} SysRunKeeps(c: Config, table: Table, y: System, acts: seq<SysAction>, z: System)
    requires SysInv(c, table, y) && SysLeads(c, table, y, acts, z)
    ensures SysInv(c, table, z) && z.start == y.start
    decreases |acts|
  {
    hide SysInv, SysEnabled, SysNext;
    if |acts| > 0 {
      SysStepKeeps(c, table, y, acts[0]);
      SysRunKeeps(c, table, SysNext(c, table, y, acts[0]), acts[1..], z);
    }
  }

  // ------------------------------------------------------------------- theorems

  ghost predicate Reaches(c: Config, table: Table, b: Bank, acts: seq<SysAction>, y: System) {
    ValidConfig(c) && SysLeads(c, table, Launch(c, b), acts, y)
  }

  lemma ReachedInv(c: Config, table: Table, b: Bank, acts: seq<SysAction>, y: System)
    requires Reaches(c, table, b, acts, y)
    ensures SysInv(c, table, y) && y.start == b
  {
    LaunchInv(c, table, b);
    SysRunKeeps(c, table, Launch(c, b), acts, y);
  }

  /** In every reachable state all registers are sound, and one whose lock is free holds
      what the operations that took its lock, in that order and alone, make of its
      initial contents. */
  lemma RegistersFollowLocks(c: Config, table: Table, b: Bank, acts: seq<SysAction>, y: System, k: nat)
    requires Reaches(c, table, b, acts, y) && k < |b|
    ensures |y.handler.locks| == |y.handler.bank| == |y.handler.logs| == |b|
    ensures y.handler.locks[k] == None ==> y.handler.bank[k] == RunAlone(b[k], L.Ops(y.handler.logs[k]))
    ensures SoundBank(b) ==> SoundBank(y.handler.bank)
  {
    ReachedInv(c, table, b, acts, y);
    L.RegisterState(b, y.handler, k);
    if SoundBank(b) { L.RegistersStaySound(b, y.handler); }
  }

  /** The future of a register operation: once its task has finished, the future holds
      the answer that the operation's place in its register's lock order gives; a
      cancelled task never had a place in any. */
  lemma FutureMeansResult(c: Config, table: Table, b: Bank, acts: seq<SysAction>, y: System, t: nat)
    requires Reaches(c, table, b, acts, y)
    requires t < |y.pool.removed| && IsOperation(table, y.pool.removed[t].item)
    ensures y.pool.removed[t].fate.Finished? ==>
              && t in y.answers && y.pool.removed[t].fate == Finished(Returned(y.answers[t] == Ok))
              && L.Correct(b, y.handler.logs, L.Call(t, table[y.pool.removed[t].item.callback]), y.answers[t])
    ensures y.pool.removed[t].fate.Cancelled? ==>
              && t !in y.answers
              && forall k, i | 0 <= k < |y.handler.logs| && 0 <= i < |y.handler.logs[k]| ::
                   y.handler.logs[k][i].ticket != t
  {
    ReachedInv(c, table, b, acts, y);
    hide L.Inv, L.Correct;
    if y.pool.removed[t].fate.Cancelled? { CancelledHasNoPlace(c, table, y, t); }
  }

  lemma CancelledHasNoPlace(c: Config, table: Table, y: System, t: nat)
    requires SysInv(c, table, y) && t < |y.pool.removed| && y.pool.removed[t].fate.Cancelled?
    ensures !Owned(y, t)
    ensures forall k, i | 0 <= k < |y.handler.logs| && 0 <= i < |y.handler.logs[k]| ::
              y.handler.logs[k][i].ticket != t
  {
    forall w: nat | w < |y.handler.callers| ensures !Engaged(y.handler.callers[w], t) {
      if !y.handler.callers[w].Away? { BusyRuns(c, table, y.pool, w); }
    }
    assert !Owned(y, t);
    hide Owned;
  }

  /** When every task is settled, nobody is inside the handler, each register holds
      exactly its lock order, and every register operation was answered once, from
      its one place, or cancelled without any. */
  lemma DrainedMeansApplied(c: Config, table: Table, b: Bank, acts: seq<SysAction>, y: System)
    requires Reaches(c, table, b, acts, y) && AllSettled(y.pool)
    ensures |y.handler.bank| == |y.handler.logs| == |b|
    ensures forall k: nat :: k < |b| ==> y.handler.bank[k] == RunAlone(b[k], L.Ops(y.handler.logs[k]))
    ensures forall t: nat | t < |y.pool.removed| && IsOperation(table, y.pool.removed[t].item) ::
              t in y.answers <==> !y.pool.removed[t].fate.Cancelled?
    ensures forall k, i, l, j | 0 <= k < |y.handler.logs| && 0 <= i < |y.handler.logs[k]| &&
              0 <= l < |y.handler.logs| && 0 <= j < |y.handler.logs[l]| ::
              y.handler.logs[k][i].ticket == y.handler.logs[l][j].ticket ==> k == l && i == j
  {
    ReachedInv(c, table, b, acts, y);
    SettledIsFree(c, table, y);
    forall k: nat | k < |b| ensures y.handler.bank[k] == RunAlone(b[k], L.Ops(y.handler.logs[k])) {
      L.RegisterState(b, y.handler, k);
    }
    hide L.Inv, L.Correct, RunAlone;
  }

  lemma SettledIsFree(c: Config, table: Table, y: System)
    requires SysInv(c, table, y) && AllSettled(y.pool)
    ensures forall k: nat :: k < |y.handler.locks| ==> y.handler.locks[k] == None
  {
    forall w: nat | w < |y.handler.callers| ensures y.handler.callers[w].Away? {
      if !y.handler.callers[w].Away? { BusyRuns(c, table, y.pool, w); }
    }
    hide Inv, L.RegisterOk, L.CallerOk;
    forall k: nat | k < |y.handler.locks| ensures y.handler.locks[k] == None {
      assert forall w: nat :: w < |y.handler.callers| ==> !L.Inside(y.handler.callers[w], k);
    }
  }

  /** Two drained runs whose register locks were taken in the same orders end in the
      same registers, however the pool interleaved everything else; and so does any
      one global order of the operations that agrees with those lock orders. */
  lemma OrderPerRegisterDecides(c: Config, table: Table, b: Bank, acts1: seq<SysAction>, y: System,
      acts2: seq<SysAction>, z: System, ops: seq<Operation>)
    requires Reaches(c, table, b, acts1, y) && Reaches(c, table, b, acts2, z)
    requires AllSettled(y.pool) && AllSettled(z.pool)
    requires |y.handler.logs| == |z.handler.logs| == |b| && forall k: nat :: k < |b| ==>
               ForRegister(b, ops, k) == L.Ops(y.handler.logs[k]) == L.Ops(z.handler.logs[k])
    ensures y.handler.bank == z.handler.bank == RunAll(b, ops)
  {
    ReachedInv(c, table, b, acts1, y);
    ReachedInv(c, table, b, acts2, z);
    SettledIsFree(c, table, y);
    SettledIsFree(c, table, z);
    L.LockOrdersDecide(b, y.handler, ops);
    L.LockOrdersDecide(b, z.handler, ops);
  }
}
