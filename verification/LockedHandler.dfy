/** The concurrent handler: any number of callers route operations to registers, with
    one lock per register. An operation reads its register and changes it in separate
    steps; only the lock keeps what was read true until the change. */
module LockedHandler {
  import opened Common
  import opened Errors
  import opened Register
  import opened Routing

  /** A call, identified by a ticket. */
  datatype Call = Call(ticket: nat, op: Operation)

  /** Where a caller is: outside, in front of the lock of register k, behind it before
      and after reading, behind the change, and outside again with its answer. */
  datatype Phase =
    | Away
    | Waiting(call: Call, k: nat)
    | Entered(call: Call, k: nat)
    | Decided(call: Call, k: nat, decision: Decision)
    | Changed(call: Call, k: nat, result: OperationResult)
    | Answered(call: Call, result: OperationResult)

  /** `logs[k]` is history: the calls in the order in which they took lock k. */
  datatype State = State(bank: Bank, locks: seq<Option<nat>>, callers: seq<Phase>, logs: seq<seq<Call>>)

  function Init(b: Bank, callers: nat): State {
    State(b, seq(|b|, k => None), seq(callers, w => Away), seq(|b|, k => []))
  }

  datatype Step = Begin(w: nat, call: Call) | Proceed(w: nat) | Return(w: nat)

  function SetPhase(s: State, w: nat, p: Phase): State
    requires w < |s.callers|
  {
    s.(callers := s.callers[w := p])
  }

  function RegisterOf(p: Phase): Option<nat> {
    match p
    case Waiting(_, k) => Some(k)
    case Entered(_, k) => Some(k)
    case Decided(_, k, _) => Some(k)
    case Changed(_, k, _) => Some(k)
    case _ => None
  }

  predicate Enabled(s: State, a: Step) {
    && a.w < |s.callers|
    && var p := s.callers[a.w];
       match a
       case Begin(_, _) => p.Away?
       case Return(_) => p.Answered?
       case Proceed(_) =>
         && RegisterOf(p).Some?
         && var k := RegisterOf(p).value;
            && k < |s.bank| && k < |s.locks| && k < |s.logs|
            && (p.Waiting? ==> s.locks[k] == None)
  }

  function Next(s: State, a: Step): State
    requires Enabled(s, a)
  {
    var w := a.w;
    match a
    case Begin(_, call) =>
      var k := Route(s.bank, call.op.error.category);
      SetPhase(s, w, if k == |s.bank| then Answered(call, NoRegister(call.op.error.category)) else Waiting(call, k))
    case Return(_) => SetPhase(s, w, Away)
    case Proceed(_) =>
      match s.callers[w]
      case Waiting(call, k) =>
        SetPhase(s, w, Entered(call, k)).(
          locks := s.locks[k := Some(w)], logs := s.logs[k := s.logs[k] + [call]])
      case Entered(call, k) => SetPhase(s, w, Decided(call, k, Decide(s.bank[k], call.op)))
      case Decided(call, k, decision) =>
        SetPhase(s, w, Changed(call, k, Answer(decision))).(bank := s.bank[k := Apply(s.bank[k], decision)])
      case Changed(call, k, result) => SetPhase(s, w, Answered(call, result)).(locks := s.locks[k := None])
      case _ => s
  }

  ghost predicate Leads(s: State, acts: seq<Step>, t: State)
    decreases |acts|
  {
    if |acts| == 0 then s == t else Enabled(s, acts[0]) && Leads(Next(s, acts[0]), acts[1..], t)
  }

  // ----------------------------------------------------------------- invariant

  function Ops(log: seq<Call>): (r: seq<Operation>)
    ensures |r| == |log| && forall i :: 0 <= i < |log| ==> r[i] == log[i].op
  {
    seq(|log|, i requires 0 <= i < |log| => log[i].op)
  }

  /** What call i of a register's log is answered when the register performs the log alone. */
  function AnswerAt(r: Contents, log: seq<Call>, i: nat): OperationResult
    requires i < |log|
  {
    Perform(RunAlone(r, Ops(log[..i])), log[i].op).1
  }

  /** The answer to a call is the one that its place in its register's lock order gives. */
  ghost predicate Correct(start: Bank, logs: seq<seq<Call>>, call: Call, result: OperationResult) {
    var k := Route(start, call.op.error.category);
    if k == |start| then result == NoRegister(call.op.error.category)
    else k < |logs| && exists i: nat :: i < |logs[k]| && logs[k][i] == call && result == AnswerAt(start[k], logs[k], i)
  }

  /** Inside the critical section of register k. */
  predicate Inside(p: Phase, k: nat) { RegisterOf(p) == Some(k) && !p.Waiting? }

  /** Inside, with the register not changed yet. */
  predicate Before(p: Phase) { p.Entered? || p.Decided? }

  ghost predicate LocksOk(s: State) {
    && |s.locks| == |s.bank| == |s.logs|
    && (forall w, k | 0 <= w < |s.callers| && 0 <= k < |s.locks| ::
          Inside(s.callers[w], k) <==> s.locks[k] == Some(w))
    && forall k | 0 <= k < |s.locks| && s.locks[k].Some? :: s.locks[k].value < |s.callers|
  }

  /** How many calls of its log a register has performed: all but the lock holder's,
      if that one has not made its change. */
  function Performed(s: State, k: nat): int
    requires k < |s.logs| && k < |s.locks|
  {
    var h := s.locks[k];
    if h.Some? && h.value < |s.callers| && Before(s.callers[h.value]) then |s.logs[k]| - 1 else |s.logs[k]|
  }

  ghost predicate RegisterOk(start: Bank, s: State, k: nat)
    requires |s.locks| == |s.bank| == |s.logs| == |start| && k < |s.bank|
  {
    && 0 <= Performed(s, k) <= |s.logs[k]|
    && s.bank[k] == RunAlone(start[k], Ops(s.logs[k][..Performed(s, k)]))
  }

  ghost predicate CallerOk(start: Bank, s: State, w: nat)
    requires |s.locks| == |s.bank| == |s.logs| == |start| && w < |s.callers|
  {
    var p := s.callers[w];
    && (p.Answered? ==> Correct(start, s.logs, p.call, p.result))
    && (RegisterOf(p).Some? ==>
          && p.k == Route(start, p.call.op.error.category) < |start|
          && (!p.Waiting? ==> s.logs[p.k] != [] && s.logs[p.k][|s.logs[p.k]| - 1] == p.call)
          && (p.Decided? ==> p.decision == Decide(s.bank[p.k], p.call.op))
          && (p.Changed? ==> p.result == AnswerAt(start[p.k], s.logs[p.k], |s.logs[p.k]| - 1)))
  }

  ghost predicate Inv(start: Bank, s: State) {
    && |s.bank| == |start| && SameCategories(start, s.bank) && LocksOk(s)
    && (forall k: nat :: k < |s.bank| ==> RegisterOk(start, s, k))
    && (forall w: nat :: w < |s.callers| ==> CallerOk(start, s, w))
  }

  lemma InitInv(b: Bank, callers: nat)
    ensures Inv(b, Init(b, callers))
  {
  }

  // -------------------------------------------------------------------- steps

  /** Logs only grow, so an answer once correct stays so. */
  ghost predicate LogsGrow(s: State, t: State) {
    |t.logs| == |s.logs| && forall k :: 0 <= k < |s.logs| ==> s.logs[k] <= t.logs[k]
  }

  lemma CorrectStays(start: Bank, s: State, t: State, call: Call, result: OperationResult)
    requires LogsGrow(s, t) && Correct(start, s.logs, call, result)
    ensures Correct(start, t.logs, call, result)
  {
    var k := Route(start, call.op.error.category);
    if k < |start| {
      var i: nat :| i < |s.logs[k]| && s.logs[k][i] == call && result == AnswerAt(start[k], s.logs[k], i);
      assert t.logs[k][..i] == s.logs[k][..i] && t.logs[k][i] == call;
    }
  }

  lemma StepGrows(s: State, a: Step)
    requires Enabled(s, a)
    ensures LogsGrow(s, Next(s, a))
  {
    hide Route, Decide, Apply;
  }

  /** A step of caller w changes only the register whose lock it holds or takes. */
  ghost predicate Keeps(s: State, t: State, w: nat, k: nat) {
    && |t.bank| == |s.bank| && |t.locks| == |s.locks| && LogsGrow(s, t)
    && |t.callers| == |s.callers| && w < |s.callers| && t.callers == s.callers[w := t.callers[w]]
    && (forall j :: 0 <= j < |s.bank| && j != k ==> t.bank[j] == s.bank[j])
    && (forall j :: 0 <= j < |s.locks| && j != k ==> t.locks[j] == s.locks[j])
    && (forall j :: 0 <= j < |s.logs| && j != k ==> t.logs[j] == s.logs[j])
  }

  lemma OtherCaller(start: Bank, s: State, t: State, w: nat, k: nat, v: nat)
    requires |s.bank| == |start| && LocksOk(s) && Keeps(s, t, w, k) && v < |s.callers| && v != w
    requires k < |s.locks| ==> s.locks[k] == None || s.locks[k] == Some(w)
    requires CallerOk(start, s, v)
    ensures CallerOk(start, t, v)
  {
    var p := s.callers[v];
    if p.Answered? {
      CorrectStays(start, s, t, p.call, p.result);
    } else if !p.Away? {
      if Inside(p, p.k) { assert p.k != k; }
    }
  }

  lemma OtherRegister(start: Bank, s: State, t: State, w: nat, k: nat, j: nat)
    requires |s.bank| == |start| && LocksOk(s) && Keeps(s, t, w, k) && j < |s.bank| && j != k
    requires !Inside(s.callers[w], j) && RegisterOk(start, s, j)
    ensures RegisterOk(start, t, j)
  {
    assert Performed(t, j) == Performed(s, j);
    hide RunAlone;
  }

  /** What remains to be shown of a step: locks, its own register and its own caller. */
  lemma StepFrame(start: Bank, s: State, t: State, w: nat, k: nat)
    requires Inv(start, s) && Keeps(s, t, w, k)
    requires k < |s.locks| ==> s.locks[k] == None || s.locks[k] == Some(w)
    requires forall j: nat | j != k :: !Inside(s.callers[w], j)
    requires LocksOk(t) && SameCategories(start, t.bank)
    requires k < |t.bank| ==> RegisterOk(start, t, k)
    requires CallerOk(start, t, w)
    ensures Inv(start, t)
  {
    forall j: nat | j < |t.bank| ensures RegisterOk(start, t, j) {
      if j != k { OtherRegister(start, s, t, w, k, j); }
    }
    forall v: nat | v < |t.callers| ensures CallerOk(start, t, v) {
      if v != w { OtherCaller(start, s, t, w, k, v); }
    }
  }

  lemma BeginKeeps(start: Bank, s: State, a: Step)
    requires Inv(start, s) && Enabled(s, a) && a.Begin?
    ensures Inv(start, Next(s, a))
  {
    RouteIsFixed(start, s.bank, a.call.op.error.category);
    StepGrows(s, a);
    hide Route, Correct, RunAlone;
    var t := Next(s, a);
    assert CallerOk(start, t, a.w) by { assert |s.bank| == |start| ==> true; BeginCaller(start, s, a); }
    assert LocksOk(t) by { hide CallerOk, RegisterOk; }
    StepFrame(start, s, t, a.w, |s.bank|);
  }

  lemma BeginCaller(start: Bank, s: State, a: Step)
    requires Inv(start, s) && Enabled(s, a) && a.Begin?
    requires Route(start, a.call.op.error.category) == Route(s.bank, a.call.op.error.category)
    ensures var t := Next(s, a); |t.locks| == |t.bank| == |t.logs| == |start| && CallerOk(start, t, a.w)
  {
    hide Route, RunAlone;
  }

  lemma ReturnKeeps(start: Bank, s: State, a: Step)
    requires Inv(start, s) && Enabled(s, a) && a.Return?
    ensures Inv(start, Next(s, a))
  {
    StepGrows(s, a);
    hide Route, Correct, RunAlone;
    var t := Next(s, a);
    assert LocksOk(t) by { hide CallerOk, RegisterOk; }
    StepFrame(start, s, t, a.w, |s.bank|);
  }

  /** Taking a lock puts the call at the end of the log, not performed yet. */
  lemma EnterKeeps(start: Bank, s: State, a: Step)
    requires Inv(start, s) && Enabled(s, a) && a.Proceed? && s.callers[a.w].Waiting?
    ensures Inv(start, Next(s, a))
  {
    var w, k, t := a.w, s.callers[a.w].k, Next(s, a);
    assert CallerOk(start, s, w) && RegisterOk(start, s, k);
    StepGrows(s, a);
    hide Route, Correct, RunAlone;
    assert t.logs[k][..|s.logs[k]|] == s.logs[k];
    assert s.logs[k][..|s.logs[k]|] == s.logs[k];
    assert RegisterOk(start, t, k);
    assert LocksOk(t) by { hide CallerOk, RegisterOk; }
    StepFrame(start, s, t, w, k);
  }

  /** A step behind the lock that neither takes nor drops it. */
  lemma SameLocks(s: State, w: nat, k: nat, t: State)
    requires LocksOk(s) && w < |s.callers| && Inside(s.callers[w], k) && |t.callers| == |s.callers|
    requires t.callers == s.callers[w := t.callers[w]] && Inside(t.callers[w], k)
    requires t.locks == s.locks && |t.bank| == |s.bank| && t.logs == s.logs
    ensures LocksOk(t)
  {
    assert forall j: nat | j != k :: !Inside(t.callers[w], j) && !Inside(s.callers[w], j);
    hide Inside;
  }

  lemma DecideRegister(start: Bank, s: State, w: nat, k: nat, t: State)
    requires |s.locks| == |s.bank| == |s.logs| == |start| && k < |start| && w < |s.callers|
    requires s.locks[k] == Some(w) && s.callers[w].Entered? && RegisterOk(start, s, k)
    requires |t.callers| == |s.callers| && t.callers[w].Decided?
    requires t.locks == s.locks && t.bank == s.bank && t.logs == s.logs
    ensures RegisterOk(start, t, k)
  {
    hide RunAlone;
  }

  lemma DecideKeeps(start: Bank, s: State, a: Step)
    requires Inv(start, s) && Enabled(s, a) && a.Proceed? && s.callers[a.w].Entered?
    ensures Inv(start, Next(s, a))
  {
    var w, k, t := a.w, s.callers[a.w].k, Next(s, a);
    assert CallerOk(start, s, w) && RegisterOk(start, s, k);
    StepGrows(s, a);
    hide Route, Correct, RunAlone, Decide;
    assert Inside(s.callers[w], k) && s.locks[k] == Some(w);
    SameLocks(s, w, k, t);
    DecideRegister(start, s, w, k, t);
    assert CallerOk(start, t, w);
    hide CallerOk, RegisterOk, LocksOk;
    StepFrame(start, s, t, w, k);
  }

  /** The change completes the last call of the log, with the answer of its place. */
  lemma ChangeRegister(start: Bank, s: State, w: nat, k: nat)
    requires Inv(start, s) && w < |s.callers| && s.callers[w].Decided? && s.callers[w].k == k < |s.bank|
    ensures var p := s.callers[w];
            && |s.logs[k]| > 0 && s.locks[k] == Some(w)
            && Apply(s.bank[k], p.decision) == RunAlone(start[k], Ops(s.logs[k]))
            && Answer(p.decision) == AnswerAt(start[k], s.logs[k], |s.logs[k]| - 1)
  {
    assert CallerOk(start, s, w) && RegisterOk(start, s, k);
    assert Inside(s.callers[w], k);
    var log, n := s.logs[k], |s.logs[k]| - 1;
    assert Performed(s, k) == n && log != [] && log[n] == s.callers[w].call;
    var decision := s.callers[w].decision;
    assert decision == Decide(s.bank[k], log[n].op);
    assert s.bank[k] == RunAlone(start[k], Ops(log[..n]));
    hide Inv, RegisterOk, CallerOk, Decide, Apply, Answer, Perform;
    DecideThenApply(s.bank[k], log[n].op);
    assert Ops(log)[..n] == Ops(log[..n]) && Ops(log)[n] == log[n].op;
  }

  lemma ChangeKeeps(start: Bank, s: State, a: Step)
    requires Inv(start, s) && Enabled(s, a) && a.Proceed? && s.callers[a.w].Decided?
    ensures Inv(start, Next(s, a))
  {
    var w, k, t := a.w, s.callers[a.w].k, Next(s, a);
    assert CallerOk(start, s, w);
    ChangeRegister(start, s, w, k);
    StepGrows(s, a);
    hide Route, Correct, RunAlone, Decide, AnswerAt, Answer, Apply;
    assert Inside(s.callers[w], k);
    SameLocks(s, w, k, t);
    ChangedRegister(start, t, w, k);
    ChangeCategories(start, s, w, k);
    assert CallerOk(start, t, w);
    hide CallerOk, RegisterOk, LocksOk, SameCategories;
    StepFrame(start, s, t, w, k);
  }

  lemma ChangedRegister(start: Bank, t: State, w: nat, k: nat)
    requires |t.locks| == |t.bank| == |t.logs| == |start| && k < |start| && w < |t.callers|
    requires t.locks[k] == Some(w) && t.callers[w].Changed? && t.bank[k] == RunAlone(start[k], Ops(t.logs[k]))
    ensures RegisterOk(start, t, k)
  {
    assert t.logs[k][..|t.logs[k]|] == t.logs[k];
    hide RunAlone;
  }

  lemma ChangeCategories(start: Bank, s: State, w: nat, k: nat)
    requires SameCategories(start, s.bank) && k < |s.bank| && w < |s.callers| && s.callers[w].Decided?
    ensures SameCategories(start, s.bank[k := Apply(s.bank[k], s.callers[w].decision)])
  {
  }

  /** The holder's call is the last of the log, and its answer that of the last place. */
  lemma LeaveCorrect(start: Bank, s: State, w: nat)
    requires Inv(start, s) && w < |s.callers| && s.callers[w].Changed?
    ensures Correct(start, s.logs, s.callers[w].call, s.callers[w].result)
  {
    assert CallerOk(start, s, w);
    hide Inv, RunAlone;
    var p := s.callers[w];
    var i: nat := |s.logs[p.k]| - 1;
    assert s.logs[p.k][i] == p.call && p.result == AnswerAt(start[p.k], s.logs[p.k], i);
  }

  lemma LeaveKeeps(start: Bank, s: State, a: Step)
    requires Inv(start, s) && Enabled(s, a) && a.Proceed? && s.callers[a.w].Changed?
    ensures Inv(start, Next(s, a))
  {
    var w, p, t := a.w, s.callers[a.w], Next(s, a);
    var k := p.k;
    assert CallerOk(start, s, w) && RegisterOk(start, s, k);
    StepGrows(s, a);
    LeaveCorrect(start, s, w);
    assert Inside(p, k) && s.locks[k] == Some(w);
    hide Route, Correct, RunAlone, AnswerAt, Decide;
    LeaveLocks(s, w, k, t);
    LeaveRegister(start, s, w, k, t);
    assert CallerOk(start, t, w);
    hide CallerOk, RegisterOk, LocksOk;
    StepFrame(start, s, t, w, k);
  }

  lemma LeaveLocks(s: State, w: nat, k: nat, t: State)
    requires LocksOk(s) && w < |s.callers| && Inside(s.callers[w], k) && k < |s.locks| && s.locks[k] == Some(w)
    requires |t.callers| == |s.callers| && t.callers == s.callers[w := t.callers[w]] && t.callers[w].Answered?
    requires t.locks == s.locks[k := None] && t.bank == s.bank && t.logs == s.logs
    ensures LocksOk(t)
  {
    assert forall j: nat :: !Inside(t.callers[w], j);
    assert forall j: nat | j != k :: !Inside(s.callers[w], j);
    hide Inside;
  }

  lemma LeaveRegister(start: Bank, s: State, w: nat, k: nat, t: State)
    requires |s.locks| == |s.bank| == |s.logs| == |start| && k < |start| && w < |s.callers|
    requires s.locks[k] == Some(w) && s.callers[w].Changed? && RegisterOk(start, s, k)
    requires t.locks == s.locks[k := None] && t.bank == s.bank && t.logs == s.logs
    ensures RegisterOk(start, t, k)
  {
    hide RunAlone;
  }

  /** Every step of every caller keeps the invariant. */
  lemma StepKeeps(start: Bank, s: State, a: Step)
    requires Inv(start, s) && Enabled(s, a)
    ensures Inv(start, Next(s, a))
  {
    hide Inv;
    var p := s.callers[a.w];
    if a.Begin? {
      BeginKeeps(start, s, a);
    } else if a.Return? {
      ReturnKeeps(start, s, a);
    } else if p.Waiting? {
      EnterKeeps(start, s, a);
    } else if p.Entered? {
      DecideKeeps(start, s, a);
    } else if p.Decided? {
      ChangeKeeps(start, s, a);
    } else {
      LeaveKeeps(start, s, a);
    }
  }

  lemma {:induction false} RunKeeps(start: Bank, s: State, acts: seq<Step>, t: State)
    requires Inv(start, s) && Leads(s, acts, t)
    ensures Inv(start, t) && LogsGrow(s, t)
    decreases |acts|
  {
    hide Inv, Enabled, Next;
    if |acts| > 0 {
      StepKeeps(start, s, acts[0]);
      StepGrows(s, acts[0]);
      RunKeeps(start, Next(s, acts[0]), acts[1..], t);
    }
  }

  // ------------------------------------------------------------------ theorems

  /** In every reachable state at most one caller is inside each register, and a
      register nobody is inside has performed exactly its log, in lock order. */
  lemma RegistersFollowLocks(b: Bank, callers: nat, acts: seq<Step>, s: State)
    requires Leads(Init(b, callers), acts, s)
    ensures forall v: nat, w: nat, k: nat | v < |s.callers| && w < |s.callers| && k < |b| ::
              Inside(s.callers[v], k) && Inside(s.callers[w], k) ==> v == w
    ensures |s.bank| == |s.locks| == |s.logs| == |b|
    ensures forall k: nat :: k < |b| && s.locks[k] == None ==> s.bank[k] == RunAlone(b[k], Ops(s.logs[k]))
    ensures forall k: nat :: k < |b| && s.locks[k].Some? ==>
              && s.logs[k] != []
              && var init := s.logs[k][..|s.logs[k]| - 1];
                 s.bank[k] == RunAlone(b[k], Ops(init)) || s.bank[k] == RunAlone(b[k], Ops(s.logs[k]))
  {
    InitInv(b, callers);
    RunKeeps(b, Init(b, callers), acts, s);
    assert |s.bank| == |s.locks| == |s.logs| == |b|;
    OneInside(b, s);
    hide Inv, Leads, Inside, RunAlone;
    forall k: nat | k < |b|
      ensures s.locks[k] == None ==> s.bank[k] == RunAlone(b[k], Ops(s.logs[k]))
      ensures s.locks[k].Some? ==>
                && s.logs[k] != []
                && var init := s.logs[k][..|s.logs[k]| - 1];
                   s.bank[k] == RunAlone(b[k], Ops(init)) || s.bank[k] == RunAlone(b[k], Ops(s.logs[k]))
    {
      RegisterState(b, s, k);
    }
  }

  lemma {:induction false} RunAloneSound(r: Contents, ops: seq<Operation>)
    requires Sound(r)
    ensures Sound(RunAlone(r, ops))
    decreases |ops|
  {
    if |ops| > 0 {
      RunAloneSound(r, ops[..|ops| - 1]);
      PerformKeepsSound(RunAlone(r, ops[..|ops| - 1]), ops[|ops| - 1]);
    }
  }

  /** In every reachable state, also in the middle of operations, every register keeps
      within its capacity and holds only errors of its category under their codes. */
  lemma RegistersStaySound(b: Bank, s: State)
    requires Inv(b, s) && SoundBank(b)
    ensures SoundBank(s.bank)
  {
    forall k: nat | k < |s.bank| ensures Sound(s.bank[k]) {
      assert RegisterOk(b, s, k);
      RunAloneSound(b[k], Ops(s.logs[k][..Performed(s, k)]));
    }
  }

  lemma OneInside(start: Bank, s: State)
    requires Inv(start, s)
    ensures forall v: nat, w: nat, k: nat | v < |s.callers| && w < |s.callers| && k < |start| ::
              Inside(s.callers[v], k) && Inside(s.callers[w], k) ==> v == w
  {
    forall v: nat, w: nat, k: nat | v < |s.callers| && w < |s.callers| && k < |start| &&
      Inside(s.callers[v], k) && Inside(s.callers[w], k)
      ensures v == w
    {
      assert s.locks[k] == Some(v) && s.locks[k] == Some(w);
    }
  }

  lemma RegisterState(start: Bank, s: State, k: nat)
    requires Inv(start, s) && k < |start|
    ensures s.locks[k] == None ==> s.bank[k] == RunAlone(start[k], Ops(s.logs[k]))
    ensures s.locks[k].Some? ==>
              && s.logs[k] != []
              && var init := s.logs[k][..|s.logs[k]| - 1];
                 s.bank[k] == RunAlone(start[k], Ops(init)) || s.bank[k] == RunAlone(start[k], Ops(s.logs[k]))
  {
    assert RegisterOk(start, s, k);
    assert s.logs[k][..|s.logs[k]|] == s.logs[k];
    if s.locks[k].Some? {
      var w := s.locks[k].value;
      assert Inside(s.callers[w], k) && CallerOk(start, s, w);
    }
    hide RunAlone, Route;
  }

  /** What the step of caller w reads and writes besides its own phase. */
  datatype Local = Local(phase: Phase, register: Contents, lock: Option<nat>, log: seq<Call>)

  function Locally(w: nat, x: Local): Local {
    match x.phase
    case Waiting(call, k) => Local(Entered(call, k), x.register, Some(w), x.log + [call])
    case Entered(call, k) => x.(phase := Decided(call, k, Decide(x.register, call.op)))
    case Decided(call, k, decision) =>
      x.(phase := Changed(call, k, Answer(decision)), register := Apply(x.register, decision))
    case Changed(call, k, result) => x.(phase := Answered(call, result), lock := None)
    case _ => x
  }

  lemma ProceedIsLocal(s: State, w: nat)
    requires Enabled(s, Proceed(w))
    ensures var k := RegisterOf(s.callers[w]).value;
            var x := Locally(w, Local(s.callers[w], s.bank[k], s.locks[k], s.logs[k]));
            Next(s, Proceed(w)) ==
              State(s.bank[k := x.register], s.locks[k := x.lock], s.callers[w := x.phase], s.logs[k := x.log])
  {
    hide Decide, Apply, Answer, Route;
    var k := RegisterOf(s.callers[w]).value;
    assert s.bank[k := s.bank[k]] == s.bank && s.locks[k := s.locks[k]] == s.locks && s.logs[k := s.logs[k]] == s.logs;
  }

  /** The steps of two callers at different registers are independent: each stays
      enabled after the other, and both orders end in the same state. */
  lemma DifferentRegistersOverlap(s: State, v: nat, w: nat)
    requires Enabled(s, Proceed(v)) && Enabled(s, Proceed(w)) && v != w
    requires RegisterOf(s.callers[v]) != RegisterOf(s.callers[w])
    ensures Enabled(Next(s, Proceed(v)), Proceed(w)) && Enabled(Next(s, Proceed(w)), Proceed(v))
    ensures Next(Next(s, Proceed(v)), Proceed(w)) == Next(Next(s, Proceed(w)), Proceed(v))
  {
    hide Route, Decide, Apply, Answer, Locally;
    var a, b := Next(s, Proceed(v)), Next(s, Proceed(w));
    ProceedIsLocal(s, v);
    ProceedIsLocal(s, w);
    ProceedIsLocal(a, w);
    ProceedIsLocal(b, v);
    hide Next;
    var c, d := Next(a, Proceed(w)), Next(b, Proceed(v));
    assert c.callers == d.callers && c.bank == d.bank && c.locks == d.locks && c.logs == d.logs;
  }

  /** Two callers can be inside different registers at the same time. */
  lemma BothInside(b: Bank, callers: nat, c: Call, d: Call) returns (acts: seq<Step>, s: State)
    requires callers >= 2 && Route(b, c.op.error.category) < |b| && Route(b, d.op.error.category) < |b|
    requires Route(b, c.op.error.category) != Route(b, d.op.error.category)
    ensures Leads(Init(b, callers), acts, s) && |s.callers| == callers
    ensures Inside(s.callers[0], Route(b, c.op.error.category)) && Inside(s.callers[1], Route(b, d.op.error.category))
  {
    hide Route, Decide, Apply;
    var s1 := Next(Init(b, callers), Begin(0, c));
    var s2 := Next(s1, Begin(1, d));
    var s3 := Next(s2, Proceed(0));
    s := Next(s3, Proceed(1));
    acts := [Begin(0, c), Begin(1, d), Proceed(0), Proceed(1)];
    assert acts[1..] == [Begin(1, d), Proceed(0), Proceed(1)] && acts[1..][1..] == [Proceed(0), Proceed(1)];
    assert [Proceed(0), Proceed(1)][1..] == [Proceed(1)] && [Proceed(1)][1..] == [];
    assert Leads(s, [], s);
    assert Leads(s3, [Proceed(1)], s);
    assert Leads(s2, [Proceed(0), Proceed(1)], s);
    assert Leads(s1, acts[1..], s);
  }

  /** Why the lock is there: two additions of one code that both read before either
      changes both succeed, and in no order do they both succeed one after the other. */
  lemma WithoutLocksBothSucceed(r: Contents, d: Error, e: Error)
    requires Sound(r) && d.category == e.category == r.category && d.code == e.code && e.code !in r.errors
    requires |r.errors| < r.capacity
    ensures Answer(Decide(r, Add(d))) == Answer(Decide(r, Add(e))) == Ok
    ensures Perform(Perform(r, Add(d)).0, Add(e)).1 != Ok && Perform(Perform(r, Add(e)).0, Add(d)).1 != Ok
    ensures d != e ==> Apply(Apply(r, Decide(r, Add(d))), Decide(r, Add(e))) != Perform(r, Add(d)).0
  {
    assert Apply(Apply(r, Decide(r, Add(d))), Decide(r, Add(e))).errors[e.code] == e;
  }

  /** No deadlock: whoever waits for a lock waits for a caller that can proceed. */
  lemma HolderProceeds(start: Bank, s: State, w: nat)
    requires Inv(start, s) && w < |s.callers| && RegisterOf(s.callers[w]).Some?
    ensures var k := RegisterOf(s.callers[w]).value;
            Enabled(s, Proceed(w)) || (k < |s.locks| && s.locks[k].Some? && Enabled(s, Proceed(s.locks[k].value)))
  {
    assert CallerOk(start, s, w);
    var k := RegisterOf(s.callers[w]).value;
    if s.locks[k].Some? {
      var v := s.locks[k].value;
      assert Inside(s.callers[v], k) && CallerOk(start, s, v);
    }
    hide Route, RunAlone;
  }

  /** When nobody is inside, every global order of all operations that agrees with the
      lock order at each register gives the same registers. */
  lemma LockOrdersDecide(start: Bank, s: State, ops: seq<Operation>)
    requires Inv(start, s) && forall k: nat :: k < |s.locks| ==> s.locks[k] == None
    requires forall k: nat :: k < |start| ==> ForRegister(start, ops, k) == Ops(s.logs[k])
    ensures s.bank == RunAll(start, ops)
  {
    forall k: nat | k < |start| ensures s.bank[k] == RunAll(start, ops)[k] {
      RegisterState(start, s, k);
      RegistersAreIndependent(start, ops, k);
    }
  }
}
