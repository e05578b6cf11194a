/** What a thread was asked to do, and what its call has come to. The calls are read
    off a run: the request with which a thread leaves the state Ready, the state in
    which it did, and, for an operation that cancels, the state in which it had taken
    both locks. */
module PoolCalls {
  import opened Common
  import opened PackedState
  import opened PoolMachine
  import opened PoolInvariant
  import opened PoolWorkerSteps
  import opened PoolClientSteps
  import opened BoundedFifo
  import opened PoolRefinement
  import opened PoolCompletion
  import opened PoolDrain

  datatype Call = Call(request: Request, start: State, locked: Option<State>)

  /** The latest call of every client. */
  type Calls = seq<Option<Call>>

  function NoCalls(c: Config): Calls { seq(c.clients, i => None) }

  function CallsAfter(c: Config, s: State, calls: Calls, a: Action): Calls
    requires Enabled(c, s, a) && |calls| == |s.clients|
  {
    match a
    case WorkerStep(_, _) => calls
    case ClientStep(i, r) =>
      if s.clients[i].Ready? then calls[i := Some(Call(r, s, None))]
      else if s.clients[i].AcquireBoth? && calls[i].Some? then
        calls[i := Some(calls[i].value.(locked := Some(Next(c, s, a))))]
      else calls
  }

  /** The latest calls at the end of a run. */
  ghost function CallsOf(c: Config, s: State, calls: Calls, acts: seq<Action>): Calls
    decreases |acts|
  {
    if |acts| == 0 || !Enabled(c, s, acts[0]) || |calls| != |s.clients| then calls
    else CallsOf(c, Next(c, s, acts[0]), CallsAfter(c, s, calls, acts[0]), acts[1..])
  }

  // ---------------------------------------------------------------- vocabulary

  /** What a submission submits. */
  function ItemsOf(r: Request): Option<seq<Item>> {
    match r
    case Submit(x) => Some([x])
    case DispatchBulk(xs) => Some(xs)
    case _ => None
  }

  /** The items that client i has put into slots, in order. */
  function By(ws: seq<Written>, i: nat): seq<Item> {
    if |ws| == 0 then []
    else By(ws[..|ws| - 1], i) + if ws[|ws| - 1].client == i then [ws[|ws| - 1].item] else []
  }

  /** The first n of the items that the call submits have been put into slots since it
      began, and nothing else by this client. */
  ghost predicate Placed(s: State, i: nat, call: Call, n: nat) {
    && ItemsOf(call.request).Some?
    && var xs := ItemsOf(call.request).value;
       n <= |xs| && By(s.written, i) == By(call.start.written, i) + xs[..n]
  }

  /** The job is the one that the call asked for. */
  ghost predicate Submits(s: State, i: nat, job: Job, call: Call) {
    && ItemsOf(call.request) == Some(job.items) && Placed(s, i, call, |job.tickets|)
    && forall a :: 0 <= a < |job.tickets| ==> |call.start.written| <= job.tickets[a]
  }

  /** All of them, or the pool is stopping. */
  ghost predicate PlacedAll(s: State, i: nat, call: Call) {
    exists n: nat :: Placed(s, i, call, n) && (n < |ItemsOf(call.request).value| ==> IsStopping(s.word))
  }

  /** The tasks accepted before the call began are settled. */
  ghost predicate EarlierSettled(s: State, call: Call) {
    && AcceptedCount(call.start) <= |s.removed|
    && forall t :: 0 <= t < AcceptedCount(call.start) ==> !s.removed[t].fate.Running?
  }

  /** From the removals at m up to number `to`, every task was cancelled. */
  ghost predicate CancelledSince(s: State, m: State, to: int) {
    && |m.removed| <= to <= |s.removed|
    && forall t :: |m.removed| <= t < to ==> s.removed[t].fate.Cancelled?
  }

  ghost predicate Locked(call: Call) {
    && call.locked.Some?
    && call.start.written <= call.locked.value.written && |call.start.removed| <= |call.locked.value.removed|
  }

  /** All tasks that waited when the call held both locks were cancelled. */
  ghost predicate Emptied(s: State, call: Call) {
    Locked(call) && CancelledSince(s, call.locked.value, |call.locked.value.written|)
  }

  /** `closing` says whether the cancellation is part of a shutdown. */
  predicate Cancels(r: Request, closing: bool) { r == if closing then Shutdown(CancelPending) else ClearQueue }

  ghost predicate AllExited(s: State) { forall w :: 0 <= w < |s.workers| ==> s.workers[w].Exited? }

  // ---------------------------------------------------------------- invariant

  /** What a call that has returned has done, for good. */
  ghost predicate Answered(c: Config, s: State, i: nat, call: Call) {
    match call.request
    case Submit(_) => PlacedAll(s, i, call)
    case DispatchBulk(_) => PlacedAll(s, i, call)
    case Wait => c.workers * MaxClaim(c) < COUNT_RANGE ==> EarlierSettled(s, call)
    case ClearQueue => Emptied(s, call)
    case Shutdown(mode) => AllExited(s) && (mode == CancelPending ==> Emptied(s, call))
  }

  /** A call in progress is at a point of its own operation, with its own arguments. */
  ghost predicate Serves(s: State, i: nat, pc: ClientPc, call: Call) {
    match pc
    case Ready => true
    case Space(job) => Submits(s, i, job, call)
    case AcquireP(job) => Submits(s, i, job, call)
    case LoadP(job) => Submits(s, i, job, call)
    case Write(job, _, _) => Submits(s, i, job, call)
    case ReleaseP(job) => Submits(s, i, job, call)
    case Submitted(job, stopped) => Submits(s, i, job, call) && (stopped <==> |job.tickets| < |job.items|)
    case AcquireBoth(closing) => Cancels(call.request, closing)
    case LoadBoth(closing) =>
      && Cancels(call.request, closing) && Locked(call)
      && |s.written| == |call.locked.value.written| && |s.removed| == |call.locked.value.removed|
    case Cancel(closing, _, left) =>
      && Cancels(call.request, closing) && Locked(call)
      && |s.written| == |call.locked.value.written| && CancelledSince(s, call.locked.value, |s.removed|)
    case LoadActive(closing) => Cancels(call.request, closing) && Emptied(s, call)
    case CNotifyTest(closing) => Cancels(call.request, closing) && Emptied(s, call)
    case CNotifyBump(closing) => Cancels(call.request, closing) && Emptied(s, call)
    case CNotifyAll(closing) => Cancels(call.request, closing) && Emptied(s, call)
    case ReleaseBoth(closing) => Cancels(call.request, closing) && Emptied(s, call)
    case AcquireStop(mode) => call.request == Shutdown(mode)
    case SetStop(mode) => call.request == Shutdown(mode)
    case ReleaseStop(mode) => call.request == Shutdown(mode)
    case Join => call.request.Shutdown? && (call.request.mode == CancelPending ==> Emptied(s, call))
    case _ => call.request == Wait
  }

  /** The histories have only grown since the call began. */
  ghost predicate Since(s: State, call: Call) {
    && call.start.written <= s.written && |call.start.removed| <= |s.removed|
    && AcceptedCount(call.start) <= AcceptedCount(s)
  }

  ghost predicate CallOk(c: Config, s: State, i: nat, call: Option<Call>)
    requires i < |s.clients|
  {
    && (call.None? ==> s.clients[i].Ready?)
    && (call.Some? ==>
          && Since(s, call.value) && Serves(s, i, s.clients[i], call.value)
          && (s.clients[i].Ready? ==> Answered(c, s, i, call.value)))
  }

  ghost predicate CallsOk(c: Config, s: State, calls: Calls) {
    |calls| == |s.clients| && forall i: nat :: i < |calls| ==> CallOk(c, s, i, calls[i])
  }

  // ------------------------------------------------------------- steps of others

  /** What any step of another thread does to a client and to what its call rests on. */
  ghost predicate Aside(s: State, t: State, i: nat)
    requires i < |s.clients|
  {
    && |t.clients| == |s.clients| && (t.clients[i] == s.clients[i] || t.clients[i] == WakePc(s.clients[i]))
    && By(t.written, i) == By(s.written, i)
    && (HoldsBoth(s.clients[i]) ==> t.written == s.written && |t.removed| == |s.removed|)
  }

  /** What any step does to the histories. */
  ghost predicate Onward(s: State, t: State) {
    && Grows(s, t) && AcceptedCount(s) <= AcceptedCount(t)
    && (IsStopping(s.word) ==> IsStopping(t.word)) && |t.workers| == |s.workers|
    && (AllExited(s) ==> AllExited(t))
  }

  lemma OthersKeep(c: Config, s: State, t: State, i: nat, call: Option<Call>)
    requires i < |s.clients| && Aside(s, t, i) && Onward(s, t) && CallOk(c, s, i, call)
    ensures CallOk(c, t, i, call)
  {
    hide By, AcceptedCount, IsStopping;
    if call.Some? && s.clients[i].Ready? {
      AnswerStays(c, s, t, i, call.value);
    }
  }

  lemma AnswerStays(c: Config, s: State, t: State, i: nat, call: Call)
    requires i < |s.clients| && Aside(s, t, i) && Onward(s, t) && Answered(c, s, i, call)
    ensures Answered(c, t, i, call)
  {
    hide By, AcceptedCount, IsStopping;
    if ItemsOf(call.request).Some? {
      var n: nat :| Placed(s, i, call, n) && (n < |ItemsOf(call.request).value| ==> IsStopping(s.word));
      assert Placed(t, i, call, n);
    }
  }

  lemma ByPush(ws: seq<Written>, x: Written, i: nat)
    ensures By(ws + [x], i) == By(ws, i) + if x.client == i then [x.item] else []
  {
    assert (ws + [x])[..|ws|] == ws;
  }

  lemma StepOnward(c: Config, s: State, a: Action)
    requires Inv(c, s) && Enabled(c, s, a)
    ensures Onward(s, Next(c, s, a))
  {
    var t := Next(c, s, a);
    StepGrows(c, s, a);
    StepKeeps(c, s, a);
    AbsOrderly(c, s);
    Refines(c, s, a);
    FifoKeepsOrder(Abs(c, s), Abs(c, t));
    assert |Abs(c, s).accepted| == AcceptedCount(s) && |Abs(c, t).accepted| == AcceptedCount(t);
    StepWorkers(c, s, a);
    hide Inv, AcceptedCount, IsStopping, Grows, Next;
  }

  lemma StepWorkers(c: Config, s: State, a: Action)
    requires Enabled(c, s, a)
    ensures var t := Next(c, s, a); |t.workers| == |s.workers| && (AllExited(s) ==> t.workers == s.workers)
  {
    hide FetchAdd, FetchSub, FetchOrStop, LooksIdle, IsStopping, PendingOf, ActiveOf, HeadItem, Wake;
    match a
    case WorkerStep(w, o) => hide ClientNext; assert !s.workers[w].Exited?;
    case ClientStep(i, r) => hide WorkerNext;
  }

  lemma WorkerAside(c: Config, s: State, w: nat, o: Outcome, i: nat)
    requires Inv(c, s) && WorkerEnabled(s, w) && i < |s.clients|
    ensures Aside(s, WorkerNext(c, s, w, o), i)
  {
    hide RingOk, CountOk, ThreadsOk, FatesOk, WaitOk;
    if HoldsBoth(s.clients[i]) { assert !WorkerHolds(s.workers[w]); }
    hide LocksOk;
  }

  lemma ClientAside(c: Config, s: State, j: nat, r: Request, i: nat)
    requires Inv(c, s) && ClientEnabled(c, s, j, r) && i < |s.clients| && i != j
    ensures Aside(s, ClientNext(c, s, j, r), i)
  {
    var pc := s.clients[j];
    if HoldsBoth(s.clients[i]) { NotBoth(c, s, i, j); }
    ClientStepKeeps(c, s, j, r);
    assert !ClientNext(c, s, j, r).fault;
    hide Inv, By, IsLocal, HoldsBoth;
    if pc.Write? {
      WriteAside(c, s, j, i);
    } else if pc.Cancel? {
      CancelAside(c, s, j, i);
    } else if !pc.SetStop? {
      hide ClientNext;
      if IsLocal(pc) { LocalAside(c, s, j, r); } else { OtherAside(c, s, j, r); }
    }
  }

  lemma NotBoth(c: Config, s: State, i: nat, j: nat)
    requires Inv(c, s) && i < |s.clients| && j < |s.clients| && i != j && HoldsBoth(s.clients[i])
    ensures !HoldsProducer(s.clients[j])
  {
    hide RingOk, CountOk, ThreadsOk, FatesOk, WaitOk;
  }

  lemma WriteAside(c: Config, s: State, j: nat, i: nat)
    requires j < |s.clients| && s.clients[j].Write? && i < |s.clients| && i != j && !HoldsBoth(s.clients[i])
    ensures Aside(s, WriteSlot(c, s, j), i) && Aside(s, PublishWrites(s, j), i)
  {
    hide By;
    if |s.clients[j].job.tickets| < |s.clients[j].job.items| {
      ByPush(s.written, PoolMachine.Written(s.clients[j].job.items[|s.clients[j].job.tickets|], j), i);
    }
  }

  lemma CancelAside(c: Config, s: State, j: nat, i: nat)
    requires j < |s.clients| && s.clients[j].Cancel? && i < |s.clients| && i != j && !HoldsBoth(s.clients[i])
    ensures Aside(s, if s.clients[j].left > 0 then CancelOne(c, s, j) else CancelDone(s, j), i)
  {
    hide By;
  }

  // ---------------------------------------------------------- steps of the caller

  /** Starting a call. */
  lemma Begins(c: Config, s: State, i: nat, r: Request)
    requires ClientEnabled(c, s, i, r) && s.clients[i].Ready?
    ensures CallOk(c, ClientNext(c, s, i, r), i, Some(Call(r, s, None)))
  {
    var t := ClientNext(c, s, i, r);
    assert t.written == s.written && t.removed == s.removed;
    assert AcceptedCount(t) == AcceptedCount(s);
  }

  predicate InSubmission(pc: ClientPc) {
    pc.Space? || pc.AcquireP? || pc.LoadP? || pc.Write? || pc.ReleaseP? || pc.Submitted?
  }

  lemma WriteServes(c: Config, s: State, i: nat, call: Call)
    requires Inv(c, s) && i < |s.clients| && s.clients[i].Write? && CallOk(c, s, i, Some(call))
    requires s.clients[i].unpublished < s.clients[i].room
    ensures var t := WriteSlot(c, s, i);
            |t.clients| == |s.clients| && Serves(t, i, t.clients[i], call) && !t.clients[i].Ready?
  {
    hide AcceptedCount, Answered;
    var pc := s.clients[i];
    WriteReady(c, s, i);
    hide Inv;
    var x, n := pc.job.items[|pc.job.tickets|], |pc.job.tickets|;
    ByPush(s.written, Written(x, i), i);
    assert pc.job.items[..n] + [x] == pc.job.items[..n + 1];
    hide By;
  }

  lemma SubmissionServes(c: Config, s: State, i: nat, r: Request, call: Call)
    requires ClientEnabled(c, s, i, r) && InSubmission(s.clients[i])
    requires s.clients[i].Write? ==> s.clients[i].unpublished >= s.clients[i].room
    requires CallOk(c, s, i, Some(call)) && ClientOk(c, s.word, s.written, |s.removed|, i, s.clients[i])
    ensures var t := ClientNext(c, s, i, r);
            && |t.clients| == |s.clients| && Serves(t, i, t.clients[i], call)
            && (t.clients[i].Ready? ==> PlacedAll(t, i, call) && ItemsOf(call.request).Some?)
  {
    hide By, Since, Answered, PendingOf;
    if s.clients[i].Submitted? {
      assert Placed(ClientNext(c, s, i, r), i, call, |s.clients[i].job.tickets|);
    }
  }

  lemma WaitServes(c: Config, s: State, i: nat, r: Request, call: Call)
    requires Inv(c, s) && ClientEnabled(c, s, i, r) && CallOk(c, s, i, Some(call))
    requires InWait(s.clients[i]) || s.clients[i].IdleFirst? || s.clients[i].WaiterEnter?
    ensures var t := ClientNext(c, s, i, r);
            && |t.clients| == |s.clients| && call.request.Wait? && Serves(t, i, t.clients[i], call)
            && (t.clients[i].Ready? && c.workers * MaxClaim(c) < COUNT_RANGE ==> EarlierSettled(t, call))
  {
    hide AcceptedCount, Inv;
    var t := ClientNext(c, s, i, r);
    if s.clients[i].IdleFirst? && LooksIdle(s.word) && c.workers * MaxClaim(c) < COUNT_RANGE {
      IdleIsSound(c, s);
    }
    if s.clients[i].WaiterLeave? {
      WaiterLeaveStep(c, s, i);
    }
  }

  lemma CancelServes(c: Config, s: State, i: nat, call: Call)
    requires Inv(c, s) && i < |s.clients| && s.clients[i].Cancel? && CallOk(c, s, i, Some(call))
    ensures var t := if s.clients[i].left > 0 then CancelOne(c, s, i) else CancelDone(s, i);
            |t.clients| == |s.clients| && Serves(t, i, t.clients[i], call) && !t.clients[i].Ready?
  {
    CancelReady(c, s, i);
    hide Inv, Since, Answered, AcceptedCount, PendingOf;
  }

  lemma LockServes(c: Config, s: State, i: nat, r: Request, call: Call)
    requires ClientEnabled(c, s, i, r) && CallOk(c, s, i, Some(call))
    requires s.clients[i].AcquireBoth? || s.clients[i].LoadBoth?
    ensures var t := ClientNext(c, s, i, r);
            var after := if s.clients[i].AcquireBoth? then call.(locked := Some(t)) else call;
            |t.clients| == |s.clients| && Serves(t, i, t.clients[i], after) && !t.clients[i].Ready?
  {
    hide AcceptedCount, Answered, PendingOf;
  }

  /** Inside the cancellation, with the queue emptied. */
  predicate HasEmptied(pc: ClientPc) {
    pc.LoadActive? || pc.CNotifyTest? || pc.CNotifyBump? || pc.CNotifyAll? || pc.ReleaseBoth?
  }

  lemma EmptiedServes(c: Config, s: State, i: nat, r: Request, call: Call)
    requires ClientEnabled(c, s, i, r) && CallOk(c, s, i, Some(call)) && HasEmptied(s.clients[i])
    ensures var t := ClientNext(c, s, i, r);
            && |t.clients| == |s.clients| && Serves(t, i, t.clients[i], call)
            && (t.clients[i].Ready? ==> call.request.ClearQueue? && Emptied(t, call))
  {
    hide ClientNext, AcceptedCount, Answered, Since;
    EmptiedStep(c, s, i, r);
    assert Emptied(s, call) ==> Emptied(ClientNext(c, s, i, r), call);
    hide Emptied;
  }

  lemma EmptiedStep(c: Config, s: State, i: nat, r: Request)
    requires ClientEnabled(c, s, i, r) && HasEmptied(s.clients[i])
    ensures var t := ClientNext(c, s, i, r);
            && t.removed == s.removed && |t.clients| == |s.clients|
            && if HasEmptied(t.clients[i]) then t.clients[i].closing == s.clients[i].closing
               else t.clients[i] == if s.clients[i].closing then Join else Ready
  {
    hide PendingOf, ActiveOf, IsStopping, Wake;
  }

  lemma StopServes(c: Config, s: State, i: nat, r: Request, call: Call)
    requires ClientEnabled(c, s, i, r) && CallOk(c, s, i, Some(call))
    requires s.clients[i].AcquireStop? || s.clients[i].SetStop? || s.clients[i].ReleaseStop? || s.clients[i].Join?
    ensures var t := ClientNext(c, s, i, r);
            && |t.clients| == |s.clients| && call.request.Shutdown? && Serves(t, i, t.clients[i], call)
            && (t.clients[i].Ready? ==> AllExited(t) && (call.request.mode == CancelPending ==> Emptied(t, call)))
  {
    hide AcceptedCount;
  }

  /** A step of the thread that serves the call. */
  lemma CallerServes(c: Config, s: State, i: nat, r: Request, call: Call)
    requires Inv(c, s) && ClientEnabled(c, s, i, r) && !s.clients[i].Ready? && CallOk(c, s, i, Some(call))
    ensures var t := ClientNext(c, s, i, r);
            var after := if s.clients[i].AcquireBoth? then call.(locked := Some(t)) else call;
            && |t.clients| == |s.clients| && Serves(t, i, t.clients[i], after)
            && (t.clients[i].Ready? ==> Answered(c, t, i, after))
  {
    assert ClientOk(c, s.word, s.written, |s.removed|, i, s.clients[i]);
    hide Inv, Serves, CallOk, ClientOk, PlacedAll, Emptied, EarlierSettled;
    var pc := s.clients[i];
    if pc.Write? && pc.unpublished < pc.room {
      WriteServes(c, s, i, call);
    } else if pc.Cancel? {
      CancelServes(c, s, i, call);
    } else if InSubmission(pc) {
      hide ClientNext;
      SubmissionServes(c, s, i, r, call);
    } else if HasEmptied(pc) {
      hide ClientNext;
      EmptiedServes(c, s, i, r, call);
    } else if pc.AcquireBoth? || pc.LoadBoth? {
      hide ClientNext;
      LockServes(c, s, i, r, call);
    } else if pc.AcquireStop? || pc.SetStop? || pc.ReleaseStop? || pc.Join? {
      hide ClientNext;
      StopServes(c, s, i, r, call);
    } else {
      hide ClientNext;
      WaitServes(c, s, i, r, call);
    }
  }

  lemma CallerKeeps(c: Config, s: State, i: nat, r: Request, call: Call)
    requires Inv(c, s) && ClientEnabled(c, s, i, r) && !s.clients[i].Ready? && CallOk(c, s, i, Some(call))
    ensures var t := ClientNext(c, s, i, r);
            var after := if s.clients[i].AcquireBoth? then call.(locked := Some(t)) else call;
            |t.clients| == |s.clients| && CallOk(c, t, i, Some(after))
  {
    CallerServes(c, s, i, r, call);
    StepOnward(c, s, ClientStep(i, r));
    hide Inv, Serves, Answered, ClientNext, AcceptedCount;
  }

  lemma StepCalls(c: Config, s: State, calls: Calls, a: Action)
    requires Inv(c, s) && Enabled(c, s, a) && CallsOk(c, s, calls)
    ensures CallsOk(c, Next(c, s, a), CallsAfter(c, s, calls, a))
  {
    var t, after := Next(c, s, a), CallsAfter(c, s, calls, a);
    StepKeeps(c, s, a);
    assert |t.clients| == c.clients == |s.clients|;
    StepOnward(c, s, a);
    hide Inv, CallOk, Aside, Onward, WorkerNext, ClientNext, ClientEnabled;
    forall i: nat | i < |after| ensures CallOk(c, t, i, after[i]) {
      if a.ClientStep? && a.i == i {
        OwnStep(c, s, calls[i], i, a.request);
      } else {
        if a.ClientStep? { ClientAside(c, s, a.i, a.request, i); } else { WorkerAside(c, s, a.w, a.outcome, i); }
        OthersKeep(c, s, t, i, calls[i]);
      }
    }
  }

  lemma OwnStep(c: Config, s: State, call: Option<Call>, i: nat, r: Request)
    requires Inv(c, s) && ClientEnabled(c, s, i, r) && CallOk(c, s, i, call)
    ensures var t := ClientNext(c, s, i, r);
            && |t.clients| == |s.clients|
            && CallOk(c, t, i,
                      if s.clients[i].Ready? then Some(Call(r, s, None))
                      else if s.clients[i].AcquireBoth? && call.Some? then Some(call.value.(locked := Some(t)))
                      else call)
  {
    hide Inv;
    if s.clients[i].Ready? {
      Begins(c, s, i, r);
    } else {
      assert call.Some?;
      CallerKeeps(c, s, i, r, call.value);
    }
    hide CallOk;
  }

  /** Over any run every call in progress serves its request, and every call that has
      returned has been answered. */
  lemma {:induction false} RunCalls(c: Config, s: State, calls: Calls, acts: seq<Action>, t: State)
    requires Inv(c, s) && CallsOk(c, s, calls) && Leads(c, s, acts, t)
    ensures Inv(c, t) && CallsOk(c, t, CallsOf(c, s, calls, acts))
    decreases |acts|
  {
    hide Inv, CallOk;
    if |acts| > 0 {
      StepCalls(c, s, calls, acts[0]);
      StepKeeps(c, s, acts[0]);
      RunCalls(c, Next(c, s, acts[0]), CallsAfter(c, s, calls, acts[0]), acts[1..], t);
    }
  }
}
