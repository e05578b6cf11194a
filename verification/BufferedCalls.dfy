/** What a thread asked the concurrent buffered sink to do, and what its call has come
    to: the latest call of every thread is read off the run. */
module BufferedCalls {
  import opened Common
  import opened TextRecord
  import opened BufferedMachine
  import opened BufferedSafety

  /** A request and the state in which it was made. */
  datatype Made = Made(request: Request, start: Sink)

  type Calls = seq<Option<Made>>

  function CallsAfter(s: Sink, calls: Calls, a: Step): Calls
    requires Enabled(s, a) && |calls| == |s.threads|
  {
    if s.threads[a.i].Idle? then calls[a.i := Some(Made(a.request, s))] else calls
  }

  ghost function CallsOf(s: Sink, calls: Calls, acts: seq<Step>): Calls
    decreases |acts|
  {
    if |acts| == 0 || !Enabled(s, acts[0]) || |calls| != |s.threads| then calls
    else CallsOf(Next(s, acts[0]), CallsAfter(s, calls, acts[0]), acts[1..])
  }

  /** All lines that had been written by returned calls when the flush was called have
      been sent, up to the given point, and all lines sent up to there are on the stream. */
  ghost predicate Reached(s: Sink, start: Sink, upTo: nat) {
    && upTo <= |s.sent| && Flatten(Lines(s.sent[..upTo])) <= s.device.bytes
    && |start.returned| == |start.wrote|
    && forall j: nat :: j < |start.wrote| && start.returned[j] <= |start.wrote[j]| ==>
         start.wrote[j][..start.returned[j]] <= Of(s.sent[..upTo], j)
  }

  /** What a call that has returned has done, for good. */
  ghost predicate Answered(s: Sink, i: nat, call: Made)
    requires i < |s.wrote|
  {
    match call.request
    case CallWrite(e) => i < |call.start.wrote| && s.wrote[i] == call.start.wrote[i] + [Line(e)]
    case CallFlush => s.device.failed || exists upTo: nat :: Reached(s, call.start, upTo)
  }

  /** The record of the call has been appended. */
  ghost predicate Wrote(s: Sink, i: nat, call: Made) {
    && i < |s.wrote| && call.request.CallWrite? && i < |call.start.wrote|
    && s.wrote[i] == call.start.wrote[i] + [Line(call.request.e)]
  }

  ghost predicate Writes(s: Sink, i: nat, call: Made, e: Entry) {
    && i < |s.wrote| && call.request == CallWrite(e) && i < |call.start.wrote| && s.wrote[i] == call.start.wrote[i]
  }

  /** The flush covers the calls that had returned when it was called, and has given up
      on success only if the stream has failed. */
  predicate Flushes(s: Sink, call: Made, f: Flush) {
    call.request.CallFlush? && f.marks == call.start.returned && (!f.ok ==> s.device.failed)
  }

  ghost predicate GoesOn(s: Sink, i: nat, call: Made, after: Then) {
    match after
    case Return => Wrote(s, i, call)
    case GoOn(f) => Flushes(s, call, f)
  }

  /** A call in progress is at a point of its own operation, with its own record or marks. */
  ghost predicate Serves(s: Sink, i: nat, pc: Pc, call: Made) {
    match pc
    case Idle => true
    case Locate(e) => Writes(s, i, call, e)
    case LockShard(e, _) => Writes(s, i, call, e)
    case Append(e, _, _) => Writes(s, i, call, e)
    case Test(_) => Wrote(s, i, call)
    case Snapshot(marks) => call.request.CallFlush? && marks == call.start.returned
    case Visit(f) => Flushes(s, call, f)
    case Syncing(f) => Flushes(s, call, f)
    case Synced(f) => Flushes(s, call, f)
    case Flushed(marks, healthy, _) =>
      call.request.CallFlush? && marks == call.start.returned && (!healthy ==> s.device.failed)
    case Check(_, after) => GoesOn(s, i, call, after)
    case WantOut(_, after) => GoesOn(s, i, call, after)
    case Output(_, after, _, _) => GoesOn(s, i, call, after)
    case Cleared(_, after) => GoesOn(s, i, call, after)
    case Unlock(_, after, ok) => GoesOn(s, i, call, after) && (!ok ==> s.device.failed)
  }

  /** Appended, but not returned: between the last part of a record and the release. */
  predicate Unreturned(pc: Pc) {
    match pc
    case Test(_) => true
    case Check(_, after) => after.Return?
    case WantOut(_, after) => after.Return?
    case Output(_, after, _, _) => after.Return?
    case Cleared(_, after) => after.Return?
    case Unlock(_, after, _) => after.Return?
    case _ => false
  }

  /** Lines appended and calls returned, but for a call between the two. */
  ghost predicate Balanced(s: Sink, i: nat)
    requires i < |s.threads| == |s.wrote| == |s.returned|
  {
    |s.wrote[i]| == s.returned[i] + (if Unreturned(s.threads[i]) then 1 else 0)
  }

  /** Histories only grow, and a failed stream stays failed. */
  ghost predicate Onward(s: Sink, t: Sink) {
    && |t.wrote| == |s.wrote| == |s.returned| == |t.returned|
    && (forall j: nat :: j < |s.wrote| ==> s.wrote[j] <= t.wrote[j])
    && s.sent <= t.sent && s.device.bytes <= t.device.bytes && (s.device.failed ==> t.device.failed)
  }

  ghost predicate CallOk(s: Sink, i: nat, call: Option<Made>)
    requires i < |s.threads| == |s.wrote| == |s.returned|
  {
    && Balanced(s, i)
    && (call.None? ==> s.threads[i].Idle?)
    && (call.Some? ==>
          && Onward(call.value.start, s) && HistoryOk(call.value.start)
          && Serves(s, i, s.threads[i], call.value)
          && (s.threads[i].Idle? ==> Answered(s, i, call.value)))
  }

  ghost predicate CallsOk(s: Sink, calls: Calls) {
    && |calls| == |s.threads| == |s.wrote| == |s.returned|
    && forall i: nat :: i < |calls| ==> CallOk(s, i, calls[i])
  }

  // -------------------------------------------------------------------- steps

  /** A step of a thread moves no other thread and appends to no other thread's lines. */
  lemma StepAside(s: Sink, a: Step)
    requires Enabled(s, a) && |s.threads| == |s.wrote| == |s.returned|
    ensures var t := Next(s, a);
            && |t.threads| == |s.threads| && Onward(s, t)
            && forall j: nat :: j < |s.threads| && j != a.i ==>
                 t.threads[j] == s.threads[j] && t.wrote[j] == s.wrote[j] && t.returned[j] == s.returned[j]
  {
    hide FindShard, Clip, Parts, Line;
    var i := a.i;
    match s.threads[i] {
      case Output(k, after, done, total) => hide Tag;
      case Syncing(_) =>
      case Append(_, _, _) => hide Accept, Break;
      case Unlock(_, _, _) => hide Accept, Break;
      case _ => hide Accept, Break, AppendPart, Release, ClearBuffer, WriteChunk;
    }
  }

  lemma OnwardOn(r: Sink, s: Sink, t: Sink)
    requires Onward(r, s) && Onward(s, t)
    ensures Onward(r, t)
  {
  }

  lemma ReachedStays(s: Sink, t: Sink, start: Sink, upTo: nat)
    requires Onward(s, t) && Reached(s, start, upTo)
    ensures Reached(t, start, upTo)
  {
    assert t.sent[..upTo] == s.sent[..upTo];
  }

  lemma AnswerStays(s: Sink, t: Sink, i: nat, call: Made)
    requires i < |s.wrote| && Onward(s, t) && t.wrote[i] == s.wrote[i] && Answered(s, i, call)
    ensures Answered(t, i, call)
  {
    hide Reached, Line;
    if call.request.CallFlush? && !s.device.failed {
      var upTo: nat :| Reached(s, call.start, upTo);
      ReachedStays(s, t, call.start, upTo);
    }
  }

  lemma OtherKeeps(s: Sink, t: Sink, i: nat, call: Option<Made>)
    requires |s.threads| == |s.wrote| == |s.returned| && |t.threads| == |s.threads| && i < |s.threads|
    requires Onward(s, t) && t.threads[i] == s.threads[i] && t.wrote[i] == s.wrote[i] && t.returned[i] == s.returned[i]
    requires CallOk(s, i, call)
    ensures CallOk(t, i, call)
  {
    if call.Some? {
      OnwardOn(call.value.start, s, t);
      if s.threads[i].Idle? { AnswerStays(s, t, i, call.value); }
    }
    hide Onward, HistoryOk, Answered, Line;
  }

  /** What was sent up to the end of a flush has each thread's earlier lines first. */
  lemma DeliveredReaches(s: Sink, start: Sink, upTo: nat)
    requires Inv(s) && HistoryOk(start) && Onward(start, s) && Delivered(s, start.returned, true, upTo)
    ensures Reached(s, start, upTo)
  {
    assert HistoryOk(s);
    hide Inv;
    forall j: nat | j < |start.wrote| && start.returned[j] <= |start.wrote[j]|
      ensures start.wrote[j][..start.returned[j]] <= Of(s.sent[..upTo], j)
    {
      OfIsPrefix(s.sent, upTo, j);
      assert Of(s.sent, j) <= s.wrote[j] && start.wrote[j] <= s.wrote[j];
    }
    hide Of, Held;
  }

  lemma {:induction false} OfIsPrefix(sent: seq<Sent>, n: nat, i: nat)
    requires n <= |sent|
    ensures Of(sent[..n], i) <= Of(sent, i)
    decreases |sent|
  {
    if n == |sent| {
      assert sent[..n] == sent;
    } else {
      assert sent[..|sent| - 1][..n] == sent[..n];
      OfIsPrefix(sent[..|sent| - 1], n, i);
    }
  }

  /** The steps of `flush_shard` and the release behind it. */
  lemma OutputServes(s: Sink, a: Step, call: Made)
    requires Enabled(s, a) && |s.threads| == |s.wrote| == |s.returned| && CallOk(s, a.i, Some(call))
    requires var pc := s.threads[a.i]; pc.Check? || pc.WantOut? || pc.Output? || pc.Cleared? || pc.Unlock?
    ensures var t := Next(s, a);
            && |t.threads| == |s.threads| == |t.wrote| && Serves(t, a.i, t.threads[a.i], call)
            && (t.threads[a.i].Idle? ==> Wrote(t, a.i, call))
  {
    var i, pc, t := a.i, s.threads[a.i], Next(s, a);
    StepAside(s, a);
    assert t.wrote == s.wrote && (s.device.failed ==> t.device.failed);
    assert GoesOn(s, i, call, pc.after) && GoesOn(t, i, call, pc.after);
    hide Onward, Line, Accept, FindShard, Tag, Wrote, HistoryOk, Clip;
  }

  lemma AppendServes(s: Sink, a: Step, call: Made)
    requires Enabled(s, a) && |s.threads| == |s.wrote| == |s.returned| && CallOk(s, a.i, Some(call))
    requires s.threads[a.i].Append? && s.threads[a.i].next < |Parts(s.threads[a.i].e)|
    ensures var t := Next(s, a);
            |t.threads| == |s.threads| == |t.wrote| && Serves(t, a.i, t.threads[a.i], call) && !t.threads[a.i].Idle?
  {
    hide Onward, Line, Parts, HistoryOk;
  }

  lemma WriteServes(s: Sink, a: Step, call: Made)
    requires Enabled(s, a) && |s.threads| == |s.wrote| == |s.returned| && CallOk(s, a.i, Some(call))
    requires var pc := s.threads[a.i]; pc.Locate? || pc.LockShard? || pc.Test?
    ensures var t := Next(s, a);
            |t.threads| == |s.threads| == |t.wrote| && Serves(t, a.i, t.threads[a.i], call) && !t.threads[a.i].Idle?
  {
    assert Next(s, a).wrote == s.wrote by { hide Serves, CallOk, FindShard; }
    hide Onward, Line, FindShard, HistoryOk, Answered;
  }

  lemma FlushServes(s: Sink, a: Step, call: Made)
    requires Enabled(s, a) && |s.threads| == |s.wrote| == |s.returned| && CallOk(s, a.i, Some(call))
    requires var pc := s.threads[a.i]; pc.Snapshot? || pc.Visit? || pc.Syncing? || pc.Synced?
    ensures var t := Next(s, a);
            |t.threads| == |s.threads| == |t.wrote| && Serves(t, a.i, t.threads[a.i], call) && !t.threads[a.i].Idle?
  {
    hide Onward, Line, HistoryOk, Answered;
  }

  /** The steps of a thread's own call, up to its return. */
  lemma CallerServes(s: Sink, a: Step, call: Made)
    requires Inv(s) && Enabled(s, a) && !s.threads[a.i].Idle? && CallOk(s, a.i, Some(call))
    ensures var t := Next(s, a);
            && |t.threads| == |s.threads| == |t.wrote| && Serves(t, a.i, t.threads[a.i], call)
            && (t.threads[a.i].Idle? ==> Answered(t, a.i, call))
  {
    var i, pc, t := a.i, s.threads[a.i], Next(s, a);
    assert ThreadOk(s, i) && HistoryOk(s);
    if pc.Flushed? {
      StepAside(s, a);
      if pc.healthy {
        DeliveredReaches(s, call.start, pc.upTo);
        ReachedStays(s, t, call.start, pc.upTo);
      }
      hide Inv, Reached, ThreadOk, HistoryOk;
    } else if pc.Append? {
      AppendServes(s, a, call);
      hide Next, Serves, Inv;
    } else if pc.Check? || pc.WantOut? || pc.Output? || pc.Cleared? || pc.Unlock? {
      OutputServes(s, a, call);
      hide Next, Serves, Inv;
    } else if pc.Locate? || pc.LockShard? || pc.Test? {
      WriteServes(s, a, call);
      hide Next, Serves, Inv;
    } else {
      FlushServes(s, a, call);
      hide Next, Serves, Inv;
    }
  }

  lemma AppendCounts(s: Sink, a: Step)
    requires Enabled(s, a) && |s.threads| == |s.wrote| == |s.returned| && Balanced(s, a.i)
    requires s.threads[a.i].Append? && s.threads[a.i].next < |Parts(s.threads[a.i].e)|
    ensures var t := Next(s, a); |t.threads| == |s.threads| == |t.wrote| == |t.returned| && Balanced(t, a.i)
  {
    hide Parts, Line;
  }

  lemma ReleaseCounts(s: Sink, a: Step)
    requires Enabled(s, a) && |s.threads| == |s.wrote| == |s.returned| && Balanced(s, a.i) && s.threads[a.i].Unlock?
    ensures var t := Next(s, a); |t.threads| == |s.threads| == |t.wrote| == |t.returned| && Balanced(t, a.i)
  {
  }

  lemma OtherCounts(s: Sink, a: Step)
    requires Enabled(s, a) && |s.threads| == |s.wrote| == |s.returned| && Balanced(s, a.i)
    requires !s.threads[a.i].Append? && !s.threads[a.i].Unlock?
    ensures var t := Next(s, a); |t.threads| == |s.threads| == |t.wrote| == |t.returned| && Balanced(t, a.i)
  {
    var i, t := a.i, Next(s, a);
    assert |t.threads| == |s.threads| && t.wrote == s.wrote && t.returned == s.returned by {
      hide Accept, FindShard, Clip, Tag, Unreturned, Balanced;
    }
    assert Unreturned(t.threads[i]) == Unreturned(s.threads[i]) by {
      hide Accept, FindShard, Clip, Tag, Balanced;
    }
    hide Next, Unreturned;
  }

  /** Lines appended and calls returned stay in step. */
  lemma CountsKept(s: Sink, a: Step)
    requires Inv(s) && Enabled(s, a) && |s.threads| == |s.wrote| == |s.returned| && Balanced(s, a.i)
    ensures var t := Next(s, a); |t.threads| == |s.threads| == |t.wrote| == |t.returned| && Balanced(t, a.i)
  {
    assert ThreadOk(s, a.i);
    hide Inv, Next, Parts, Balanced;
    if s.threads[a.i].Append? {
      AppendCounts(s, a);
    } else if s.threads[a.i].Unlock? {
      ReleaseCounts(s, a);
    } else {
      OtherCounts(s, a);
    }
  }

  lemma OwnStep(s: Sink, a: Step, call: Option<Made>)
    requires Inv(s) && Enabled(s, a) && |s.threads| == |s.wrote| == |s.returned| && CallOk(s, a.i, call)
    ensures var t := Next(s, a);
            && |t.threads| == |s.threads| == |t.wrote| == |t.returned|
            && CallOk(t, a.i, if s.threads[a.i].Idle? then Some(Made(a.request, s)) else call)
  {
    assert HistoryOk(s);
    StepAside(s, a);
    CountsKept(s, a);
    if s.threads[a.i].Idle? {
      hide Onward, HistoryOk, Inv, Line;
    } else {
      CallerServes(s, a, call.value);
      OnwardOn(call.value.start, s, Next(s, a));
      hide Next, Onward, HistoryOk, Inv, Line, Serves, Answered;
    }
  }

  lemma StepCalls(s: Sink, calls: Calls, a: Step)
    requires Inv(s) && Enabled(s, a) && CallsOk(s, calls)
    ensures CallsOk(Next(s, a), CallsAfter(s, calls, a))
  {
    var t, after := Next(s, a), CallsAfter(s, calls, a);
    StepAside(s, a);
    OwnStep(s, a, calls[a.i]);
    hide Next, Inv, CallOk;
    forall i: nat | i < |after| ensures CallOk(t, i, after[i]) {
      if i != a.i { OtherKeeps(s, t, i, calls[i]); }
    }
  }

  lemma {:induction false} RunCalls(s: Sink, calls: Calls, acts: seq<Step>, t: Sink)
    requires Inv(s) && CallsOk(s, calls) && Leads(s, acts, t)
    ensures Inv(t) && CallsOk(t, CallsOf(s, calls, acts))
    decreases |acts|
  {
    hide Inv, CallOk, Next;
    if |acts| > 0 {
      StepCalls(s, calls, acts[0]);
      StepKeeps(s, acts[0]);
      RunCalls(Next(s, acts[0]), CallsAfter(s, calls, acts[0]), acts[1..], t);
    }
  }

  // ----------------------------------------------------------------- the promises

  /** The sink after any run from its start, with the latest call of every thread. */
  ghost predicate ReachesWith(threshold: nat, threads: nat, room: nat, acts: seq<Step>, s: Sink, calls: Calls) {
    && Reaches(threshold, threads, room, acts, s)
    && calls == CallsOf(Start(threshold, threads, room), seq(threads, i => None), acts)
  }

  lemma ReachedCalls(threshold: nat, threads: nat, room: nat, acts: seq<Step>, s: Sink, calls: Calls)
    requires ReachesWith(threshold, threads, room, acts, s, calls)
    ensures Inv(s) && CallsOk(s, calls)
  {
    StartInv(threshold, threads, room);
    RunCalls(Start(threshold, threads, room), seq(threads, i => None), acts, s);
  }

  /** A call of `write` that has returned has appended the line of its own record behind
      all the thread had written before, and nothing else. */
  lemma WriteKeepsItsWord(threshold: nat, threads: nat, room: nat, acts: seq<Step>, s: Sink, calls: Calls,
      i: nat, e: Entry)
    requires ReachesWith(threshold, threads, room, acts, s, calls) && i < |calls| && i < |s.threads|
    requires s.threads[i].Idle? && calls[i].Some? && calls[i].value.request == CallWrite(e)
    ensures i < |s.wrote| && i < |calls[i].value.start.wrote|
    ensures s.wrote[i] == calls[i].value.start.wrote[i] + [Line(e)]
  {
    ReachedCalls(threshold, threads, room, acts, s, calls);
    assert CallOk(s, i, calls[i]);
    hide Inv, CallsOk;
  }

  /** A `flush` that reports success has put on the stream, for every thread, all lines
      written by calls that had returned when it was called; one that reports failure
      has seen the stream fail. */
  lemma FlushKeepsItsWord(threshold: nat, threads: nat, room: nat, acts: seq<Step>, s: Sink, calls: Calls, i: nat)
    requires ReachesWith(threshold, threads, room, acts, s, calls) && i < |calls| && i < |s.threads|
    requires s.threads[i].Flushed?
    ensures calls[i].Some? && calls[i].value.request == CallFlush
    ensures s.threads[i].healthy ==> Reached(s, calls[i].value.start, s.threads[i].upTo)
    ensures !s.threads[i].healthy ==> s.device.failed
  {
    ReachedCalls(threshold, threads, room, acts, s, calls);
    assert CallOk(s, i, calls[i]) && ThreadOk(s, i);
    if s.threads[i].healthy {
      DeliveredReaches(s, calls[i].value.start, s.threads[i].upTo);
    }
    hide Inv, CallsOk, Reached;
  }

  /** ... and no call of `flush` returns any other way. */
  lemma FlushDoesNotReturnEarly(threshold: nat, threads: nat, room: nat, acts: seq<Step>, s: Sink, calls: Calls, i: nat)
    requires ReachesWith(threshold, threads, room, acts, s, calls) && i < |calls| && i < |s.threads|
    requires s.threads[i].Idle? && calls[i].Some? && calls[i].value.request == CallFlush
    ensures s.device.failed || exists upTo: nat :: Reached(s, calls[i].value.start, upTo)
  {
    ReachedCalls(threshold, threads, room, acts, s, calls);
    assert CallOk(s, i, calls[i]);
    hide Inv, CallsOk, Reached;
  }

  /** Outside its own calls a thread has as many lines appended as calls returned. */
  lemma ReturnsAreCounted(threshold: nat, threads: nat, room: nat, acts: seq<Step>, s: Sink, calls: Calls, i: nat)
    requires ReachesWith(threshold, threads, room, acts, s, calls) && i < |calls| && i < |s.threads|
    requires s.threads[i].Idle?
    ensures i < |s.wrote| && i < |s.returned| && s.returned[i] == |s.wrote[i]|
  {
    ReachedCalls(threshold, threads, room, acts, s, calls);
    assert CallOk(s, i, calls[i]);
    hide Inv, CallsOk;
  }
}
