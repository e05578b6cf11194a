/** The buffered sink loses, splits and reorders nothing, under every interleaving. */
module BufferedSafety {
  import opened Common
  import opened TextRecord
  import opened BufferedMachine

  // --------------------------------------------------------------- projections

  lemma {:induction false} OfTag(sent: seq<Sent>, p: nat, lines: seq<string>, i: nat)
    ensures Of(sent + Tag(p, lines), i) == Of(sent, i) + if p == i then lines else []
    decreases |lines|
  {
    if |lines| == 0 {
      assert sent + Tag(p, lines) == sent;
    } else {
      var init := lines[..|lines| - 1];
      var all := sent + Tag(p, lines);
      OfTag(sent, p, init, i);
      assert all[..|all| - 1] == sent + Tag(p, init);
      assert all[|all| - 1] == Sent(p, lines[|lines| - 1]);
      if p == i { assert Of(sent, i) + init + [lines[|lines| - 1]] == Of(sent, i) + lines; }
    }
  }

  lemma {:induction false} OfPrefix(sent: seq<Sent>, n: nat, i: nat)
    requires n <= |sent|
    ensures |Of(sent[..n], i)| <= |Of(sent, i)|
    decreases |sent|
  {
    if n == |sent| {
      assert sent[..n] == sent;
    } else {
      var init := sent[..|sent| - 1];
      assert init[..n] == sent[..n];
      OfPrefix(init, n, i);
    }
  }

  lemma LinesTag(sent: seq<Sent>, p: nat, lines: seq<string>)
    ensures Flatten(Lines(sent + Tag(p, lines))) == Flatten(Lines(sent)) + Flatten(lines)
  {
    assert Lines(sent + Tag(p, lines)) == Lines(sent) + lines;
    FlattenConcat(Lines(sent), lines);
  }

  lemma {:induction false} FlattenEmpty(lines: seq<string>)
    requires forall l | l in lines :: l != ""
    ensures Flatten(lines) == "" <==> lines == []
  {
    if |lines| > 0 { assert lines[|lines| - 1] in lines; }
  }

  lemma FindSame(a: seq<Shard>, b: seq<Shard>, i: nat)
    requires |a| == |b| && forall k :: 0 <= k < |a| ==> a[k].producer == b[k].producer
    ensures FindShard(a, i) == FindShard(b, i)
  {
  }

  lemma FindUnique(a: seq<Shard>, k: nat)
    requires forall j, l :: 0 <= j < l < |a| ==> a[j].producer != a[l].producer
    requires k < |a|
    ensures FindShard(a, a[k].producer) == k
  {
  }

  lemma FindGrow(a: seq<Shard>, x: Shard, i: nat)
    ensures FindShard(a, i) < |a| ==> FindShard(a + [x], i) == FindShard(a, i)
    ensures FindShard(a, i) == |a| ==> FindShard(a + [x], i) == if x.producer == i then |a| else |a| + 1
  {
    var b := a + [x];
    assert forall j :: 0 <= j < |a| ==> b[j] == a[j];
    assert b[|a|] == x;
  }

  // -------------------------------------------------------------- other threads

  /** What every step preserves: sizes, and histories, shards and the stream only grow. */
  ghost predicate Grows(s: Sink, t: Sink) {
    && |t.threads| == |s.threads| && |t.wrote| == |s.wrote| && |t.returned| == |s.returned|
    && t.threshold == s.threshold && |s.shards| <= |t.shards|
    && (forall k :: 0 <= k < |s.shards| ==> t.shards[k].producer == s.shards[k].producer)
    && (forall i: nat :: i < |s.wrote| ==> |s.wrote[i]| <= |t.wrote[i]|)
    && (forall i: nat :: FindShard(s.shards, i) < |s.shards| ==> FindShard(t.shards, i) == FindShard(s.shards, i))
    && (forall i: nat :: FindShard(s.shards, i) == |s.shards| ==> FindShard(t.shards, i) >= |s.shards|)
    && s.sent <= t.sent && s.device.bytes <= t.device.bytes
  }

  /** A step of thread i touches no other thread, and no shard that another one holds. */
  ghost predicate LeavesOthers(s: Sink, t: Sink, i: nat) {
    && Grows(s, t) && |s.returned| == |s.threads| == |s.wrote|
    && (forall j: nat :: j < |s.threads| && j != i ==>
          t.threads[j] == s.threads[j] && t.wrote[j] == s.wrote[j] && t.returned[j] == s.returned[j])
    && (forall k :: 0 <= k < |s.shards| && s.shards[k].holder.Some? && s.shards[k].holder != Some(i) ==>
          t.shards[k] == s.shards[k])
  }

  lemma MarksGrow(s: Sink, t: Sink, marks: seq<nat>, j: nat, n: nat)
    requires Grows(s, t) && MarksMet(s, marks, j, n) && j <= n <= |s.shards|
    ensures MarksMet(t, marks, j, n)
  {
    forall i: nat | i < |marks|
      ensures |Of(s.sent, i)| <= |Of(t.sent, i)|
    {
      OfPrefix(t.sent, |s.sent|, i);
      assert t.sent[..|s.sent|] == s.sent;
    }
    hide Of;
  }

  lemma DeliveredGrows(s: Sink, t: Sink, marks: seq<nat>, healthy: bool, upTo: nat)
    requires Grows(s, t) && Delivered(s, marks, healthy, upTo)
    ensures Delivered(t, marks, healthy, upTo)
  {
    assert t.sent[..upTo] == s.sent[..upTo];
  }

  lemma AfterGrows(s: Sink, t: Sink, i: nat, j: nat, k: nat, after: Then, emptied: bool)
    requires LeavesOthers(s, t, i) && j != i && j < |s.threads| && k < |s.shards| && AfterOk(s, j, k, after, emptied)
    ensures AfterOk(t, j, k, after, emptied)
  {
    hide MarksMet;
    if after.GoOn? { MarksGrow(s, t, after.f.marks, if emptied then k + 1 else k, after.f.n); }
  }

  lemma OtherThread(s: Sink, t: Sink, i: nat, j: nat)
    requires LocksOk(s) && LeavesOthers(s, t, i) && j != i && j < |s.threads| && ThreadOk(s, j)
    ensures ThreadOk(t, j)
  {
    hide MarksMet, Delivered;
    var pc := s.threads[j];
    assert t.threads[j] == pc;
    if pc.Snapshot? {
      MarksGrow(s, t, pc.marks, 0, |s.shards|);
      SnapshotGrows(s, t, pc.marks);
    } else if pc.Visit? || pc.Syncing? || pc.Synced? {
      MarksGrow(s, t, pc.f.marks, if pc.Visit? then pc.f.j else pc.f.n, pc.f.n);
    } else if pc.Flushed? {
      DeliveredGrows(s, t, pc.marks, pc.healthy, pc.upTo);
    } else if pc.Check? || pc.WantOut? || pc.Output? {
      AfterGrows(s, t, i, j, pc.k, pc.after, false);
    } else if pc.Cleared? || pc.Unlock? {
      AfterGrows(s, t, i, j, pc.k, pc.after, true);
    }
    hide AfterOk, FlushOk;
    if ShardOf(pc).Some? && !pc.LockShard? { assert HoldsShard(pc, pc.k); }
  }

  /** A larger registry only leaves out fewer producers. */
  lemma SnapshotGrows(s: Sink, t: Sink, marks: seq<nat>)
    requires Grows(s, t) && MarksMet(t, marks, 0, |s.shards|)
    ensures MarksMet(t, marks, 0, |t.shards|)
  {
  }

  lemma OtherThreads(s: Sink, t: Sink, i: nat)
    requires LocksOk(s) && LeavesOthers(s, t, i) && ThreadsOk(s) && i < |s.threads| && ThreadOk(t, i)
    ensures ThreadsOk(t)
  {
    assert |t.threads| == |s.threads| == |t.wrote| == |t.returned|;
    hide LocksOk, LeavesOthers, ThreadOk;
    forall j: nat | j < |t.threads| ensures ThreadOk(t, j) {
      if j != i { OtherThread(s, t, i, j); }
    }
  }

  // -------------------------------------------------- steps that move no text

  /** Thread i moves to another point, and may take or drop a lock. */
  ghost predicate OnlyControl(s: Sink, t: Sink, i: nat, pc: Pc) {
    && i < |s.threads| && t.threads == s.threads[i := pc]
    && t.threshold == s.threshold && t.device == s.device && t.sent == s.sent
    && t.wrote == s.wrote && t.returned == s.returned
    && |t.shards| == |s.shards|
    && forall k :: 0 <= k < |s.shards| ==>
         && t.shards[k].producer == s.shards[k].producer && t.shards[k].buffer == s.shards[k].buffer
         && t.shards[k].lines == s.shards[k].lines
         && (t.shards[k].holder == s.shards[k].holder || (s.shards[k].holder == None && t.shards[k].holder == Some(i)))
  }

  lemma ControlFrame(s: Sink, t: Sink, i: nat, pc: Pc)
    requires OnlyControl(s, t, i, pc) && HistoryOk(s) && ShardsOk(s)
    ensures LeavesOthers(s, t, i) && HistoryOk(t) && ShardsOk(t)
  {
    forall j: nat ensures FindShard(t.shards, j) == FindShard(s.shards, j) {
      FindSame(t.shards, s.shards, j);
    }
    hide FindShard, Of;
  }

  /** No text is under way at either end of such a step. */
  lemma ControlText(s: Sink, t: Sink, i: nat, pc: Pc)
    requires OnlyControl(s, t, i, pc) && LocksOk(s) && BuffersOk(s) && StreamOk(s)
    requires forall k: nat | k < |s.shards| :: PartOf(pc, k) == PartOf(s.threads[i], k) == ""
    requires OfferOf(pc, s.shards) == OfferOf(s.threads[i], s.shards) == ""
    requires t.outHolder == s.outHolder || t.outHolder == None || t.outHolder == Some(i)
    requires t.outHolder == None && s.outHolder.Some? ==> s.outHolder == Some(i)
    requires t.outHolder == Some(i) ==> s.outHolder == None || s.outHolder == Some(i)
    ensures BuffersOk(t) && StreamOk(t)
  {
    forall k: nat | k < |t.shards| ensures BufferOk(t, k) {
      assert BufferOk(s, k);
      hide Flatten, PartOf, LocksOk;
    }
    OfferSame(s, t, i, pc);
    hide OfferOf, Flatten;
  }

  lemma OfferSame(s: Sink, t: Sink, i: nat, pc: Pc)
    requires OnlyControl(s, t, i, pc)
    ensures forall j: nat | j < |s.threads| :: OfferOf(s.threads[j], t.shards) == OfferOf(s.threads[j], s.shards)
    ensures OfferOf(pc, t.shards) == OfferOf(pc, s.shards)
  {
  }

  /** Such a step keeps the invariant if it keeps the locks and its own thread's part. */
  lemma ControlKeeps(s: Sink, t: Sink, i: nat, pc: Pc)
    requires Inv(s) && OnlyControl(s, t, i, pc)
    requires forall k: nat | k < |s.shards| :: PartOf(pc, k) == PartOf(s.threads[i], k) == ""
    requires OfferOf(pc, s.shards) == OfferOf(s.threads[i], s.shards) == ""
    requires t.outHolder == s.outHolder || t.outHolder == None || t.outHolder == Some(i)
    requires t.outHolder == None && s.outHolder.Some? ==> s.outHolder == Some(i)
    requires t.outHolder == Some(i) ==> s.outHolder == None || s.outHolder == Some(i)
    requires LocksOk(t) && |t.wrote| == |t.returned| == |t.threads| && ThreadOk(t, i)
    ensures Inv(t)
  {
    hide LocksOk, ShardsOk, BuffersOk, HistoryOk, StreamOk, ThreadsOk, ThreadOk, PartOf, OfferOf, LeavesOthers;
    ControlFrame(s, t, i, pc);
    ControlText(s, t, i, pc);
    OtherThreads(s, t, i);
  }

  /** Moving on inside or outside of critical sections. */
  lemma PcMove(s: Sink, i: nat, pc: Pc)
    requires Inv(s) && i < |s.threads|
    requires !pc.Append? && !pc.Output? && !s.threads[i].Append? && !s.threads[i].Output?
    requires forall k: nat | k < |s.shards| :: HoldsShard(pc, k) == HoldsShard(s.threads[i], k)
    requires HoldsOut(pc) == HoldsOut(s.threads[i])
    requires ThreadOk(SetPc(s, i, pc), i)
    ensures Inv(SetPc(s, i, pc))
  {
    var t := SetPc(s, i, pc);
    assert LocksOk(t) by { hide ThreadsOk, BuffersOk, StreamOk, HistoryOk, HoldsShard, HoldsOut; }
    hide Inv, LocksOk, ThreadOk;
    ControlKeeps(s, t, i, pc);
  }

  lemma TakeShardLocks(s: Sink, i: nat, k: nat, pc: Pc)
    requires LocksOk(s) && i < |s.threads| && k < |s.shards| && s.shards[k].holder == None
    requires forall l: nat | l < |s.shards| :: !HoldsShard(s.threads[i], l) && (HoldsShard(pc, l) <==> l == k)
    requires !HoldsOut(pc) && !HoldsOut(s.threads[i])
    ensures LocksOk(SetPc(SetShard(s, k, s.shards[k].(holder := Some(i))), i, pc))
  {
    hide HoldsShard, HoldsOut;
  }

  /** Taking the lock of shard k. */
  lemma TakeShard(s: Sink, i: nat, k: nat, pc: Pc)
    requires Inv(s) && i < |s.threads| && k < |s.shards| && s.shards[k].holder == None
    requires forall l: nat | l < |s.shards| :: !HoldsShard(s.threads[i], l) && (HoldsShard(pc, l) <==> l == k)
    requires !HoldsOut(pc) && !HoldsOut(s.threads[i]) && !s.threads[i].Append? && (pc.Append? ==> pc.next == 0)
    requires ThreadOk(SetPc(SetShard(s, k, s.shards[k].(holder := Some(i))), i, pc), i)
    ensures Inv(SetPc(SetShard(s, k, s.shards[k].(holder := Some(i))), i, pc))
  {
    var t := SetPc(SetShard(s, k, s.shards[k].(holder := Some(i))), i, pc);
    TakeShardLocks(s, i, k, pc);
    assert forall l: nat | l < |s.shards| :: PartOf(pc, l) == PartOf(s.threads[i], l) == "" by {
      assert pc.Append? ==> Parts(pc.e)[..0] == [];
    }
    hide Inv, LocksOk, ThreadOk, HoldsShard, HoldsOut, PartOf;
    ControlKeeps(s, t, i, pc);
  }

  /** Taking the output lock. */
  lemma TakeOut(s: Sink, i: nat, pc: Pc)
    requires Inv(s) && i < |s.threads| && s.outHolder == None && HoldsOut(pc)
    requires forall k: nat | k < |s.shards| :: HoldsShard(pc, k) == HoldsShard(s.threads[i], k)
    requires !s.threads[i].Append? && (pc.Output? ==> pc.done == 0)
    requires ThreadOk(SetPc(s, i, pc).(outHolder := Some(i)), i)
    ensures Inv(SetPc(s, i, pc).(outHolder := Some(i)))
  {
    var t := SetPc(s, i, pc).(outHolder := Some(i));
    assert LocksOk(t) by { hide ThreadsOk, BuffersOk, StreamOk, HistoryOk, HoldsShard, HoldsOut; }
    assert !HoldsOut(s.threads[i]);
    hide Inv, LocksOk, ThreadOk;
    ControlKeeps(s, t, i, pc);
  }

  /** Dropping it. */
  lemma DropOut(s: Sink, i: nat, pc: Pc)
    requires Inv(s) && i < |s.threads| && s.outHolder == Some(i) && !HoldsOut(pc)
    requires forall k: nat | k < |s.shards| :: HoldsShard(pc, k) == HoldsShard(s.threads[i], k)
    requires !s.threads[i].Append? && !s.threads[i].Output? && !pc.Append?
    requires ThreadOk(SetPc(s, i, pc).(outHolder := None), i)
    ensures Inv(SetPc(s, i, pc).(outHolder := None))
  {
    var t := SetPc(s, i, pc).(outHolder := None);
    assert LocksOk(t) by { hide ThreadsOk, BuffersOk, StreamOk, HistoryOk, HoldsShard, HoldsOut; }
    hide Inv, LocksOk, ThreadOk;
    ControlKeeps(s, t, i, pc);
  }

  // ------------------------------------------------------- steps that move text

  /** A shard whose lock thread i does not hold keeps its text and its writer's part. */
  lemma OtherBuffer(s: Sink, t: Sink, i: nat, pc: Pc, k: nat)
    requires i < |s.threads| && t.threads == s.threads[i := pc] && t.threshold == s.threshold
    requires k < |s.shards| && k < |t.shards| && t.shards[k] == s.shards[k] && s.shards[k].holder != Some(i)
    requires BufferOk(s, k)
    ensures BufferOk(t, k)
  {
    hide Flatten, PartOf;
  }

  /** While another thread holds the output lock, its offer does not change. */
  lemma OtherOffer(s: Sink, t: Sink, i: nat, pc: Pc)
    requires LocksOk(s) && i < |s.threads| && t.threads == s.threads[i := pc]
    requires LeavesOthers(s, t, i) && ThreadsOk(s)
    requires t.outHolder == s.outHolder != Some(i)
    ensures InFlight(t) == InFlight(s)
  {
    hide FindShard;
    if s.outHolder.Some? && s.outHolder.value < |s.threads| {
      var j := s.outHolder.value;
      assert ThreadOk(s, j);
      if s.threads[j].Output? {
        assert HoldsShard(s.threads[j], s.threads[j].k);
      }
    }
  }

  lemma AddShardFind(shards: seq<Shard>, i: nat, j: nat)
    requires FindShard(shards, i) == |shards|
    ensures var more := shards + [Shard(i, "", None, [])];
            && (FindShard(shards, j) < |shards| ==> FindShard(more, j) == FindShard(shards, j))
            && (FindShard(shards, j) == |shards| ==> FindShard(more, j) >= |shards|)
            && Held(more, j) == Held(shards, j)
  {
    FindGrow(shards, Shard(i, "", None, []), j);
  }

  lemma AddShardFrame(s: Sink, t: Sink, i: nat, pc: Pc)
    requires HistoryOk(s) && ShardsOk(s) && i < |s.threads| && FindShard(s.shards, i) == |s.shards|
    requires t == SetPc(s.(shards := s.shards + [Shard(i, "", None, [])]), i, pc)
    ensures LeavesOthers(s, t, i) && HistoryOk(t) && ShardsOk(t)
  {
    hide Of, FindShard, Held;
    forall j: nat
      ensures FindShard(s.shards, j) < |s.shards| ==> FindShard(t.shards, j) == FindShard(s.shards, j)
      ensures FindShard(s.shards, j) == |s.shards| ==> FindShard(t.shards, j) >= |s.shards|
      ensures Held(t.shards, j) == Held(s.shards, j)
    {
      AddShardFind(s.shards, i, j);
    }
  }

  /** A new, empty shard at the end of the registry. */
  lemma AddShardKeeps(s: Sink, i: nat, e: Entry)
    requires Inv(s) && i < |s.threads| && s.threads[i] == Locate(e) && FindShard(s.shards, i) == |s.shards|
    ensures Inv(SetPc(s.(shards := s.shards + [Shard(i, "", None, [])]), i, LockShard(e, |s.shards|)))
  {
    var pc := LockShard(e, |s.shards|);
    var t := SetPc(s.(shards := s.shards + [Shard(i, "", None, [])]), i, pc);
    AddShardFrame(s, t, i, pc);
    AddShardLocks(s, t, i, pc);
    AddShardText(s, t, i, pc);
    hide LocksOk, ShardsOk, BuffersOk, HistoryOk, StreamOk, ThreadsOk, LeavesOthers;
    OtherThreads(s, t, i);
  }

  lemma AddShardLocks(s: Sink, t: Sink, i: nat, pc: Pc)
    requires LocksOk(s) && i < |s.threads| && s.threads[i].Locate? && pc.LockShard?
    requires |s.wrote| == |s.returned| == |s.threads| && ThreadsOk(s)
    requires t == SetPc(s.(shards := s.shards + [Shard(i, "", None, [])]), i, pc)
    ensures LocksOk(t)
  {
    forall j | 0 <= j < |s.threads| ensures !HoldsShard(t.threads[j], |s.shards|) {
      assert ThreadOk(s, j);
    }
    hide ThreadsOk, HoldsShard, HoldsOut;
    assert t.shards[|s.shards|].holder == None;
    assert forall k | 0 <= k < |s.shards| :: t.shards[k] == s.shards[k];
  }

  lemma AddShardText(s: Sink, t: Sink, i: nat, pc: Pc)
    requires Inv(s) && i < |s.threads| && s.threads[i].Locate? && pc.LockShard? && LeavesOthers(s, t, i)
    requires t == SetPc(s.(shards := s.shards + [Shard(i, "", None, [])]), i, pc)
    ensures BuffersOk(t) && StreamOk(t)
  {
    assert s.outHolder != Some(i);
    forall k: nat | k < |t.shards| ensures BufferOk(t, k) {
      if k < |s.shards| {
        assert BufferOk(s, k);
        assert s.shards[k].holder != Some(i) by { assert !HoldsShard(s.threads[i], k); }
        OtherBuffer(s, t, i, pc, k);
      } else {
        assert t.shards[k] == Shard(i, "", None, []) && Flatten([]) == "";
      }
    }
    OtherOffer(s, t, i, pc);
  }

  // One shard, held by the stepping thread before and after, changes its text.

  ghost predicate ShardStep(s: Sink, t: Sink, i: nat, k: nat, pc: Pc) {
    && i < |s.threads| && k < |s.shards| && HoldsShard(s.threads[i], k)
    && t.threads == s.threads[i := pc] && |t.shards| == |s.shards| && t.shards == s.shards[k := t.shards[k]]
    && t.threshold == s.threshold && t.shards[k].producer == s.shards[k].producer
    && |s.wrote| == |s.returned| == |s.threads| && |t.wrote| == |s.wrote| && |t.returned| == |s.returned|
    && (forall j: nat :: j < |s.wrote| && j != i ==> t.wrote[j] == s.wrote[j] && t.returned[j] == s.returned[j])
    && (forall j: nat :: j < |s.wrote| ==> |s.wrote[j]| <= |t.wrote[j]|)
    && s.sent <= t.sent && s.device.bytes <= t.device.bytes
  }

  lemma ShardStepFrame(s: Sink, t: Sink, i: nat, k: nat, pc: Pc)
    requires LocksOk(s) && ShardsOk(s) && ShardStep(s, t, i, k, pc)
    ensures LeavesOthers(s, t, i) && ShardsOk(t)
    ensures forall j: nat :: FindShard(t.shards, j) == FindShard(s.shards, j)
  {
    forall j: nat ensures FindShard(t.shards, j) == FindShard(s.shards, j) {
      FindSame(t.shards, s.shards, j);
    }
    hide FindShard;
  }

  lemma ShardStepLocks(s: Sink, t: Sink, i: nat, k: nat, pc: Pc)
    requires LocksOk(s) && ShardStep(s, t, i, k, pc)
    requires ShardOf(pc) == Some(k) && !pc.LockShard? && t.shards[k].holder == s.shards[k].holder
    requires t.outHolder == s.outHolder && HoldsOut(pc) == HoldsOut(s.threads[i])
    ensures LocksOk(t)
  {
    assert forall l | 0 <= l < |s.shards| :: HoldsShard(pc, l) <==> HoldsShard(s.threads[i], l);
    hide HoldsShard, HoldsOut;
  }

  lemma ShardStepBuffers(s: Sink, t: Sink, i: nat, k: nat, pc: Pc)
    requires LocksOk(s) && BuffersOk(s) && ShardStep(s, t, i, k, pc) && BufferOk(t, k)
    ensures BuffersOk(t)
  {
    forall l: nat | l < |t.shards| ensures BufferOk(t, l) {
      if l != k {
        assert BufferOk(s, l);
        assert !HoldsShard(s.threads[i], l);
        OtherBuffer(s, t, i, pc, l);
      }
    }
  }

  /** Its own text, history and thread aside, such a step keeps the invariant. */
  lemma ShardStepKeeps(s: Sink, t: Sink, i: nat, k: nat, pc: Pc)
    requires Inv(s) && ShardStep(s, t, i, k, pc)
    requires LocksOk(t) && BufferOk(t, k) && HistoryOk(t) && StreamOk(t) && ThreadOk(t, i)
    ensures Inv(t)
  {
    assert t.threshold > 0;
    hide LocksOk, ShardsOk, BuffersOk, HistoryOk, StreamOk, ThreadsOk, ThreadOk, LeavesOthers, BufferOk, ShardStep;
    ShardStepFrame(s, t, i, k, pc);
    ShardStepBuffers(s, t, i, k, pc);
    OtherThreads(s, t, i);
  }

  // ------------------------------------------------------------------ appending

  /** What the holder of a shard's lock may rely on. */
  lemma HolderFacts(s: Sink, i: nat, k: nat)
    requires Inv(s) && i < |s.threads| && ShardOf(s.threads[i]) == Some(k) && !s.threads[i].LockShard?
    ensures k < |s.shards| && ThreadOk(s, i) && BufferOk(s, k) && HoldsShard(s.threads[i], k)
    ensures s.shards[k].holder == Some(i) && (s.outHolder == Some(i) <==> HoldsOut(s.threads[i]))
  {
    assert ThreadOk(s, i);
    hide ThreadsOk, HistoryOk, StreamOk, ThreadOk;
    assert HoldsShard(s.threads[i], k);
  }

  // ------------------------------------------------------------------ appending

  lemma WholeParts(lines: seq<string>, e: Entry)
    ensures Flatten(lines) + Flatten(Parts(e)) == Flatten(lines + [Line(e)])
  {
    PartsMakeLine(e);
    FlattenPush(lines, Line(e));
  }

  lemma NextPart(parts: seq<string>, next: nat)
    requires next < |parts|
    ensures Flatten(parts[..next + 1]) == Flatten(parts[..next]) + parts[next]
  {
    FlattenPush(parts[..next], parts[next]);
    assert parts[..next + 1] == parts[..next] + [parts[next]];
  }

  /** The text of the shard that its writer has extended by a part of its record. */
  lemma AppendText(s: Sink, i: nat, e: Entry, k: nat, next: nat)
    requires i < |s.threads| && i < |s.wrote| && k < |s.shards| && s.threads[i] == Append(e, k, next)
    requires s.shards[k].holder == Some(i) && next < |Parts(e)| && BufferOk(s, k)
    ensures BufferOk(AppendPart(s, i, e, k, next), k)
  {
    hide Line, Parts, Flatten, Partial, AppendPart;
    var t, x, parts := AppendPart(s, i, e, k, next), s.shards[k], Parts(e);
    NextPart(parts, next);
    WholeParts(x.lines, e);
    PartsMakeLine(e);
    AppendPartial(s, i, e, k, next);
    AppendShard(s, i, e, k, next);
    if next + 1 == |parts| { assert parts[..next + 1] == parts; }
    Regroup(Flatten(x.lines), Flatten(parts[..next]), parts[next]);
  }

  lemma Regroup(a: string, b: string, c: string)
    ensures a + b + c == a + (b + c)
  {
  }

  lemma AppendShard(s: Sink, i: nat, e: Entry, k: nat, next: nat)
    requires i < |s.threads| && i < |s.wrote| && k < |s.shards| && next < |Parts(e)|
    ensures var y, x, t := AppendPart(s, i, e, k, next).shards[k], s.shards[k], AppendPart(s, i, e, k, next);
            && y.buffer == x.buffer + Parts(e)[next] && y.holder == x.holder && t.threshold == s.threshold
            && y.lines == if next + 1 == |Parts(e)| then x.lines + [Line(e)] else x.lines
  {
    hide Line, Parts;
  }

  lemma AppendPartial(s: Sink, i: nat, e: Entry, k: nat, next: nat)
    requires i < |s.threads| && i < |s.wrote| && k < |s.shards| && s.threads[i] == Append(e, k, next)
    requires s.shards[k].holder == Some(i) && next < |Parts(e)|
    ensures Partial(s, k) == Flatten(Parts(e)[..next])
    ensures Partial(AppendPart(s, i, e, k, next), k) ==
            if next + 1 < |Parts(e)| then Flatten(Parts(e)[..next + 1]) else ""
  {
    hide Line, Parts, Flatten;
  }

  lemma AppendHistory(s: Sink, i: nat, e: Entry, k: nat, next: nat)
    requires i < |s.threads| && k < |s.shards| && next < |Parts(e)|
    requires HistoryOk(s) && ShardsOk(s) && s.shards[k].producer == i
    ensures HistoryOk(AppendPart(s, i, e, k, next))
  {
    var t := AppendPart(s, i, e, k, next);
    FindUnique(s.shards, k);
    forall j: nat ensures FindShard(t.shards, j) == FindShard(s.shards, j) {
      FindSame(t.shards, s.shards, j);
    }
    hide FindShard, Line, Parts, Of;
    forall j: nat | j < |s.wrote| ensures Of(t.sent, j) + Held(t.shards, j) == t.wrote[j] {
      if j == i && next + 1 == |Parts(e)| {
        assert Of(s.sent, i) + (s.shards[k].lines + [Line(e)]) == s.wrote[i] + [Line(e)];
      }
    }
  }

  lemma AppendShape(s: Sink, i: nat, e: Entry, k: nat, next: nat)
    requires i < |s.threads| && s.threads[i] == Append(e, k, next) && k < |s.shards| && next < |Parts(e)|
    requires HistoryOk(s) && s.shards[k].producer == i
    ensures var t := AppendPart(s, i, e, k, next);
            && ShardStep(s, t, i, k, t.threads[i]) && ThreadOk(t, i)
            && t.shards[k].holder == s.shards[k].holder && t.outHolder == s.outHolder
            && t.device == s.device && t.sent == s.sent && !HoldsOut(t.threads[i])
            && ShardOf(t.threads[i]) == Some(k) && !t.threads[i].LockShard?
  {
    hide Line, Parts, Of, FindShard;
  }

  lemma AppendKeeps(s: Sink, i: nat, e: Entry, k: nat, next: nat)
    requires Inv(s) && i < |s.threads| && s.threads[i] == Append(e, k, next) && k < |s.shards|
    ensures Inv(AppendPart(s, i, e, k, next))
  {
    HolderFacts(s, i, k);
    var t := AppendPart(s, i, e, k, next);
    var pc := t.threads[i];
    AppendText(s, i, e, k, next);
    AppendHistory(s, i, e, k, next);
    AppendShape(s, i, e, k, next);
    hide ThreadOk, BuffersOk, Parts, Line, HistoryOk, BufferOk, AppendPart, ThreadsOk, ShardsOk;
    ShardStepLocks(s, t, i, k, pc);
    ShardStepFrame(s, t, i, k, pc);
    hide ShardStep, LeavesOthers, LocksOk, InFlight;
    SameOffer(s, t, i, k, pc);
    ShardStepKeeps(s, t, i, k, pc);
  }

  lemma SameOffer(s: Sink, t: Sink, i: nat, k: nat, pc: Pc)
    requires LocksOk(s) && |s.wrote| == |s.returned| == |s.threads| && ThreadsOk(s) && StreamOk(s)
    requires ShardStep(s, t, i, k, pc) && LeavesOthers(s, t, i) && t.outHolder == s.outHolder != Some(i)
    requires t.device == s.device && t.sent == s.sent
    ensures StreamOk(t)
  {
    OtherOffer(s, t, i, pc);
    hide InFlight, LocksOk, ThreadsOk, ShardStep, LeavesOthers;
  }

  // ------------------------------------------------------------------- writing

  /** A stream that holds a prefix of what it was offered, and all of it while healthy,
      still does after another offer. */
  lemma AcceptPrefix(d: Device, offered: string, text: string)
    requires d.bytes <= offered && (!d.failed ==> d.bytes == offered)
    ensures var t := Accept(d, text);
            && d.bytes <= t.bytes <= offered + text
            && (!t.failed ==> t.bytes == offered + text)
            && (d.failed ==> t.failed)
  {
  }

  lemma ClipMore(text: string, done: nat, n: nat)
    requires done + n <= |text|
    ensures Clip(text, 0, done) + Clip(text, done, n) == Clip(text, 0, done + n)
  {
  }

  /** The holder of the output lock offers the next chunk of its buffer. */
  lemma ChunkStream(s: Sink, i: nat, k: nat, after: Then, done: nat, total: nat, chunk: nat)
    requires StreamOk(s) && i < |s.threads| && s.threads[i] == Output(k, after, done, total) && k < |s.shards|
    requires s.outHolder == Some(i) && done < total == |s.shards[k].buffer|
    ensures var t := WriteChunk(s, i, k, after, done, total, chunk);
            StreamOk(t) && s.device.bytes <= t.device.bytes
  {
    var t, n := WriteChunk(s, i, k, after, done, total, chunk), Min(chunk, total - done);
    var text := Clip(s.shards[k].buffer, done, n);
    AcceptPrefix(s.device, Offered(s), text);
    ClipMore(s.shards[k].buffer, done, n);
    HolderOffer(s, i, k);
    HolderOffer(t, i, k);
    hide Clip, Flatten, Accept, InFlight, Lines;
    Regroup(Flatten(Lines(s.sent)), Clip(s.shards[k].buffer, 0, done), text);
    assert Offered(t) == Offered(s) + text;
    hide Offered, WriteChunk;
    assert t.device == Accept(s.device, text) by { ChunkDevice(s, i, k, after, done, total, chunk); }
  }

  lemma ChunkDevice(s: Sink, i: nat, k: nat, after: Then, done: nat, total: nat, chunk: nat)
    requires i < |s.threads| && k < |s.shards| && done < total
    ensures WriteChunk(s, i, k, after, done, total, chunk).device ==
            Accept(s.device, Clip(s.shards[k].buffer, done, Min(chunk, total - done)))
  {
    hide Accept, Clip;
  }

  lemma HolderOffer(s: Sink, i: nat, k: nat)
    requires i < |s.threads| && s.threads[i].Output? && s.threads[i].k == k < |s.shards| && s.outHolder == Some(i)
    ensures InFlight(s) == Clip(s.shards[k].buffer, 0, s.threads[i].done)
  {
  }

  lemma ChunkShape(s: Sink, i: nat, k: nat, after: Then, done: nat, total: nat, chunk: nat)
    requires i < |s.threads| && s.threads[i] == Output(k, after, done, total) && k < |s.shards| && done < total
    requires HistoryOk(s) && ThreadOk(s, i) && BufferOk(s, k) && s.shards[k].holder == Some(i)
    requires var t := WriteChunk(s, i, k, after, done, total, chunk); s.device.bytes <= t.device.bytes
    ensures var t := WriteChunk(s, i, k, after, done, total, chunk);
            && ShardStep(s, t, i, k, t.threads[i]) && ThreadOk(t, i) && HistoryOk(t) && BufferOk(t, k)
            && t.shards[k].holder == s.shards[k].holder && t.outHolder == s.outHolder && HoldsOut(t.threads[i])
            && ShardOf(t.threads[i]) == Some(k) && !t.threads[i].LockShard?
  {
    hide Accept, Clip, Flatten, Of, FindShard;
  }

  lemma ChunkKeeps(s: Sink, i: nat, k: nat, after: Then, done: nat, total: nat, chunk: nat)
    requires Inv(s) && i < |s.threads| && s.threads[i] == Output(k, after, done, total) && k < |s.shards|
    requires done < total
    ensures Inv(WriteChunk(s, i, k, after, done, total, chunk))
  {
    HolderFacts(s, i, k);
    var t := WriteChunk(s, i, k, after, done, total, chunk);
    ChunkStream(s, i, k, after, done, total, chunk);
    hide BuffersOk, HistoryOk, StreamOk, BufferOk, ThreadsOk, ShardsOk, WriteChunk, LocksOk;
    ChunkShape(s, i, k, after, done, total, chunk);
    hide ThreadOk, ShardStep;
    ShardStepLocks(s, t, i, k, t.threads[i]);
    ShardStepKeeps(s, t, i, k, t.threads[i]);
  }

  // ------------------------------------------------------------------ clearing

  lemma ClearHistory(s: Sink, i: nat, k: nat, after: Then)
    requires i < |s.threads| && k < |s.shards| && HistoryOk(s) && ShardsOk(s)
    ensures var t := ClearBuffer(s, i, k, after);
            && HistoryOk(t)
            && (forall j: nat :: FindShard(t.shards, j) == FindShard(s.shards, j))
            && Of(t.sent, s.shards[k].producer) == s.wrote[s.shards[k].producer]
  {
    var t, x := ClearBuffer(s, i, k, after), s.shards[k];
    FindUnique(s.shards, k);
    forall j: nat ensures FindShard(t.shards, j) == FindShard(s.shards, j) {
      FindSame(t.shards, s.shards, j);
    }
    hide FindShard, Of, Tag;
    OfTag(s.sent, x.producer, x.lines, x.producer);
    forall j: nat | j < |s.wrote| ensures Of(t.sent, j) + Held(t.shards, j) == s.wrote[j] {
      OfTag(s.sent, x.producer, x.lines, j);
    }
  }

  /** The lines of the buffer were whole, and all of it had been offered. */
  lemma ClearStream(s: Sink, i: nat, k: nat, after: Then)
    requires StreamOk(s) && i < |s.threads| && k < |s.shards| && BufferOk(s, k)
    requires s.threads[i] == Output(k, after, |s.shards[k].buffer|, |s.shards[k].buffer|)
    requires s.shards[k].holder == Some(i) && s.outHolder == Some(i)
    ensures StreamOk(ClearBuffer(s, i, k, after)) && BufferOk(ClearBuffer(s, i, k, after), k)
  {
    var t, x := ClearBuffer(s, i, k, after), s.shards[k];
    HolderOffer(s, i, k);
    LinesTag(s.sent, x.producer, x.lines);
    assert Clip(x.buffer, 0, |x.buffer|) == x.buffer;
    assert Flatten([]) == "" && Partial(s, k) == "" && Partial(t, k) == "" && InFlight(t) == "";
    hide Clip, Flatten, Tag, Lines, Partial, InFlight;
    assert x.buffer == Flatten(x.lines);
    assert Offered(t) == Offered(s);
  }

  /** Clearing takes no line away, and leaves none behind of this shard's producer. */
  lemma ClearGrows(s: Sink, i: nat, k: nat, after: Then, j: nat)
    requires i < |s.threads| && k < |s.shards| && HistoryOk(s) && ShardsOk(s) && j < |s.wrote|
    ensures var t := ClearBuffer(s, i, k, after);
            && |Of(s.sent, j)| <= |Of(t.sent, j)|
            && (FindShard(s.shards, j) == k ==> Of(t.sent, j) == s.wrote[j])
  {
    var t := ClearBuffer(s, i, k, after);
    ClearHistory(s, i, k, after);
    if FindShard(s.shards, j) == k { assert s.shards[k].producer == j; }
    hide FindShard, HistoryOk, ShardsOk;
    OfPrefix(t.sent, |s.sent|, j);
    hide Of;
    assert t.sent[..|s.sent|] == s.sent;
  }

  /** Behind the clearing the marks are met for this shard's producer as well. */
  lemma ClearThread(s: Sink, i: nat, k: nat, after: Then)
    requires i < |s.threads| && k < |s.shards| && HistoryOk(s) && ShardsOk(s) && AfterOk(s, i, k, after, false)
    ensures AfterOk(ClearBuffer(s, i, k, after), i, k, after, true)
  {
    hide Of, FindShard, ShardsOk, Tag;
    ClearHistory(s, i, k, after);
    forall j: nat | j < |s.wrote|
      ensures |Of(s.sent, j)| <= |Of(ClearBuffer(s, i, k, after).sent, j)|
      ensures FindShard(s.shards, j) == k ==> Of(ClearBuffer(s, i, k, after).sent, j) == s.wrote[j]
    {
      ClearGrows(s, i, k, after, j);
    }
  }

  lemma ClearShape(s: Sink, i: nat, k: nat, after: Then, done: nat, total: nat)
    requires i < |s.threads| && s.threads[i] == Output(k, after, done, total) && k < |s.shards|
    requires |s.wrote| == |s.returned| == |s.threads| && AfterOk(ClearBuffer(s, i, k, after), i, k, after, true)
    ensures var t := ClearBuffer(s, i, k, after);
            && ShardStep(s, t, i, k, t.threads[i]) && ThreadOk(t, i)
            && t.shards[k].holder == s.shards[k].holder && t.outHolder == s.outHolder && HoldsOut(t.threads[i])
            && ShardOf(t.threads[i]) == Some(k) && !t.threads[i].LockShard?
  {
    hide AfterOk, Tag;
  }

  lemma ClearKeeps(s: Sink, i: nat, k: nat, after: Then, done: nat, total: nat)
    requires Inv(s) && i < |s.threads| && s.threads[i] == Output(k, after, done, total) && k < |s.shards|
    requires done >= total
    ensures Inv(ClearBuffer(s, i, k, after))
  {
    HolderFacts(s, i, k);
    var t := ClearBuffer(s, i, k, after);
    hide BuffersOk, HistoryOk, StreamOk, BufferOk, ThreadsOk, ShardsOk, ClearBuffer, LocksOk, AfterOk;
    ClearHistory(s, i, k, after);
    ClearStream(s, i, k, after);
    ClearThread(s, i, k, after);
    ClearShape(s, i, k, after, done, total);
    hide ThreadOk, ShardStep;
    ShardStepLocks(s, t, i, k, t.threads[i]);
    ShardStepKeeps(s, t, i, k, t.threads[i]);
  }

  // ------------------------------------------------------------------ releasing

  lemma DropShardLocks(s: Sink, t: Sink, i: nat, k: nat, pc: Pc)
    requires LocksOk(s) && ShardStep(s, t, i, k, pc) && ShardOf(s.threads[i]) == Some(k)
    requires ShardOf(pc) == None && t.shards[k].holder == None
    requires t.outHolder == s.outHolder && !HoldsOut(pc) && !HoldsOut(s.threads[i])
    ensures LocksOk(t)
  {
    assert forall l | 0 <= l < |s.shards| :: !HoldsShard(pc, l) && (l != k ==> !HoldsShard(s.threads[i], l));
    hide HoldsShard, HoldsOut;
  }

  lemma ReleaseShape(s: Sink, i: nat, k: nat, after: Then, ok: bool)
    requires i < |s.threads| && s.threads[i] == Unlock(k, after, ok) && k < |s.shards|
    requires HistoryOk(s) && ThreadOk(s, i)
    ensures var t := Release(s, i, k, after, ok);
            && ShardStep(s, t, i, k, t.threads[i])
            && t.shards[k] == s.shards[k].(holder := None) && t.outHolder == s.outHolder
            && t.device == s.device && t.sent == s.sent && t.wrote == s.wrote && !HoldsOut(t.threads[i])
            && ShardOf(t.threads[i]) == None
  {
    hide Of;
  }

  lemma ReleaseThread(s: Sink, i: nat, k: nat, after: Then, ok: bool)
    requires i < |s.threads| && s.threads[i] == Unlock(k, after, ok) && k < |s.shards|
    requires HistoryOk(s) && ThreadOk(s, i)
    ensures ThreadOk(Release(s, i, k, after, ok), i)
  {
    hide Of;
    var t := Release(s, i, k, after, ok);
    forall j: nat ensures FindShard(t.shards, j) == FindShard(s.shards, j) {
      FindSame(t.shards, s.shards, j);
    }
    hide FindShard;
  }

  lemma ReleaseHistory(s: Sink, i: nat, k: nat, after: Then, ok: bool)
    requires i < |s.threads| && k < |s.shards| && HistoryOk(s) && AfterOk(s, i, k, after, true)
    ensures HistoryOk(Release(s, i, k, after, ok))
  {
    hide Of;
    var t := Release(s, i, k, after, ok);
    forall j: nat ensures FindShard(t.shards, j) == FindShard(s.shards, j) {
      FindSame(t.shards, s.shards, j);
    }
    assert after.Return? ==> FindShard(s.shards, i) < |s.shards|;
    hide FindShard;
  }

  lemma ReleaseBuffer(s: Sink, i: nat, k: nat, after: Then, ok: bool)
    requires i < |s.threads| && i < |s.returned| && k < |s.shards| && s.threads[i] == Unlock(k, after, ok)
    requires BufferOk(s, k) && s.shards[k].holder == Some(i) && |s.shards[k].buffer| < s.threshold
    ensures BufferOk(Release(s, i, k, after, ok), k)
  {
    hide Flatten;
  }

  lemma ReleaseKeeps(s: Sink, i: nat, k: nat, after: Then, ok: bool)
    requires Inv(s) && i < |s.threads| && s.threads[i] == Unlock(k, after, ok) && k < |s.shards|
    ensures Inv(Release(s, i, k, after, ok))
  {
    HolderFacts(s, i, k);
    var t := Release(s, i, k, after, ok);
    var pc := t.threads[i];
    hide BuffersOk, HistoryOk, StreamOk, BufferOk, ThreadsOk, ShardsOk, Release, LocksOk, AfterOk;
    ReleaseBuffer(s, i, k, after, ok);
    ReleaseHistory(s, i, k, after, ok);
    ReleaseShape(s, i, k, after, ok);
    ReleaseThread(s, i, k, after, ok);
    hide ThreadOk;
    DropShardLocks(s, t, i, k, pc);
    ShardStepFrame(s, t, i, k, pc);
    hide ShardStep, LeavesOthers;
    SameOffer(s, t, i, k, pc);
    ShardStepKeeps(s, t, i, k, pc);
  }

  // ------------------------------------------------------------------ all steps

  lemma BreakKeeps(s: Sink, i: nat, breaks: bool)
    requires Inv(s) && i < |s.threads| && s.threads[i].Synced?
    ensures Inv(s.(device := Break(s.device, breaks)))
  {
    var t := s.(device := Break(s.device, breaks));
    BreakThread(s, i, breaks);
    BreakBuffers(s, breaks);
    hide BuffersOk, Of, FindShard, Flatten, MarksMet, ThreadOk, LocksOk, ShardsOk;
    BreakRest(s, i, breaks);
    OtherThreads(s, t, i);
  }

  lemma BreakRest(s: Sink, i: nat, breaks: bool)
    requires HistoryOk(s) && StreamOk(s) && (LocksOk(s) && ShardsOk(s))
    ensures var t := s.(device := Break(s.device, breaks));
            HistoryOk(t) && StreamOk(t) && LocksOk(t) && ShardsOk(t) && LeavesOthers(s, t, i)
  {
    hide Of, FindShard, Flatten;
  }

  lemma BreakThread(s: Sink, i: nat, breaks: bool)
    requires Inv(s) && i < |s.threads| && s.threads[i].Synced?
    ensures ThreadOk(s.(device := Break(s.device, breaks)), i)
  {
    var f := s.threads[i].f;
    assert ThreadOk(s, i) && |s.wrote| == |s.returned| == |s.threads|;
    hide Inv, Of, FindShard;
    assert MarksMet(s.(device := Break(s.device, breaks)), f.marks, f.n, f.n);
  }

  lemma BreakBuffers(s: Sink, breaks: bool)
    requires BuffersOk(s)
    ensures BuffersOk(s.(device := Break(s.device, breaks)))
  {
    hide Flatten;
    var t := s.(device := Break(s.device, breaks));
    forall k: nat | k < |t.shards| ensures BufferOk(t, k) {
      assert BufferOk(s, k);
    }
  }

  lemma SyncedDelivers(s: Sink, i: nat, f: Flush)
    requires Inv(s) && i < |s.threads| && s.threads[i] == Synced(f)
    ensures Delivered(s, f.marks, !s.device.failed && f.ok, |s.sent|)
  {
    assert ThreadOk(s, i) && HoldsOut(s.threads[i]);
    assert s.outHolder == Some(i);
    assert s.sent[..|s.sent|] == s.sent;
    hide Of, FindShard, Flatten, ThreadsOk, BuffersOk, LocksOk;
    assert InFlight(s) == "";
  }

  lemma MarksOfReturned(s: Sink)
    requires HistoryOk(s)
    ensures MarksMet(s, s.returned, 0, |s.shards|)
  {
  }

  /** A buffer found empty holds no line. */
  lemma EmptyCheck(s: Sink, i: nat, k: nat, after: Then)
    requires Inv(s) && i < |s.threads| && s.threads[i] == Check(k, after) && k < |s.shards|
    requires s.shards[k].buffer == "" && AfterOk(s, i, k, after, false)
    ensures AfterOk(s, i, k, after, true)
  {
    HolderFacts(s, i, k);
    FlattenEmpty(s.shards[k].lines);
    assert s.shards[k].lines == [];
    hide LocksOk, BuffersOk, ThreadsOk, StreamOk, ThreadOk, BufferOk, Flatten;
    FindUnique(s.shards, k);
    if after.GoOn? {
      forall j: nat | j < |after.f.marks| && FindShard(s.shards, j) == k
        ensures after.f.marks[j] <= |Of(s.sent, j)|
      {
        assert Of(s.sent, j) + Held(s.shards, j) == s.wrote[j];
      }
    }
    hide Of, FindShard;
  }

  lemma AfterSame(s: Sink, t: Sink, i: nat, k: nat, after: Then, emptied: bool)
    requires t.shards == s.shards && t.wrote == s.wrote && t.returned == s.returned && t.sent == s.sent
    requires i < |s.wrote| && i < |s.returned| && k < |s.shards| && AfterOk(s, i, k, after, emptied)
    ensures AfterOk(t, i, k, after, emptied)
  {
    hide Of, FindShard;
  }

  lemma CheckKeeps(s: Sink, a: Step)
    requires Inv(s) && Enabled(s, a) && s.threads[a.i].Check?
    ensures Inv(Next(s, a))
  {
    var i, k, after := a.i, s.threads[a.i].k, s.threads[a.i].after;
    HolderFacts(s, i, k);
    var empty := s.shards[k].buffer == "";
    if empty { EmptyCheck(s, i, k, after); }
    var pc := if empty then Unlock(k, after, true) else WantOut(k, after);
    assert s.threshold > 0 && |s.wrote| == |s.returned| == |s.threads|;
    hide Inv, AfterOk;
    AfterSame(s, SetPc(s, i, pc), i, k, after, empty);
    PcMove(s, i, pc);
  }

  lemma TestKeeps(s: Sink, a: Step)
    requires Inv(s) && Enabled(s, a) && s.threads[a.i].Test?
    ensures Inv(Next(s, a))
  {
    HolderFacts(s, a.i, s.threads[a.i].k);
    hide Inv;
    PcMove(s, a.i, Next(s, a).threads[a.i]);
  }

  lemma OutsideKeeps(s: Sink, a: Step)
    requires Inv(s) && Enabled(s, a)
    requires s.threads[a.i].Idle? || s.threads[a.i].Snapshot? || s.threads[a.i].Flushed?
    ensures Inv(Next(s, a))
  {
    MarksOfReturned(s);
    assert ThreadOk(s, a.i);
    var pc := Next(s, a).threads[a.i];
    assert |s.wrote| == |s.returned| == |s.threads|;
    hide Inv, MarksMet;
    PcMove(s, a.i, pc);
  }

  lemma LocateKeeps(s: Sink, a: Step)
    requires Inv(s) && Enabled(s, a) && s.threads[a.i].Locate?
    ensures Inv(Next(s, a))
  {
    var i, e := a.i, s.threads[a.i].e;
    var k := FindShard(s.shards, i);
    assert |s.wrote| == |s.returned| == |s.threads|;
    hide Inv;
    if k < |s.shards| {
      PcMove(s, i, LockShard(e, k));
    } else {
      AddShardKeeps(s, i, e);
    }
  }

  lemma LockShardKeeps(s: Sink, a: Step)
    requires Inv(s) && Enabled(s, a) && s.threads[a.i].LockShard?
    ensures Inv(Next(s, a))
  {
    var i, k, pc := a.i, s.threads[a.i].k, Append(s.threads[a.i].e, s.threads[a.i].k, 0);
    assert ThreadOk(s, i) && |s.wrote| == |s.returned| == |s.threads|;
    hide Inv;
    TakeShardThread(s, i, k, pc);
    hide ThreadOk;
    TakeShard(s, i, k, pc);
  }

  lemma WantOutKeeps(s: Sink, a: Step)
    requires Inv(s) && Enabled(s, a) && s.threads[a.i].WantOut?
    ensures Inv(Next(s, a))
  {
    var i, pc := a.i, s.threads[a.i];
    assert ThreadOk(s, i) && |s.wrote| == |s.returned| == |s.threads|;
    hide Inv, Of, FindShard;
    TakeOut(s, i, Output(pc.k, pc.after, 0, |s.shards[pc.k].buffer|));
  }

  lemma VisitKeeps(s: Sink, a: Step)
    requires Inv(s) && Enabled(s, a) && s.threads[a.i].Visit?
    ensures Inv(Next(s, a))
  {
    var i, f := a.i, s.threads[a.i].f;
    assert ThreadOk(s, i) && |s.wrote| == |s.returned| == |s.threads|;
    hide Inv, Of, FindShard;
    if f.j < f.n {
      TakeShardThread(s, i, f.j, Check(f.j, GoOn(f)));
      hide ThreadOk;
      TakeShard(s, i, f.j, Check(f.j, GoOn(f)));
    } else {
      TakeOut(s, i, Syncing(f));
    }
  }

  lemma TakeShardThread(s: Sink, i: nat, k: nat, pc: Pc)
    requires i < |s.threads| && k < |s.shards| && |s.wrote| == |s.returned| == |s.threads| && ThreadOk(s, i)
    requires || (s.threads[i].LockShard? && s.threads[i].k == k && pc == Append(s.threads[i].e, k, 0))
             || (s.threads[i].Visit? && s.threads[i].f.j == k < s.threads[i].f.n &&
                 pc == Check(k, GoOn(s.threads[i].f)))
    ensures ThreadOk(SetPc(SetShard(s, k, s.shards[k].(holder := Some(i))), i, pc), i)
  {
    hide Of;
    var t := SetPc(SetShard(s, k, s.shards[k].(holder := Some(i))), i, pc);
    forall j: nat ensures FindShard(t.shards, j) == FindShard(s.shards, j) {
      FindSame(t.shards, s.shards, j);
    }
    hide FindShard;
  }

  lemma UnlockThread(s: Sink, t: Sink, i: nat, k: nat, after: Then, ok: bool)
    requires i < |s.threads| && k < |s.shards| && |s.wrote| == |s.returned| == |s.threads| && s.threshold > 0
    requires s.threads[i] == Cleared(k, after) && ThreadOk(s, i)
    requires t == SetPc(s, i, Unlock(k, after, ok)).(outHolder := None)
    ensures ThreadOk(t, i)
  {
    AfterSame(s, t, i, k, after, true);
    hide AfterOk;
  }

  lemma ClearedKeeps(s: Sink, a: Step)
    requires Inv(s) && Enabled(s, a) && s.threads[a.i].Cleared?
    ensures Inv(Next(s, a))
  {
    var i, k, after := a.i, s.threads[a.i].k, s.threads[a.i].after;
    HolderFacts(s, i, k);
    assert s.threshold > 0 && |s.wrote| == |s.returned| == |s.threads|;
    var next := Unlock(k, after, !s.device.failed);
    var t := SetPc(s, i, next).(outHolder := None);
    assert Next(s, a) == t;
    hide Inv, AfterOk, BufferOk, Next, Enabled;
    UnlockThread(s, t, i, k, after, !s.device.failed);
    hide ThreadOk;
    DropOut(s, i, next);
  }

  lemma SyncedKeeps(s: Sink, a: Step)
    requires Inv(s) && Enabled(s, a) && s.threads[a.i].Synced?
    ensures Inv(Next(s, a))
  {
    var i, f := a.i, s.threads[a.i].f;
    SyncedDelivers(s, i, f);
    assert HoldsOut(s.threads[i]) && s.outHolder == Some(i);
    assert |s.wrote| == |s.returned| == |s.threads|;
    var next := Flushed(f.marks, !s.device.failed && f.ok, |s.sent|);
    var t := SetPc(s, i, next).(outHolder := None);
    hide Inv, Of, Flatten;
    assert ThreadOk(t, i);
    hide ThreadOk, Delivered;
    DropOut(s, i, next);
  }

  lemma SyncKeeps(s: Sink, a: Step)
    requires Inv(s) && Enabled(s, a) && s.threads[a.i].Syncing?
    ensures Inv(Next(s, a))
  {
    var i, f := a.i, s.threads[a.i].f;
    assert ThreadOk(s, i);
    assert |s.wrote| == |s.returned| == |s.threads|;
    hide Inv;
    PcMove(s, i, Synced(f));
    BreakKeeps(SetPc(s, i, Synced(f)), i, a.breaks);
  }

  lemma StepKeeps(s: Sink, a: Step)
    requires Inv(s) && Enabled(s, a)
    ensures Inv(Next(s, a))
  {
    hide Inv;
    var i, pc := a.i, s.threads[a.i];
    match pc {
      case Locate(_) => LocateKeeps(s, a);
      case LockShard(_, _) => LockShardKeeps(s, a);
      case Visit(_) => VisitKeeps(s, a);
      case WantOut(_, _) => WantOutKeeps(s, a);
      case Append(e, k, next) => AppendKeeps(s, i, e, k, next);
      case Test(_) => TestKeeps(s, a);
      case Check(_, _) => CheckKeeps(s, a);
      case Output(k, after, done, total) =>
        if done < total {
          ChunkKeeps(s, i, k, after, done, total, a.chunk);
        } else {
          ClearKeeps(s, i, k, after, done, total);
        }
      case Cleared(_, _) => ClearedKeeps(s, a);
      case Synced(_) => SyncedKeeps(s, a);
      case Unlock(k, after, ok) => ReleaseKeeps(s, i, k, after, ok);
      case Syncing(_) => SyncKeeps(s, a);
      case Idle => OutsideKeeps(s, a);
      case Snapshot(_) => OutsideKeeps(s, a);
      case Flushed(_, _, _) => OutsideKeeps(s, a);
    }
  }

  lemma {:induction false} RunKeeps(s: Sink, acts: seq<Step>, t: Sink)
    requires Inv(s) && Leads(s, acts, t)
    ensures Inv(t)
    decreases |acts|
  {
    hide Inv, Next, Enabled;
    if |acts| > 0 {
      StepKeeps(s, acts[0]);
      RunKeeps(Next(s, acts[0]), acts[1..], t);
    }
  }

  // ------------------------------------------------------------------- results

  ghost predicate Reaches(threshold: nat, threads: nat, room: nat, acts: seq<Step>, s: Sink) {
    threshold > 0 && Leads(Start(threshold, threads, room), acts, s)
  }

  lemma ReachedInv(threshold: nat, threads: nat, room: nat, acts: seq<Step>, s: Sink)
    requires Reaches(threshold, threads, room, acts, s)
    ensures Inv(s)
  {
    StartInv(threshold, threads, room);
    RunKeeps(Start(threshold, threads, room), acts, s);
  }

  /** No two threads are inside the critical sections of one shard, or of the stream. */
  lemma SectionsExclude(threshold: nat, threads: nat, room: nat, acts: seq<Step>, s: Sink, i: nat, j: nat)
    requires Reaches(threshold, threads, room, acts, s) && i < |s.threads| && j < |s.threads|
    ensures HoldsOut(s.threads[i]) && HoldsOut(s.threads[j]) ==> i == j
    ensures forall k: nat :: HoldsShard(s.threads[i], k) && HoldsShard(s.threads[j], k) ==> i == j
  {
    ReachedInv(threshold, threads, room, acts, s);
    forall k: nat | HoldsShard(s.threads[i], k) && HoldsShard(s.threads[j], k) ensures i == j {
      HolderFacts(s, i, k);
      HolderFacts(s, j, k);
    }
  }

  /** In every reachable state a healthy stream holds whole lines and, behind them, at
      most the start of the one buffer that the holder of the output lock is writing;
      a failed one holds a prefix of that. */
  lemma StreamIsWholeLines(threshold: nat, threads: nat, room: nat, acts: seq<Step>, s: Sink)
    requires Reaches(threshold, threads, room, acts, s)
    ensures s.device.bytes <= Flatten(Lines(s.sent)) + InFlight(s)
    ensures !s.device.failed ==> s.device.bytes == Flatten(Lines(s.sent)) + InFlight(s)
    ensures InFlight(s) != "" ==>
              && s.outHolder.Some? && s.outHolder.value < |s.threads|
              && var pc := s.threads[s.outHolder.value];
                 && pc.Output? && pc.k < |s.shards| && s.shards[pc.k].holder == s.outHolder
                 && InFlight(s) <= s.shards[pc.k].buffer == Flatten(s.shards[pc.k].lines)
  {
    ReachedInv(threshold, threads, room, acts, s);
    if InFlight(s) != "" {
      var i := s.outHolder.value;
      assert ThreadOk(s, i);
      HolderFacts(s, i, s.threads[i].k);
      hide Flatten;
      assert Partial(s, s.threads[i].k) == "";
    }
  }

  /** In every reachable state, per thread: the lines that left its buffer, followed by
      those in it, are all the lines it wrote, in order; its buffer is those lines
      and, while it is appending, the first parts of its record; and an unlocked
      buffer is below the threshold. */
  lemma NothingIsLost(threshold: nat, threads: nat, room: nat, acts: seq<Step>, s: Sink)
    requires Reaches(threshold, threads, room, acts, s)
    ensures forall i: nat :: i < |s.wrote| ==> Of(s.sent, i) + Held(s.shards, i) == s.wrote[i]
    ensures forall k: nat :: k < |s.shards| ==> s.shards[k].buffer == Flatten(s.shards[k].lines) + Partial(s, k)
    ensures forall k: nat :: k < |s.shards| && s.shards[k].holder == None ==>
              s.shards[k].buffer == Flatten(s.shards[k].lines) && |s.shards[k].buffer| < s.threshold
  {
    ReachedInv(threshold, threads, room, acts, s);
    forall k: nat | k < |s.shards|
      ensures s.shards[k].buffer == Flatten(s.shards[k].lines) + Partial(s, k)
      ensures s.shards[k].holder == None ==>
                s.shards[k].buffer == Flatten(s.shards[k].lines) && |s.shards[k].buffer| < s.threshold
    {
      assert BufferOk(s, k);
    }
  }

  /** A flush that returns true has put on the stream every record whose write had
      returned when the flush began. */
  lemma FlushDelivers(threshold: nat, threads: nat, room: nat, acts: seq<Step>, s: Sink, i: nat)
    requires Reaches(threshold, threads, room, acts, s)
    requires i < |s.threads| && s.threads[i].Flushed? && s.threads[i].healthy
    ensures Delivered(s, s.threads[i].marks, true, s.threads[i].upTo)
  {
    ReachedInv(threshold, threads, room, acts, s);
    assert ThreadOk(s, i);
  }

  // -------------------------------------------------------------------- progress

  /** Locks are held by threads that exist. */
  ghost predicate HoldersExist(s: Sink) {
    && (s.outHolder.Some? ==> s.outHolder.value < |s.threads|)
    && forall k :: 0 <= k < |s.shards| && s.shards[k].holder.Some? ==> s.shards[k].holder.value < |s.threads|
  }

  /** A step takes locks for its own thread only. */
  ghost predicate TakesForItself(s: Sink, t: Sink, i: nat) {
    && |t.threads| == |s.threads|
    && (t.outHolder == s.outHolder || t.outHolder == None || t.outHolder == Some(i))
    && forall k :: 0 <= k < |t.shards| ==>
         || (k < |s.shards| && t.shards[k].holder == s.shards[k].holder)
         || t.shards[k].holder == None || t.shards[k].holder == Some(i)
  }

  lemma StepTakesForItself(s: Sink, a: Step)
    requires Enabled(s, a)
    ensures TakesForItself(s, Next(s, a), a.i)
  {
    hide FindShard, Clip, Parts, Line, Accept, Tag;
    match s.threads[a.i]
    case Append(_, _, _) =>
    case Output(_, _, _, _) =>
    case Unlock(_, _, _) =>
    case _ => hide AppendPart, WriteChunk, ClearBuffer, Release;
  }

  lemma HoldersStay(s: Sink, a: Step)
    requires HoldersExist(s) && Enabled(s, a)
    ensures HoldersExist(Next(s, a))
  {
    StepTakesForItself(s, a);
    assert a.i < |s.threads|;
    hide Next, Enabled;
  }

  lemma {:induction false} RunHolders(s: Sink, acts: seq<Step>, t: Sink)
    requires HoldersExist(s) && Leads(s, acts, t)
    ensures HoldersExist(t)
    decreases |acts|
  {
    hide HoldersExist, Next, Enabled;
    if |acts| > 0 {
      HoldersStay(s, acts[0]);
      RunHolders(Next(s, acts[0]), acts[1..], t);
    }
  }

  /** No deadlock, although a thread takes the output lock while it holds a shard's: one
      that cannot step waits for a thread that can, or for one that holds a shard's lock
      and itself waits for the holder of the output lock, which can. */
  lemma ThreadsAreNeverStuck(threshold: nat, threads: nat, room: nat, acts: seq<Step>, s: Sink, a: Step)
    requires Reaches(threshold, threads, room, acts, s) && a.i < |s.threads| && !Enabled(s, a)
    ensures exists j: nat :: j < |s.threads| && j != a.i && Enabled(s, a.(i := j))
  {
    ReachedInv(threshold, threads, room, acts, s);
    RunHolders(Start(threshold, threads, room), acts, s);
    assert ThreadOk(s, a.i);
    if s.outHolder.Some? { OutHolderSteps(s, a.(i := s.outHolder.value)); }
    forall k: nat | k < |s.shards| && s.shards[k].holder.Some?
      ensures Enabled(s, a.(i := s.shards[k].holder.value)) || s.outHolder.Some?
    {
      ShardHolderSteps(s, k, a.(i := s.shards[k].holder.value));
    }
    hide Inv, ThreadOk;
  }

  lemma OutHolderSteps(s: Sink, a: Step)
    requires Inv(s) && s.outHolder == Some(a.i) && a.i < |s.threads|
    ensures Enabled(s, a)
  {
    assert HoldsOut(s.threads[a.i]) && ThreadOk(s, a.i);
  }

  lemma ShardHolderSteps(s: Sink, k: nat, a: Step)
    requires Inv(s) && k < |s.shards| && s.shards[k].holder == Some(a.i) && a.i < |s.threads|
    ensures Enabled(s, a) || s.outHolder.Some?
  {
    assert HoldsShard(s.threads[a.i], k) && ThreadOk(s, a.i);
  }
}
