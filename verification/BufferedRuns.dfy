/** The buffered sink as an object: what its methods require of the cache is what the
    cache over many sinks guarantees, and what they do is what a thread's steps do. */
module BufferedRuns {
  import opened Common
  import opened TextRecord
  import opened BufferedMachine
  import S = BufferedSafety
  import opened BufferedSinkObject
  import C = ShardCache

  // ----------------------------------------------------------------------- cache

  /** The sink at address a and the cache of the thread are those of the state; no two
      shards have one address. */
  ghost predicate CacheImage(sink: BufferedSink, cache: ThreadCache, producer: nat, s: C.State, a: nat,
      addressOf: map<BufferShard, nat>)
    reads sink, cache
  {
    && a in s.sinks && s.sinks[a].id == sink.instanceId && |s.sinks[a].shards| == |sink.shards|
    && (forall k :: 0 <= k < |sink.shards| ==>
          && sink.shards[k] in addressOf
          && s.sinks[a].shards[k] == C.Shard(addressOf[sink.shards[k]], sink.shards[k].producer))
    && (forall x, y :: x in addressOf && y in addressOf && addressOf[x] == addressOf[y] ==> x == y)
    && producer in s.threads && s.threads[producer].storing == None
    && s.threads[producer].cachedId == cache.instanceId
    && (cache.shard != null ==> cache.shard in addressOf)
    && s.threads[producer].cachedShard == if cache.shard == null then None else Some(addressOf[cache.shard])
  }

  /** After any history of sinks and threads a sink may rely on the caller's cache. */
  lemma CacheMayBeTrusted(es: seq<C.Event>, s: C.State, sink: BufferedSink, cache: ThreadCache, producer: nat, a: nat,
      addressOf: map<BufferShard, nat>)
    requires C.Run(C.INIT, es, s) && CacheImage(sink, cache, producer, s, a, addressOf)
    ensures sink.CacheOk(cache, producer)
  {
    if cache.instanceId == sink.instanceId {
      var e := C.Hit(a, producer);
      C.LookupIsExact(es, s, e);
      var k := C.Find(s.sinks[a].shards, producer);
      assert addressOf[sink.shards[k]] == addressOf[cache.shard];
    }
  }

  // ------------------------------------------------------------------------ runs

  /** From `o` the given steps lead to `m`, where the invariant holds. */
  ghost predicate Follows(o: Sink, acts: seq<Step>, m: Sink) { Leads(o, acts, m) && Inv(m) }

  lemma {:induction false} LeadsOn(o: Sink, acts: seq<Step>, m: Sink, a: Step)
    requires Leads(o, acts, m) && Enabled(m, a)
    ensures Leads(o, acts + [a], Next(m, a))
    decreases |acts|
  {
    hide Enabled, Next;
    var all := acts + [a];
    if |acts| == 0 {
      assert all[1..] == [] && Leads(Next(m, a), [], Next(m, a));
    } else {
      assert all[1..] == acts[1..] + [a];
      LeadsOn(Next(o, acts[0]), acts[1..], m, a);
    }
  }

  lemma FollowsOn(o: Sink, acts: seq<Step>, m: Sink, a: Step)
    requires Follows(o, acts, m) && Enabled(m, a)
    ensures Follows(o, acts + [a], Next(m, a))
  {
    hide Leads, Inv, Enabled, Next;
    LeadsOn(o, acts, m, a);
    S.StepKeeps(m, a);
  }

  lemma FollowsNowhere(m: Sink)
    requires Inv(m)
    ensures Follows(m, [], m)
  {
    hide Inv;
  }

  /** Nobody is in the middle of anything. */
  ghost predicate AtRest(m: Sink) {
    m.outHolder == None && forall k :: 0 <= k < |m.shards| ==> m.shards[k].holder == None
  }

  function Quiet(i: nat, n: nat): Step { Step(i, CallFlush, n, false) }

  /** The registry with a shard for thread i. */
  function Registered(shards: seq<Shard>, i: nat): seq<Shard> {
    if FindShard(shards, i) < |shards| then shards else shards + [Shard(i, "", None, [])]
  }

  /** A thread that writes reaches its own shard and locks it. */
  lemma EnterRun(m: Sink, i: nat, e: Entry) returns (acts: seq<Step>, t: Sink)
    requires Inv(m) && AtRest(m) && i < |m.threads| && m.threads[i].Idle?
    ensures Follows(m, acts, t)
    ensures var k, shards := FindShard(m.shards, i), Registered(m.shards, i);
            && k < |shards| && shards[k].producer == i
            && t == m.(threads := m.threads[i := Append(e, k, 0)],
                       shards := shards[k := shards[k].(holder := Some(i))])
  {
    hide Inv, Leads;
    var a := Step(i, CallWrite(e), 0, false);
    assert |m.wrote| == |m.returned| == |m.threads| by { assert HistoryOk(m) by { InvHistory(m); } }
    FollowsNowhere(m);
    FollowsOn(m, [], m, a);
    acts, t := [] + [a], Next(m, a);
    hide Follows;
    FollowsOn(m, acts, t, a);
    acts, t := acts + [a], Next(t, a);
    FollowsOn(m, acts, t, a);
    acts, t := acts + [a], Next(t, a);
  }

  lemma InvHistory(m: Sink)
    requires Inv(m)
    ensures HistoryOk(m) && m.threshold > 0
  {
  }

  /** Thread i has appended the rest of its record. */
  ghost predicate Appended(m: Sink, t: Sink, i: nat) {
    && i < |m.threads| && i < |m.wrote| && m.threads[i].Append?
    && var Append(e, k, next) := m.threads[i];
       && k < |m.shards| && next < |Parts(e)|
       && var x := m.shards[k];
          t == m.(threads := m.threads[i := Test(k)], wrote := m.wrote[i := m.wrote[i] + [Line(e)]],
                  shards := m.shards[k := x.(buffer := x.buffer + Flatten(Parts(e)[next..]),
                                             lines := x.lines + [Line(e)])])
  }

  lemma AppendOne(m: Sink, i: nat)
    requires Inv(m) && i < |m.threads| && m.threads[i].Append?
    ensures i < |m.wrote| && Enabled(m, Quiet(i, 0))
    ensures var Append(e, k, next) := m.threads[i];
            && k < |m.shards| && next < |Parts(e)|
            && var x, u := m.shards[k], Next(m, Quiet(i, 0));
               if next + 1 < |Parts(e)| then
                 u == m.(threads := m.threads[i := Append(e, k, next + 1)],
                         shards := m.shards[k := x.(buffer := x.buffer + Parts(e)[next])])
               else
                 u == m.(threads := m.threads[i := Test(k)], wrote := m.wrote[i := m.wrote[i] + [Line(e)]],
                         shards := m.shards[k := x.(buffer := x.buffer + Parts(e)[next], lines := x.lines + [Line(e)])])
  {
    AppendReady(m, i);
    hide Inv, Line, Parts;
  }

  lemma AppendedBefore(m: Sink, u: Sink, t: Sink, i: nat)
    requires i < |m.threads| && i < |m.wrote| && m.threads[i].Append?
    requires var Append(e, k, next) := m.threads[i];
             && k < |m.shards| && next + 1 < |Parts(e)|
             && u == m.(threads := m.threads[i := Append(e, k, next + 1)],
                        shards := m.shards[k := m.shards[k].(buffer := m.shards[k].buffer + Parts(e)[next])])
    requires Appended(u, t, i)
    ensures Appended(m, t, i)
  {
    var Append(e, k, next) := m.threads[i];
    hide Line, Parts, Flatten;
    FlattenFront(Parts(e)[next..]);
    assert Parts(e)[next..][1..] == Parts(e)[next + 1..];
    Regroup(m.shards[k].buffer, Parts(e)[next], Flatten(Parts(e)[next + 1..]));
  }

  lemma AppendedLast(m: Sink, u: Sink, i: nat)
    requires i < |m.threads| && i < |m.wrote| && m.threads[i].Append?
    requires var Append(e, k, next) := m.threads[i];
             && k < |m.shards| && next + 1 == |Parts(e)|
             && var x := m.shards[k];
                u == m.(threads := m.threads[i := Test(k)], wrote := m.wrote[i := m.wrote[i] + [Line(e)]],
                        shards := m.shards[k := x.(buffer := x.buffer + Parts(e)[next], lines := x.lines + [Line(e)])])
    ensures Appended(m, u, i)
  {
    var Append(e, k, next) := m.threads[i];
    hide Line, Parts, Flatten;
    FlattenFront(Parts(e)[next..]);
    assert Parts(e)[next..][1..] == [];
    FlattenNothing();
    assert Parts(e)[next] + "" == Parts(e)[next];
  }

  /** It appends all parts of its record. */
  lemma {:induction false} AppendRun(o: Sink, before: seq<Step>, m: Sink, i: nat) returns (acts: seq<Step>, t: Sink)
    requires Follows(o, before, m) && i < |m.threads| && m.threads[i].Append?
    ensures Follows(o, acts, t) && Appended(m, t, i)
    decreases |Parts(m.threads[i].e)| - m.threads[i].next
  {
    var a := Quiet(i, 0);
    AppendOne(m, i);
    FollowsOn(o, before, m, a);
    hide Follows, Line, Parts, Inv, Next, Enabled, Appended, Flatten;
    var u := Next(m, a);
    if m.threads[i].next + 1 == |Parts(m.threads[i].e)| {
      acts, t := before + [a], u;
      AppendedLast(m, u, i);
    } else {
      acts, t := AppendRun(o, before + [a], u, i);
      AppendedBefore(m, u, t, i);
    }
  }

  lemma AppendReady(m: Sink, i: nat)
    requires Inv(m) && i < |m.threads| && m.threads[i].Append?
    ensures m.threads[i].k < |m.shards| && m.threads[i].next < |Parts(m.threads[i].e)| && i < |m.wrote|
    ensures Enabled(m, Quiet(i, 0))
  {
    assert ThreadOk(m, i);
  }

  lemma FlattenNothing()
    ensures Flatten([]) == ""
  {
  }

  lemma FlattenFront(parts: seq<string>)
    requires |parts| > 0
    ensures Flatten(parts) == parts[0] + Flatten(parts[1..])
  {
    FlattenConcat([parts[0]], parts[1..]);
    FlattenPush([], parts[0]);
    FlattenNothing();
    hide Flatten;
    assert [parts[0]] + parts[1..] == parts && [] + [parts[0]] == [parts[0]];
    assert "" + parts[0] == parts[0];
  }

  lemma Regroup(a: string, b: string, c: string)
    ensures a + b + c == a + (b + c)
  {
  }

  /** What `flush_shard` leaves of a shard and of the stream. */
  function FlushedDevice(d: Device, buffer: string): Device { if buffer == "" then d else Accept(d, buffer) }

  // The states that `flush_shard` on shard k goes through when it runs alone.

  function Wanting(m: Sink, i: nat, k: nat, after: Then): Sink
    requires i < |m.threads|
  {
    SetPc(m, i, WantOut(k, after))
  }

  function Writing(m: Sink, i: nat, k: nat, after: Then, n: nat): Sink
    requires i < |m.threads|
  {
    SetPc(m, i, Output(k, after, 0, n)).(outHolder := Some(i))
  }

  function Offering(m: Sink, i: nat, k: nat, after: Then, n: nat): Sink
    requires i < |m.threads| && k < |m.shards|
  {
    SetPc(m, i, Output(k, after, n, n)).(outHolder := Some(i), device := Accept(m.device, m.shards[k].buffer))
  }

  function Clearing(m: Sink, i: nat, k: nat, after: Then): Sink
    requires i < |m.threads| && k < |m.shards|
  {
    var x := m.shards[k];
    SetPc(SetShard(m, k, x.(buffer := "", lines := [])), i, Cleared(k, after)).(
      outHolder := Some(i), device := Accept(m.device, x.buffer), sent := m.sent + Tag(x.producer, x.lines))
  }

  function Leaving(m: Sink, i: nat, k: nat, after: Then): Sink
    requires i < |m.threads| && k < |m.shards|
  {
    var t := Clearing(m, i, k, after);
    SetPc(t, i, Unlock(k, after, !t.device.failed)).(outHolder := m.outHolder)
  }

  lemma WriteSteps(m: Sink, i: nat, k: nat, after: Then, n: nat)
    requires i < |m.threads| && i < |m.wrote| && i < |m.returned| && m.threads[i] == Check(k, after)
    requires k < |m.shards| && n == |m.shards[k].buffer| > 0 && m.outHolder == None
    ensures Enabled(m, Quiet(i, n)) && Next(m, Quiet(i, n)) == Wanting(m, i, k, after)
    ensures Enabled(Wanting(m, i, k, after), Quiet(i, n))
    ensures Next(Wanting(m, i, k, after), Quiet(i, n)) == Writing(m, i, k, after, n)
  {
    assert m.threads[i := WantOut(k, after)][i := Output(k, after, 0, n)] == m.threads[i := Output(k, after, 0, n)];
  }

  lemma OfferStep(m: Sink, i: nat, k: nat, after: Then, n: nat)
    requires i < |m.threads| && i < |m.wrote| && i < |m.returned|
    requires k < |m.shards| && n == |m.shards[k].buffer| > 0
    ensures Enabled(Writing(m, i, k, after, n), Quiet(i, n))
    ensures Next(Writing(m, i, k, after, n), Quiet(i, n)) == Offering(m, i, k, after, n)
  {
    assert Clip(m.shards[k].buffer, 0, n) == m.shards[k].buffer;
    hide Accept, Clip;
    assert m.threads[i := Output(k, after, 0, n)][i := Output(k, after, n, n)] ==
           m.threads[i := Output(k, after, n, n)];
  }

  lemma ClearSteps(m: Sink, i: nat, k: nat, after: Then, n: nat)
    requires i < |m.threads| && i < |m.wrote| && i < |m.returned| && k < |m.shards| && m.outHolder == None
    ensures Enabled(Offering(m, i, k, after, n), Quiet(i, n))
    ensures Next(Offering(m, i, k, after, n), Quiet(i, n)) == Clearing(m, i, k, after)
    ensures Enabled(Clearing(m, i, k, after), Quiet(i, n))
    ensures Next(Clearing(m, i, k, after), Quiet(i, n)) == Leaving(m, i, k, after)
  {
    hide Accept, Clip, Tag;
    assert m.threads[i := Output(k, after, n, n)][i := Cleared(k, after)] == m.threads[i := Cleared(k, after)];
  }

  /** `flush_shard`, run alone from its test to the release of the output lock. */
  lemma FlushShardRun(o: Sink, before: seq<Step>, m: Sink, i: nat, k: nat, after: Then)
    returns (acts: seq<Step>, t: Sink)
    requires Follows(o, before, m) && i < |m.threads| && m.threads[i] == Check(k, after) && m.outHolder == None
    ensures Follows(o, acts, t) && k < |m.shards|
    ensures t == if m.shards[k].buffer == "" then SetPc(m, i, Unlock(k, after, true)) else Leaving(m, i, k, after)
  {
    CheckFacts(m, i, k, after);
    hide Inv, Leads, Enabled, Next, Leaving, Clearing, Offering, Writing, Wanting;
    var n := |m.shards[k].buffer|;
    var a := Quiet(i, n);
    if n > 0 {
      WriteSteps(m, i, k, after, n);
      OfferStep(m, i, k, after, n);
      ClearSteps(m, i, k, after, n);
    } else {
      EmptyStep(m, i, k, after);
    }
    FollowsOn(o, before, m, a);
    acts, t := before + [a], Next(m, a);
    if n > 0 {
      hide Follows;
      FollowsOn(o, acts, t, a);
      acts, t := acts + [a], Next(t, a);
      FollowsOn(o, acts, t, a);
      acts, t := acts + [a], Next(t, a);
      FollowsOn(o, acts, t, a);
      acts, t := acts + [a], Next(t, a);
      FollowsOn(o, acts, t, a);
      acts, t := acts + [a], Next(t, a);
    }
  }

  lemma CheckFacts(m: Sink, i: nat, k: nat, after: Then)
    requires Inv(m) && i < |m.threads| && m.threads[i] == Check(k, after)
    ensures k < |m.shards| && i < |m.wrote| && i < |m.returned|
  {
    assert ThreadOk(m, i);
  }

  lemma EmptyStep(m: Sink, i: nat, k: nat, after: Then)
    requires i < |m.threads| && i < |m.wrote| && i < |m.returned| && m.threads[i] == Check(k, after)
    requires k < |m.shards| && m.shards[k].buffer == ""
    ensures Enabled(m, Quiet(i, 0)) && Next(m, Quiet(i, 0)) == SetPc(m, i, Unlock(k, after, true))
  {
  }

  /** The lock of the shard is dropped: the write has returned, or the flush goes on. */
  lemma ReleaseRun(o: Sink, before: seq<Step>, m: Sink, i: nat, k: nat, after: Then, ok: bool)
    returns (acts: seq<Step>, t: Sink)
    requires Follows(o, before, m) && i < |m.threads| && m.threads[i] == Unlock(k, after, ok)
    ensures Follows(o, acts, t) && k < |m.shards| && |t.threads| == |m.threads|
    ensures t == m.(threads := m.threads[i := t.threads[i]], returned := t.returned,
                    shards := m.shards[k := m.shards[k].(holder := None)])
    ensures t.threads[i] == match after case Return => Idle case GoOn(f) => Visit(f.(j := f.j + 1, ok := ok && f.ok))
  {
    assert Inv(m) && ThreadOk(m, i);
    hide Inv, Leads, AfterOk;
    FollowsOn(o, before, m, Quiet(i, 0));
    acts, t := before + [Quiet(i, 0)], Next(m, Quiet(i, 0));
  }

  /** What a write that runs alone leaves behind. */
  ghost predicate Wrote(m: Sink, t: Sink, i: nat, e: Entry) {
    var k, shards := FindShard(m.shards, i), Registered(m.shards, i);
    && i < |m.threads| && k < |shards| == |t.shards| && t.threads == m.threads && t.threshold == m.threshold
    && t.outHolder == None && (forall j :: 0 <= j < |shards| && j != k ==> t.shards[j] == shards[j])
    && t.shards[k].producer == i && t.shards[k].holder == None
    && var all := shards[k].buffer + Line(e);
       if |all| < m.threshold then t.shards[k].buffer == all && t.device == m.device
       else t.shards[k].buffer == "" && t.device == Accept(m.device, all)
  }

  lemma TestRun(o: Sink, before: seq<Step>, m: Sink, i: nat, k: nat) returns (acts: seq<Step>, t: Sink)
    requires Follows(o, before, m) && i < |m.threads| && m.threads[i] == Test(k)
    ensures Follows(o, acts, t) && k < |m.shards|
    ensures t == SetPc(m, i, if |m.shards[k].buffer| < m.threshold then Unlock(k, Return, true) else Check(k, Return))
  {
    assert Inv(m) && ThreadOk(m, i);
    hide Inv, Leads;
    FollowsOn(o, before, m, Quiet(i, 0));
    acts, t := before + [Quiet(i, 0)], Next(m, Quiet(i, 0));
  }

  /** Behind the append: the record is in the buffer, and the lock is still held. */
  function Filled(m: Sink, i: nat, e: Entry): Sink
    requires i < |m.threads| && i < |m.wrote|
  {
    var k, shards := FindShard(m.shards, i), Registered(m.shards, i);
    var x := shards[k];
    m.(threads := m.threads[i := Test(k)], wrote := m.wrote[i := m.wrote[i] + [Line(e)]],
       shards := shards[k := Shard(i, x.buffer + Line(e), Some(i), x.lines + [Line(e)])])
  }

  lemma FillRun(m: Sink, i: nat, e: Entry) returns (acts: seq<Step>, t: Sink)
    requires Inv(m) && AtRest(m) && i < |m.threads| && m.threads[i].Idle?
    ensures i < |m.wrote| && Follows(m, acts, t) && t == Filled(m, i, e)
  {
    InvHistory(m);
    hide Inv, Line, Parts, Flatten, Follows, FindShard;
    acts, t := EnterRun(m, i, e);
    var u := t;
    acts, t := AppendRun(m, acts, u, i);
    PartsMakeLine(e);
    assert Parts(e)[0..] == Parts(e);
    FilledIsAppended(m, u, t, i, e);
  }

  lemma FilledIsAppended(m: Sink, u: Sink, t: Sink, i: nat, e: Entry)
    requires i < |m.threads| && i < |m.wrote| && Flatten(Parts(e)[0..]) == Line(e)
    requires var k, shards := FindShard(m.shards, i), Registered(m.shards, i);
             && k < |shards| && shards[k].producer == i
             && u == m.(threads := m.threads[i := Append(e, k, 0)],
                        shards := shards[k := shards[k].(holder := Some(i))])
    requires Appended(u, t, i)
    ensures t == Filled(m, i, e)
  {
    hide Line, Parts, Flatten, FindShard;
    var k, shards := FindShard(m.shards, i), Registered(m.shards, i);
    assert u.threads[i := Test(k)] == m.threads[i := Test(k)];
    var x := Shard(i, shards[k].buffer + Line(e), Some(i), shards[k].lines + [Line(e)]);
    assert u.shards[k := x] == shards[k := x];
  }

  /** A whole `write` of a thread that runs alone. */
  lemma WriteRun(m: Sink, i: nat, e: Entry) returns (acts: seq<Step>, t: Sink)
    requires Inv(m) && AtRest(m) && i < |m.threads| && m.threads[i].Idle?
    ensures Follows(m, acts, t) && Wrote(m, t, i, e)
  {
    hide Inv, Line, Follows, Leaving, Filled, Wrote;
    var k := FindShard(m.shards, i);
    acts, t := FillRun(m, i, e);
    var u := t;
    FilledFacts(m, i, e);
    acts, t := TestRun(m, acts, u, i, k);
    if |u.shards[k].buffer| < m.threshold {
      var v := t;
      acts, t := ReleaseRun(m, acts, v, i, k, Return, true);
      KeptWrote(m, u, v, t, i, e);
    } else {
      var v := t;
      acts, t := FlushShardRun(m, acts, v, i, k, Return);
      var w := t;
      LeavingFacts(v, i, k, Return);
      acts, t := ReleaseRun(m, acts, w, i, k, Return, w.threads[i].ok);
      OutWrote(m, u, v, w, t, i, e);
    }
  }

  lemma FilledFacts(m: Sink, i: nat, e: Entry)
    requires i < |m.threads| && i < |m.wrote|
    ensures var u, k := Filled(m, i, e), FindShard(m.shards, i);
            && k < |u.shards| && i < |u.threads| && u.threads[i] == Test(k)
            && u.threshold == m.threshold && u.shards[k].buffer != ""
            && u.outHolder == m.outHolder && |u.threads| == |m.threads|
  {
    PartsMakeLine(e);
  }

  lemma LeavingFacts(m: Sink, i: nat, k: nat, after: Then)
    requires i < |m.threads| && k < |m.shards|
    ensures var t := Leaving(m, i, k, after);
            && t.threads[i].Unlock? && t.threads[i] == Unlock(k, after, !t.device.failed) && |t.threads| == |m.threads|
            && t.device == Accept(m.device, m.shards[k].buffer) && t.outHolder == m.outHolder
            && t.threshold == m.threshold && t.threads == m.threads[i := t.threads[i]]
            && t.shards == m.shards[k := m.shards[k].(buffer := "", lines := [])]
            && t.wrote == m.wrote && t.returned == m.returned
  {
    hide Accept, Tag;
  }

  lemma KeptWrote(m: Sink, u: Sink, v: Sink, t: Sink, i: nat, e: Entry)
    requires i < |m.threads| && i < |m.wrote| && m.threads[i].Idle? && AtRest(m) && u == Filled(m, i, e)
    requires var k := FindShard(m.shards, i);
             && k < |u.shards| && |u.shards[k].buffer| < m.threshold && v == SetPc(u, i, Unlock(k, Return, true))
             && |t.threads| == |v.threads| && t.threads[i] == Idle
             && t == v.(threads := v.threads[i := Idle], returned := t.returned,
                        shards := v.shards[k := v.shards[k].(holder := None)])
    ensures Wrote(m, t, i, e)
  {
    hide Line, FindShard;
    assert t.threads == m.threads;
  }

  lemma OutWrote(m: Sink, u: Sink, v: Sink, w: Sink, t: Sink, i: nat, e: Entry)
    requires i < |m.threads| && i < |m.wrote| && m.threads[i].Idle? && AtRest(m) && u == Filled(m, i, e)
    requires var k := FindShard(m.shards, i);
             && k < |u.shards| && |u.shards[k].buffer| >= m.threshold && v == SetPc(u, i, Check(k, Return))
             && |w.threads| == |v.threads| && w.threads == v.threads[i := w.threads[i]]
             && w.device == Accept(v.device, v.shards[k].buffer) && w.outHolder == v.outHolder
             && w.threshold == v.threshold && w.shards == v.shards[k := v.shards[k].(buffer := "", lines := [])]
             && |t.threads| == |w.threads| && t.threads[i] == Idle
             && t == w.(threads := w.threads[i := Idle], returned := t.returned,
                        shards := w.shards[k := w.shards[k].(holder := None)])
    ensures Wrote(m, t, i, e)
  {
    hide Line, FindShard, Accept;
    assert t.threads == m.threads;
  }

  // ---------------------------------------------------------------- a whole flush

  function Buffers(m: Sink): (r: seq<string>)
    ensures |r| == |m.shards| && forall k :: 0 <= k < |m.shards| ==> r[k] == m.shards[k].buffer
  {
    seq(|m.shards|, k requires 0 <= k < |m.shards| => m.shards[k].buffer)
  }

  /** Thread i has visited all shards from its j-th on. */
  ghost predicate Visited(m: Sink, t: Sink, i: nat) {
    && i < |m.threads| && m.threads[i].Visit? && |t.threads| == |m.threads| && |t.shards| == |m.shards|
    && var f := m.threads[i].f;
       && f.j <= f.n == |m.shards|
       && t.threads[i].Visit? && t.threads == m.threads[i := t.threads[i]]
       && t.threads[i].f.j == t.threads[i].f.n == f.n && t.threads[i].f.marks == f.marks
       && (t.threads[i].f.ok ==> f.ok) && (f.ok && !t.device.failed ==> t.threads[i].f.ok)
       && t.device == Accept(m.device, Flatten(Buffers(m)[f.j..])) && t.threshold == m.threshold && AtRest(t)
       && forall k :: 0 <= k < |m.shards| ==>
            && t.shards[k].producer == m.shards[k].producer
            && t.shards[k].buffer == if k < f.j then m.shards[k].buffer else ""
  }

  /** Visiting one shard: lock it, write it out, and unlock it. */
  ghost predicate VisitedOne(m: Sink, u: Sink, i: nat) {
    && i < |m.threads| && m.threads[i].Visit? && |u.threads| == |m.threads|
    && var f := m.threads[i].f;
       && f.j < f.n == |m.shards| == |u.shards|
       && u.threads[i].Visit? && u.threads == m.threads[i := u.threads[i]]
       && u.threads[i].f.j == f.j + 1 && u.threads[i].f.n == f.n && u.threads[i].f.marks == f.marks
       && (u.threads[i].f.ok ==> f.ok) && (f.ok && !u.device.failed ==> u.threads[i].f.ok)
       && u.device == Accept(m.device, m.shards[f.j].buffer) && u.threshold == m.threshold && AtRest(u)
       && u.shards == m.shards[f.j := u.shards[f.j]]
       && u.shards[f.j].producer == m.shards[f.j].producer && u.shards[f.j].buffer == ""
  }

  lemma LockStep(o: Sink, before: seq<Step>, m: Sink, i: nat) returns (acts: seq<Step>, t: Sink)
    requires Follows(o, before, m) && AtRest(m) && i < |m.threads| && m.threads[i].Visit?
    requires m.threads[i].f.j < m.threads[i].f.n == |m.shards|
    ensures var f := m.threads[i].f;
            && Follows(o, acts, t)
            && t == SetPc(SetShard(m, f.j, m.shards[f.j].(holder := Some(i))), i, Check(f.j, GoOn(f)))
  {
    InvHistory(m);
    hide Inv, Leads;
    FollowsOn(o, before, m, Quiet(i, 0));
    acts, t := before + [Quiet(i, 0)], Next(m, Quiet(i, 0));
  }

  lemma VisitRun(o: Sink, before: seq<Step>, m: Sink, i: nat) returns (acts: seq<Step>, t: Sink)
    requires Follows(o, before, m) && AtRest(m) && i < |m.threads| && m.threads[i].Visit?
    requires m.threads[i].f.j < m.threads[i].f.n == |m.shards|
    ensures Follows(o, acts, t) && VisitedOne(m, t, i)
  {
    hide Inv, Follows, Leaving;
    var f := m.threads[i].f;
    acts, t := LockStep(o, before, m, i);
    var u := t;
    acts, t := FlushShardRun(o, acts, u, i, f.j, GoOn(f));
    var v := t;
    LeavingFacts(u, i, f.j, GoOn(f));
    acts, t := ReleaseRun(o, acts, v, i, f.j, GoOn(f), v.threads[i].ok);
    AcceptNothing(m.device);
    FlattenNothing();
    hide Accept;
    assert t.threads == m.threads[i := t.threads[i]];
    assert t.shards == m.shards[f.j := t.shards[f.j]];
  }

  lemma VisitedDevice(m: Sink, u: Sink, i: nat)
    requires VisitedOne(m, u, i)
    ensures var j, rest := m.threads[i].f.j, Flatten(Buffers(u)[m.threads[i].f.j + 1..]);
            && Accept(u.device, rest) == Accept(m.device, Flatten(Buffers(m)[j..]))
            && (u.device.failed ==> Accept(u.device, rest).failed)
  {
    var j := m.threads[i].f.j;
    FlattenFront(Buffers(m)[j..]);
    assert Buffers(m)[j..][1..] == Buffers(u)[j + 1..];
    AcceptConcat(m.device, m.shards[j].buffer, Flatten(Buffers(u)[j + 1..]));
    FailureStays(u.device, Flatten(Buffers(u)[j + 1..]));
    hide Accept, Flatten;
  }

  lemma FailureStays(d: Device, text: string)
    ensures d.failed ==> Accept(d, text).failed
  {
  }

  lemma VisitedBefore(m: Sink, u: Sink, t: Sink, i: nat)
    requires VisitedOne(m, u, i) && Visited(u, t, i)
    ensures Visited(m, t, i)
  {
    VisitedDevice(m, u, i);
    hide Accept, Flatten, Buffers, AtRest;
    assert t.threads == m.threads[i := t.threads[i]];
  }

  lemma {:induction false} VisitsRun(o: Sink, before: seq<Step>, m: Sink, i: nat) returns (acts: seq<Step>, t: Sink)
    requires Follows(o, before, m) && AtRest(m) && i < |m.threads| && m.threads[i].Visit?
    requires m.threads[i].f.j <= m.threads[i].f.n == |m.shards|
    ensures Follows(o, acts, t) && Visited(m, t, i)
    decreases m.threads[i].f.n - m.threads[i].f.j
  {
    hide Inv, Follows;
    if m.threads[i].f.j == m.threads[i].f.n {
      acts, t := before, m;
      assert Buffers(m)[m.threads[i].f.j..] == [];
      AcceptNothing(m.device);
      assert m.threads[i := m.threads[i]] == m.threads;
    } else {
      var u;
      acts, u := VisitRun(o, before, m, i);
      acts, t := VisitsRun(o, acts, u, i);
      hide AtRest, Accept, Flatten;
      VisitedBefore(m, u, t, i);
    }
  }

  /** What a flush that runs alone leaves behind. */
  ghost predicate FlushedAll(m: Sink, t: Sink, i: nat, breaks: bool) {
    && i < |m.threads| && |t.threads| == |m.threads| && |t.shards| == |m.shards| && AtRest(t)
    && t.threads[i].Flushed? && t.threads == m.threads[i := t.threads[i]] && t.threshold == m.threshold
    && (t.threads[i].healthy <==> !t.device.failed)
    && t.device == Break(Accept(m.device, Flatten(Buffers(m))), breaks)
    && forall k :: 0 <= k < |m.shards| ==> t.shards[k].producer == m.shards[k].producer && t.shards[k].buffer == ""
  }

  /** A whole `flush` of a thread that runs alone. */
  lemma FlushRun(m: Sink, i: nat, breaks: bool) returns (acts: seq<Step>, t: Sink)
    requires Inv(m) && AtRest(m) && i < |m.threads| && m.threads[i].Idle?
    ensures Follows(m, acts, t) && FlushedAll(m, t, i, breaks)
  {
    InvHistory(m);
    FollowsNowhere(m);
    hide Inv, Leads;
    var a := Step(i, CallFlush, 0, breaks);
    FollowsOn(m, [], m, a);
    acts, t := [] + [a], Next(m, a);
    hide Follows;
    FollowsOn(m, acts, t, a);
    acts, t := acts + [a], Next(t, a);
    var u := t;
    assert u == SetPc(m, i, Visit(Flush(m.returned, |m.shards|, 0, true)));
    acts, t := VisitsRun(m, acts, u, i);
    acts, t := EndRun(m, acts, t, i, breaks, m, u);
  }

  lemma EndRun(o: Sink, before: seq<Step>, v: Sink, i: nat, breaks: bool, m: Sink, u: Sink)
    returns (acts: seq<Step>, t: Sink)
    requires Follows(o, before, v) && Visited(u, v, i) && i < |m.threads|
    requires u == SetPc(m, i, Visit(Flush(m.returned, |m.shards|, 0, true)))
    ensures Follows(o, acts, t) && FlushedAll(m, t, i, breaks)
  {
    assert HistoryOk(v) by { InvHistory(v); }
    hide Inv, Leads, Visited;
    var a := Step(i, CallFlush, 0, breaks);
    EndSteps(v, i, a, u);
    FollowsOn(o, before, v, a);
    acts, t := before + [a], Next(v, a);
    hide Follows, HistoryOk, Next, Enabled;
    FollowsOn(o, acts, t, a);
    acts, t := acts + [a], Next(t, a);
    FollowsOn(o, acts, t, a);
    acts, t := acts + [a], Next(t, a);
    assert Buffers(u)[0..] == Buffers(m);
    EndFlushed(m, u, v, t, i, breaks);
  }

  lemma EndSteps(v: Sink, i: nat, a: Step, u: Sink)
    requires HistoryOk(v) && Visited(u, v, i) && a.i == i
    ensures var f := v.threads[i].f;
            && Enabled(v, a) && Enabled(Next(v, a), a) && Enabled(Next(Next(v, a), a), a)
            && var t := Next(Next(Next(v, a), a), a);
               && |t.threads| == |v.threads| && t.threads == v.threads[i := t.threads[i]]
               && t.threads[i].Flushed? && t.threads[i].healthy == (!t.device.failed && f.ok)
               && t == v.(threads := t.threads, device := Break(v.device, a.breaks))
  {
    hide Accept, Flatten, Buffers, Of, FindShard;
  }

  lemma EndFlushed(m: Sink, u: Sink, v: Sink, t: Sink, i: nat, breaks: bool)
    requires i < |m.threads| && u == SetPc(m, i, Visit(Flush(m.returned, |m.shards|, 0, true)))
    requires Visited(u, v, i) && Buffers(u)[0..] == Buffers(m)
    requires |t.threads| == |v.threads| && t.threads == v.threads[i := t.threads[i]] && t.threads[i].Flushed?
    requires t.threads[i].healthy == (!t.device.failed && v.threads[i].f.ok)
    requires t == v.(threads := t.threads, device := Break(v.device, breaks))
    ensures FlushedAll(m, t, i, breaks)
  {
    hide Accept, Flatten, Buffers;
    assert t.threads == m.threads[i := t.threads[i]];
  }

  // ---------------------------------------------------------------------- object

  /** The object's threshold, stream and buffers are those of a state at rest. */
  ghost predicate Mirrors(sink: BufferedSink, m: Sink)
    reads sink, sink.output, sink.shards
  {
    && m.threshold == sink.flushThreshold && m.device == sink.output.device && |m.shards| == |sink.shards| && AtRest(m)
    && forall k :: 0 <= k < |m.shards| ==>
         m.shards[k].producer == sink.shards[k].producer && m.shards[k].buffer == sink.shards[k].buffer
  }

  lemma SameFind(sink: BufferedSink, m: Sink, i: nat)
    requires |m.shards| == |sink.shards|
    requires forall k :: 0 <= k < |m.shards| ==> m.shards[k].producer == sink.shards[k].producer
    ensures FindIn(sink.shards, i) == FindShard(m.shards, i)
  {
  }

  /** A shard holds what is buffered for its producer. */
  lemma BufferedAt(sink: BufferedSink, k: nat)
    requires sink.Valid() && k < |sink.shards|
    ensures sink.Buffered(sink.shards[k].producer) == sink.shards[k].buffer
  {
    assert FindIn(sink.shards, sink.shards[k].producer) == k;
  }

  /** `Write` is a run of the writing thread. */
  method WriteRuns(sink: BufferedSink, e: Entry, cache: ThreadCache, ghost m: Sink, ghost i: nat, producer: nat)
    returns (accepted: bool, ghost acts: seq<Step>, ghost t: Sink)
    requires sink.Valid() && sink.CacheOk(cache, producer) && producer == i
    requires Inv(m) && Mirrors(sink, m) && i < |m.threads| && m.threads[i].Idle?
    modifies sink`shards, cache, sink.output, sink.shards
    ensures sink.Valid() && sink.CacheOk(cache, producer)
    ensures Leads(m, acts, t) && Inv(t) && Mirrors(sink, t) && t.threads == m.threads
  {
    hide Leads, Inv, Line, Accept, FindIn, FindShard;
    SameFind(sink, m, i);
    ghost var k, n := FindShard(m.shards, i), |m.shards|;
    forall j | 0 <= j < n ensures sink.Buffered(sink.shards[j].producer) == sink.shards[j].buffer {
      BufferedAt(sink, j);
    }
    accepted := sink.Write(e, producer, cache);
    acts, t := WriteRun(m, i, e);
    forall j | 0 <= j < |sink.shards| ensures sink.Buffered(sink.shards[j].producer) == sink.shards[j].buffer {
      BufferedAt(sink, j);
    }
    assert |sink.shards| == |t.shards|;
    assert k < n ==> sink.shards == old(sink.shards);
    assert k == n ==> FindIn(sink.shards, i) == n;
    forall j | 0 <= j < |t.shards|
      ensures t.shards[j].producer == sink.shards[j].producer && t.shards[j].buffer == sink.shards[j].buffer
    {
      if j != k { assert j < n && sink.shards[j] == old(sink.shards)[j]; }
    }
  }

  /** `Flush` is a run of the flushing thread, with the same result. */
  method FlushRuns(sink: BufferedSink, breaks: bool, ghost m: Sink, ghost i: nat)
    returns (success: bool, ghost acts: seq<Step>, ghost t: Sink)
    requires sink.Valid() && Inv(m) && Mirrors(sink, m) && i < |m.threads| && m.threads[i].Idle?
    modifies sink.output, sink.shards
    ensures sink.Valid() && Leads(m, acts, t) && Inv(t) && Mirrors(sink, t)
    ensures |t.threads| == |m.threads| && t.threads == m.threads[i := t.threads[i]]
    ensures t.threads[i].Flushed? && t.threads[i].healthy == success
  {
    hide Leads, Inv, Accept, Flatten, FindIn;
    assert sink.Buffers() == Buffers(m);
    success := sink.Flush(breaks);
    acts, t := FlushRun(m, i, breaks);
    forall j | 0 <= j < |sink.shards| ensures sink.shards[j].buffer == "" {
      BufferedAt(sink, j);
    }
  }
}
