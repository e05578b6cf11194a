/** The thread-local shard cache over any number of buffered sinks that are created and
    destroyed while threads come and go. Sink addresses, shard addresses and thread ids
    may all be reused; only instance ids are not. */
module ShardCache {
  import opened Common

  datatype Shard = Shard(address: nat, producer: nat)

  /** A live sink: its instance id and its registry. */
  datatype Sink = Sink(id: nat, shards: seq<Shard>)

  /** `cached_instance_id`, `cached_shard`, and the sink whose registry the thread has
      just searched without having stored the instance id yet. */
  datatype Thread = Thread(cachedId: nat, cachedShard: Option<nat>, storing: Option<nat>)

  /** Sinks by address, threads by thread id. */
  datatype State = State(nextId: nat, sinks: map<nat, Sink>, threads: map<nat, Thread>)

  datatype Event =
    | Create(sink: nat, threshold: nat)
    | Destroy(sink: nat)
    | Start(thread: nat)
    | Exit(thread: nat)
    | Hit(sink: nat, thread: nat)
    | Search(sink: nat, thread: nat, place: nat)
    | StoreId(sink: nat, thread: nat)

  const INIT := State(1, map[], map[])

  /** The first registered shard of a producer, as `find_if` returns it. */
  function Find(shards: seq<Shard>, producer: nat): (k: nat)
    ensures k <= |shards| && (k < |shards| ==> shards[k].producer == producer)
    ensures forall j :: 0 <= j < k ==> shards[j].producer != producer
  {
    if |shards| == 0 || shards[0].producer == producer then 0 else 1 + Find(shards[1..], producer)
  }

  predicate InUse(s: State, address: nat) {
    exists a, k: nat :: a in s.sinks && k < |s.sinks[a].shards| && s.sinks[a].shards[k].address == address
  }

  /** The registry after a search: extended if the producer is new. */
  function Registered(shards: seq<Shard>, producer: nat, place: nat): seq<Shard> {
    if Find(shards, producer) < |shards| then shards else shards + [Shard(place, producer)]
  }

  /** What the lookup would return without any cache. */
  function Uncached(shards: seq<Shard>, producer: nat): Option<nat> {
    var k := Find(shards, producer);
    if k < |shards| then Some(shards[k].address) else None
  }

  predicate Enabled(s: State, e: Event) {
    match e
    case Create(a, threshold) => a !in s.sinks
    // The lifetime contract: no thread is inside a call on the sink.
    case Destroy(a) => a in s.sinks && forall t <- s.threads :: s.threads[t].storing != Some(a)
    case Start(t) => t !in s.threads
    case Exit(t) => t in s.threads && s.threads[t].storing == None
    case Hit(a, t) =>
      a in s.sinks && t in s.threads && s.threads[t].storing == None && s.threads[t].cachedId == s.sinks[a].id
    case Search(a, t, place) =>
      && a in s.sinks && t in s.threads && s.threads[t].storing == None
      && s.threads[t].cachedId != s.sinks[a].id && !InUse(s, place)
    case StoreId(a, t) => a in s.sinks && t in s.threads && s.threads[t].storing == Some(a)
  }

  function Step(s: State, e: Event): State
    requires Enabled(s, e)
  {
    match e
    case Create(a, threshold) =>
      // The id is drawn before the threshold is checked, and lost if the check throws.
      s.(nextId := s.nextId + 1, sinks := if threshold == 0 then s.sinks else s.sinks[a := Sink(s.nextId, [])])
    case Destroy(a) => s.(sinks := s.sinks - {a})
    case Start(t) => s.(threads := s.threads[t := Thread(0, None, None)])
    case Exit(t) => s.(threads := s.threads - {t})
    case Hit(_, _) => s
    case Search(a, t, place) =>
      var shards := Registered(s.sinks[a].shards, t, place);
      s.(sinks := s.sinks[a := s.sinks[a].(shards := shards)],
         threads := s.threads[t := s.threads[t].(cachedShard := Uncached(shards, t), storing := Some(a))])
    case StoreId(a, t) =>
      s.(threads := s.threads[t := s.threads[t].(cachedId := s.sinks[a].id, storing := None)])
  }

  /** What `current_thread_shard` returns on the two events that end a call. */
  function Returned(s: State, e: Event): Option<nat>
    requires Enabled(s, e) && (e.Hit? || e.StoreId?)
  {
    s.threads[e.thread].cachedShard
  }

  ghost predicate Run(s: State, es: seq<Event>, t: State)
    decreases |es|
  {
    if |es| == 0 then s == t else Enabled(s, es[0]) && Run(Step(s, es[0]), es[1..], t)
  }

  // ------------------------------------------------------------------ invariant

  /** Live instance ids have been drawn, and no two live sinks share one. */
  ghost predicate IdsOk(s: State) {
    && s.nextId >= 1
    && (forall a <- s.sinks :: 1 <= s.sinks[a].id < s.nextId)
    && (forall a, b :: a in s.sinks && b in s.sinks && a != b ==> s.sinks[a].id != s.sinks[b].id)
  }

  /** One shard per producer, and no address used twice among live shards. */
  ghost predicate ShardsOk(s: State) {
    && (forall a, j, k | a in s.sinks && 0 <= j < k < |s.sinks[a].shards| ::
          s.sinks[a].shards[j].producer != s.sinks[a].shards[k].producer)
    && (forall a, b, j, k | a in s.sinks && b in s.sinks &&
          0 <= j < |s.sinks[a].shards| && 0 <= k < |s.sinks[b].shards| ::
          s.sinks[a].shards[j].address == s.sinks[b].shards[k].address ==> a == b && j == k)
  }

  /** A cache entry that matches a live sink is that sink's shard of the thread. */
  ghost predicate ThreadOk(s: State, t: nat)
    requires t in s.threads
  {
    var th := s.threads[t];
    && th.cachedId < s.nextId
    && match th.storing
       case Some(a) => a in s.sinks && th.cachedShard.Some? && th.cachedShard == Uncached(s.sinks[a].shards, t)
       case None =>
         forall a <- s.sinks :: s.sinks[a].id == th.cachedId ==>
           th.cachedShard.Some? && th.cachedShard == Uncached(s.sinks[a].shards, t)
  }

  ghost predicate Inv(s: State) {
    IdsOk(s) && ShardsOk(s) && forall t <- s.threads :: ThreadOk(s, t)
  }

  lemma FindAppend(shards: seq<Shard>, x: Shard, producer: nat)
    ensures Find(shards, producer) < |shards| ==> Find(shards + [x], producer) == Find(shards, producer)
    ensures Find(shards, producer) == |shards| && x.producer == producer ==> Find(shards + [x], producer) == |shards|
  {
    var longer := shards + [x];
    assert forall j :: 0 <= j < |shards| ==> longer[j] == shards[j];
    assert longer[|shards|] == x;
  }

  lemma SearchKeepsShards(s: State, e: Event)
    requires Inv(s) && Enabled(s, e) && e.Search?
    ensures ShardsOk(Step(s, e))
  {
    hide IdsOk, ThreadOk, Uncached;
    var t := Step(s, e);
    var before := s.sinks[e.sink].shards;
    if Find(before, e.thread) < |before| {
      assert t.sinks == s.sinks;
    } else {
      forall a, k: nat | a in s.sinks && k < |s.sinks[a].shards|
        ensures s.sinks[a].shards[k].address != e.place
      {
      }
      assert t.sinks[e.sink].shards == before + [Shard(e.place, e.thread)];
      assert forall a <- s.sinks :: a != e.sink ==> t.sinks[a] == s.sinks[a];
    }
  }

  lemma SearchKeepsThread(s: State, e: Event, p: nat)
    requires Inv(s) && Enabled(s, e) && e.Search? && p in s.threads
    ensures ThreadOk(Step(s, e), p)
  {
    hide ShardsOk, InUse;
    var t := Step(s, e);
    var before := s.sinks[e.sink].shards;
    assert ThreadOk(s, p);
    FindAppend(before, Shard(e.place, e.thread), p);
    if p != e.thread {
      assert t.threads[p] == s.threads[p];
      assert Find(before, p) < |before| ==>
        Uncached(t.sinks[e.sink].shards, p) == Uncached(before, p);
    }
  }

  lemma SearchKeeps(s: State, e: Event)
    requires Inv(s) && Enabled(s, e) && e.Search?
    ensures Inv(Step(s, e))
  {
    hide ShardsOk, ThreadOk, InUse;
    SearchKeepsShards(s, e);
    forall p | p in s.threads ensures ThreadOk(Step(s, e), p) {
      SearchKeepsThread(s, e, p);
    }
  }

  lemma PlainKeeps(s: State, e: Event)
    requires Inv(s) && Enabled(s, e) && !e.Search?
    ensures IdsOk(Step(s, e)) && ShardsOk(Step(s, e))
  {
    hide IdsOk, ShardsOk, ThreadOk, Step;
    PlainKeepsIds(s, e);
    PlainKeepsShards(s, e);
  }

  lemma PlainKeepsIds(s: State, e: Event)
    requires IdsOk(s) && Enabled(s, e) && !e.Search?
    ensures IdsOk(Step(s, e))
  {
  }

  lemma PlainKeepsShards(s: State, e: Event)
    requires ShardsOk(s) && Enabled(s, e) && !e.Search?
    ensures ShardsOk(Step(s, e))
  {
  }

  lemma PlainKeepsThread(s: State, e: Event, p: nat)
    requires Inv(s) && Enabled(s, e) && !e.Search? && p in Step(s, e).threads
    ensures ThreadOk(Step(s, e), p)
  {
    hide ShardsOk;
    if e.Start? && p == e.thread {
    } else {
      assert ThreadOk(s, p);
    }
  }

  lemma StepKeeps(s: State, e: Event)
    requires Inv(s) && Enabled(s, e)
    ensures Inv(Step(s, e))
  {
    hide IdsOk, ShardsOk, ThreadOk;
    if e.Search? {
      SearchKeeps(s, e);
    } else {
      PlainKeeps(s, e);
      forall p | p in Step(s, e).threads ensures ThreadOk(Step(s, e), p) {
        PlainKeepsThread(s, e, p);
      }
    }
  }

  lemma {:induction false} RunKeeps(s: State, es: seq<Event>, t: State)
    requires Inv(s) && Run(s, es, t)
    ensures Inv(t)
    decreases |es|
  {
    hide Inv;
    if |es| > 0 {
      StepKeeps(s, es[0]);
      RunKeeps(Step(s, es[0]), es[1..], t);
    }
  }

  // ------------------------------------------------------------------- theorems

  lemma ReturnedIsUncached(s: State, e: Event)
    requires Inv(s) && Enabled(s, e) && (e.Hit? || e.StoreId?)
    ensures Returned(s, e) == Uncached(s.sinks[e.sink].shards, e.thread) && Returned(s, e).Some?
  {
    hide IdsOk, ShardsOk;
    assert ThreadOk(s, e.thread);
  }

  /** Whether it hits the cache or searches the registry, a lookup returns the address
      of the one shard that this sink holds for the calling thread. */
  lemma LookupIsExact(es: seq<Event>, s: State, e: Event)
    requires Run(INIT, es, s) && Enabled(s, e) && (e.Hit? || e.StoreId?)
    ensures Returned(s, e) == Uncached(s.sinks[e.sink].shards, e.thread) && Returned(s, e).Some?
    ensures forall k: nat :: k < |s.sinks[e.sink].shards| ==>
              (s.sinks[e.sink].shards[k].producer == e.thread <==>
               Returned(s, e) == Some(s.sinks[e.sink].shards[k].address))
  {
    RunKeeps(INIT, es, s);
    ReturnedIsUncached(s, e);
  }

  /** No two live shards, of the same sink or of different ones, are ever confused. */
  lemma DistinctCallersDistinctShards(es: seq<Event>, s: State, d: Event, e: Event)
    requires Run(INIT, es, s)
    requires Enabled(s, d) && (d.Hit? || d.StoreId?) && Enabled(s, e) && (e.Hit? || e.StoreId?)
    ensures Returned(s, d) == Returned(s, e) <==> d.sink == e.sink && d.thread == e.thread
  {
    RunKeeps(INIT, es, s);
    ReturnedIsUncached(s, d);
    ReturnedIsUncached(s, e);
    hide ThreadOk, IdsOk, Run;
  }

  /** A sink that stays alive keeps its shards; a sink with an old id is not a new one. */
  ghost predicate Later(s: State, t: State) {
    && s.nextId <= t.nextId
    && forall b <- t.sinks :: t.sinks[b].id < s.nextId ==>
         b in s.sinks && s.sinks[b].id == t.sinks[b].id && s.sinks[b].shards <= t.sinks[b].shards
  }

  lemma StepLater(s: State, e: Event)
    requires Inv(s) && Enabled(s, e)
    ensures Later(s, Step(s, e))
  {
  }

  lemma {:induction false} RunLater(s: State, es: seq<Event>, t: State)
    requires Inv(s) && Run(s, es, t)
    ensures Later(s, t) && Inv(t)
    decreases |es|
  {
    hide Inv;
    if |es| > 0 {
      StepKeeps(s, es[0]);
      StepLater(s, es[0]);
      RunLater(Step(s, es[0]), es[1..], t);
    }
  }

  /** Instance ids are never reused: once a sink is destroyed, no sink created at the
      same or any other address ever matches a cache entry left over from it. */
  lemma DeadEntriesNeverMatch(before: seq<Event>, s: State, a: nat, after: seq<Event>, t: State)
    requires Run(INIT, before, s) && Enabled(s, Destroy(a))
    requires Run(Step(s, Destroy(a)), after, t)
    ensures forall b <- t.sinks :: t.sinks[b].id != s.sinks[a].id
  {
    RunKeeps(INIT, before, s);
    StepKeeps(s, Destroy(a));
    RunLater(Step(s, Destroy(a)), after, t);
  }

  /** As long as a sink lives, a thread id is always given the same shard of it. */
  lemma ShardIsStable(before: seq<Event>, s: State, d: Event, after: seq<Event>, t: State, e: Event)
    requires Run(INIT, before, s) && Enabled(s, d) && (d.Hit? || d.StoreId?)
    requires Run(s, after, t) && Enabled(t, e) && (e.Hit? || e.StoreId?)
    requires s.sinks[d.sink].id == t.sinks[e.sink].id && d.thread == e.thread
    ensures d.sink == e.sink && Returned(s, d) == Returned(t, e)
  {
    RunKeeps(INIT, before, s);
    RunLater(s, after, t);
    SameSink(s, t, d.sink, e.sink);
    ReturnedIsUncached(s, d);
    ReturnedIsUncached(t, e);
    hide Inv, Run, Later;
    FindInPrefix(s.sinks[d.sink].shards, t.sinks[d.sink].shards, d.thread);
  }

  lemma SameSink(s: State, t: State, a: nat, b: nat)
    requires Inv(s) && Inv(t) && Later(s, t) && a in s.sinks && b in t.sinks && s.sinks[a].id == t.sinks[b].id
    ensures a == b && s.sinks[a].shards <= t.sinks[a].shards
  {
    hide ShardsOk, ThreadOk;
  }

  lemma FindInPrefix(a: seq<Shard>, b: seq<Shard>, producer: nat)
    requires a <= b && Find(a, producer) < |a|
    ensures Find(b, producer) == Find(a, producer)
  {
    assert forall j :: 0 <= j < |a| ==> b[j] == a[j];
  }
}
