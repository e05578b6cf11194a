/** The buffered sink as an object: one buffer per producer thread, found through a
    thread-local cache, written out at the threshold or by `Flush`. */
module BufferedSinkObject {
  import opened Common
  import opened TextRecord

  class BufferShard {
    const producer: nat
    var buffer: string

    constructor (producer: nat)
      ensures this.producer == producer && buffer == ""
    {
      this.producer := producer;
      buffer := "";
    }
  }

  /** The two thread-local variables of `current_thread_shard`. */
  class ThreadCache {
    var instanceId: nat
    var shard: BufferShard?

    constructor ()
      ensures instanceId == 0 && shard == null
    {
      instanceId, shard := 0, null;
    }
  }

  /** The first shard of a producer, or the number of shards if it has none. */
  function FindIn(shards: seq<BufferShard>, producer: nat): (k: nat)
    ensures k <= |shards| && (k < |shards| ==> shards[k].producer == producer)
    ensures forall j :: 0 <= j < k ==> shards[j].producer != producer
  {
    if |shards| == 0 || shards[0].producer == producer then 0 else 1 + FindIn(shards[1..], producer)
  }

  class BufferedSink {
    const output: Stream
    const flushThreshold: nat
    const instanceId: nat
    var shards: seq<BufferShard>

    ghost predicate Valid()
      reads this, shards
    {
      && flushThreshold > 0 && instanceId > 0
      && (forall j, k :: 0 <= j < k < |shards| ==> shards[j] != shards[k] && shards[j].producer != shards[k].producer)
      && (forall k :: 0 <= k < |shards| ==> |shards[k].buffer| < flushThreshold)
    }

    /** What a producer has written that is not yet on the stream. */
    ghost function Buffered(producer: nat): string
      reads this, shards
    {
      var k := FindIn(shards, producer);
      if k < |shards| then shards[k].buffer else ""
    }

    /** A cache entry for this sink names this sink's shard of that thread. */
    ghost predicate CacheOk(cache: ThreadCache, producer: nat)
      reads this, cache
    {
      cache.instanceId == instanceId ==>
        cache.shard != null && cache.shard in shards && cache.shard.producer == producer
    }

    constructor (output: Stream, flushThreshold: nat, instanceId: nat)
      requires flushThreshold > 0 && instanceId > 0
      ensures Valid() && this.output == output && this.flushThreshold == flushThreshold
      ensures this.instanceId == instanceId && shards == []
    {
      this.output := output;
      this.flushThreshold := flushThreshold;
      this.instanceId := instanceId;
      shards := [];
    }

    /** The cached shard, the registered one, or a new one: always the only shard of
        this sink for this thread. */
    method CurrentThreadShard(producer: nat, cache: ThreadCache) returns (shard: BufferShard)
      requires Valid() && CacheOk(cache, producer)
      modifies this`shards, cache
      ensures Valid() && CacheOk(cache, producer) && cache.instanceId == instanceId && cache.shard == shard
      ensures var k := FindIn(shards, producer); k < |shards| && shards[k] == shard
      ensures FindIn(old(shards), producer) < |old(shards)| ==> shards == old(shards)
      ensures FindIn(old(shards), producer) == |old(shards)| ==>
                shards == old(shards) + [shard] && fresh(shard) && shard.buffer == ""
    {
      if cache.instanceId == instanceId {
        shard := cache.shard;
        assert forall j, k :: 0 <= j < k < |shards| ==> shards[j].producer != shards[k].producer;
        return;
      }
      var k := 0;
      while k < |shards| && shards[k].producer != producer
        invariant k <= |shards| && forall j :: 0 <= j < k ==> shards[j].producer != producer
      {
        k := k + 1;
      }
      if k < |shards| {
        shard := shards[k];
      } else {
        shard := new BufferShard(producer);
        shards := shards + [shard];
      }
      cache.shard := shard;
      cache.instanceId := instanceId;
    }

    /** Writes a non-empty buffer to the stream and clears it, healthy or not. */
    method FlushShard(shard: BufferShard) returns (healthy: bool)
      modifies shard, output
      ensures shard.buffer == "" && output.device == Accept(old(output.device), old(shard.buffer))
      ensures !output.device.failed ==> healthy
      ensures healthy ==> !output.device.failed || old(shard.buffer) == ""
    {
      if shard.buffer == "" {
        assert old(output.device).bytes + "" == old(output.device).bytes;
        return true;
      }
      output.Write(shard.buffer);
      shard.buffer := "";
      healthy := !output.device.failed;
    }

    /** Appends the formatted record to a buffer, prefix first, then the rest. */
    method AppendRecord(e: Entry, shard: BufferShard)
      modifies shard
      ensures shard.buffer == old(shard.buffer) + Line(e)
    {
      var prefix, size, messageIsBuffered := PrepareTextRecord(e);
      ghost var was := shard.buffer;
      shard.buffer := shard.buffer + prefix[..size];
      if !messageIsBuffered {
        shard.buffer := shard.buffer + e.error.message;
        shard.buffer := shard.buffer + "\n";
        assert was + Header(e) + e.error.message + "\n" == was + (Header(e) + e.error.message + "\n");
      }
    }

    method FlushIfFull(shard: BufferShard) returns (accepted: bool)
      requires flushThreshold > 0
      modifies shard, output
      ensures if |old(shard.buffer)| < flushThreshold
              then shard.buffer == old(shard.buffer) && output.device == old(output.device) && accepted
              else shard.buffer == "" && output.device == Accept(old(output.device), old(shard.buffer))
                   && (accepted <==> !output.device.failed)
    {
      if |shard.buffer| < flushThreshold { return true; }
      accepted := FlushShard(shard);
    }

    /** Accepts a record; at the threshold the whole buffer goes out in one write. */
    method Write(e: Entry, producer: nat, cache: ThreadCache) returns (accepted: bool)
      requires Valid() && CacheOk(cache, producer)
      modifies this`shards, cache, output, shards
      ensures Valid() && CacheOk(cache, producer)
      ensures FindIn(old(shards), producer) < |old(shards)| ==> shards == old(shards)
      ensures FindIn(old(shards), producer) == |old(shards)| ==>
                |shards| == |old(shards)| + 1 && old(shards) <= shards && fresh(shards[|shards| - 1])
      ensures FindIn(shards, producer) < |shards|
      ensures var all := old(Buffered(producer)) + Line(e);
              if |all| < flushThreshold
              then Buffered(producer) == all && output.device == old(output.device) && accepted
              else Buffered(producer) == "" && output.device == Accept(old(output.device), all)
                   && (accepted <==> !output.device.failed)
      ensures forall q: nat :: q != producer ==> Buffered(q) == old(Buffered(q))
    {
      hide Line, Accept;
      var shard := CurrentThreadShard(producer, cache);
      ghost var k := FindIn(shards, producer);
      assert shard.buffer == old(Buffered(producer));
      forall q: nat | q != producer
        ensures FindIn(shards, q) == FindIn(old(shards), q) ||
                (FindIn(shards, q) == |shards| && FindIn(old(shards), q) == |old(shards)|)
        ensures FindIn(shards, q) != k
      {
        FindInGrow(old(shards), shard, q);
      }
      accepted := WriteTo(e, shard);
    }

    /** The critical section of `Write`: append, and write out at the threshold. */
    method WriteTo(e: Entry, shard: BufferShard) returns (accepted: bool)
      requires Valid() && shard in shards
      modifies shard, output
      ensures Valid()
      ensures var all := old(shard.buffer) + Line(e);
              if |all| < flushThreshold
              then shard.buffer == all && output.device == old(output.device) && accepted
              else shard.buffer == "" && output.device == Accept(old(output.device), all)
                   && (accepted <==> !output.device.failed)
    {
      hide Line, Accept;
      AppendRecord(e, shard);
      accepted := FlushIfFull(shard);
    }

    /** Writes every buffer out, in registration order, and flushes the stream, which
        may itself fail; true exactly if the stream is still healthy. */
    method Flush(streamBreaks: bool) returns (success: bool)
      requires Valid()
      modifies output, shards
      ensures Valid() && forall q: nat :: Buffered(q) == ""
      ensures output.device == Break(Accept(old(output.device), Flatten(old(Buffers()))), streamBreaks)
      ensures success <==> !output.device.failed
    {
      hide Accept, Flatten;
      success := FlushShards();
      output.Sync(streamBreaks);
      success := !output.device.failed && success;
    }

    method FlushShards() returns (success: bool)
      requires Valid()
      modifies output, shards
      ensures forall k :: 0 <= k < |shards| ==> shards[k].buffer == ""
      ensures output.device == Accept(old(output.device), Flatten(old(Buffers())))
      ensures !output.device.failed ==> success
    {
      hide Accept;
      ghost var all := Buffers();
      AcceptNothing(output.device);
      success := true;
      var k := 0;
      while k < |shards|
        invariant k <= |shards|
        invariant forall j :: 0 <= j < k ==> shards[j].buffer == ""
        invariant forall j :: k <= j < |shards| ==> shards[j].buffer == all[j]
        invariant output.device == Accept(old(output.device), Flatten(all[..k]))
        invariant !output.device.failed ==> success
      {
        AcceptNext(old(output.device), all, k);
        var healthy := FlushShard(shards[k]);
        success := healthy && success;
        k := k + 1;
      }
      assert all[..k] == all;
    }

    ghost function Buffers(): (r: seq<string>)
      reads this, shards
      ensures |r| == |shards| && forall k :: 0 <= k < |shards| ==> r[k] == shards[k].buffer
    {
      seq(|shards|, k requires 0 <= k < |shards| reads this, shards => shards[k].buffer)
    }
  }

  lemma FindInGrow(a: seq<BufferShard>, x: BufferShard, i: nat)
    ensures FindIn(a, i) < |a| ==> FindIn(a + [x], i) == FindIn(a, i)
    ensures FindIn(a, i) == |a| ==> FindIn(a + [x], i) == if x.producer == i then |a| else |a| + 1
  {
    var b := a + [x];
    assert forall j :: 0 <= j < |a| ==> b[j] == a[j];
    assert b[|a|] == x;
  }

  lemma AcceptNothing(d: Device)
    ensures Accept(d, Flatten([])) == d
  {
    assert d.bytes + "" == d.bytes;
  }

  lemma AcceptNext(d: Device, all: seq<string>, k: nat)
    requires k < |all|
    ensures var d1 := Accept(d, Flatten(all[..k]));
            var d2 := Accept(d1, all[k]);
            d2 == Accept(d, Flatten(all[..k + 1])) && (d1.failed ==> d2.failed)
  {
    assert all[..k + 1][..k] == all[..k];
    AcceptConcat(d, Flatten(all[..k]), all[k]);
  }

  /** All lines of a list of entries. */
  function Text(es: seq<Entry>): string {
    if |es| == 0 then "" else Text(es[..|es| - 1]) + Line(es[|es| - 1])
  }

  /** One producer through the immediate sink ... */
  method RunImmediate(sink: ImmediateSink, es: seq<Entry>)
    modifies sink.output
    ensures sink.output.device == Accept(old(sink.output.device), Text(es))
  {
    var i := 0;
    while i < |es|
      invariant i <= |es| && sink.output.device == Accept(old(sink.output.device), Text(es[..i]))
    {
      assert es[..i + 1][..i] == es[..i];
      AcceptConcat(old(sink.output.device), Text(es[..i]), Line(es[i]));
      var healthy := sink.Write(es[i]);
      i := i + 1;
    }
    assert es[..i] == es;
  }

  predicate OnlyShard(shards: seq<BufferShard>, producer: nat) {
    |shards| == 0 || (|shards| == 1 && shards[0].producer == producer)
  }

  lemma OneBuffer(x: string)
    ensures Flatten([x]) == x
  {
    assert [x][..0] == [];
  }

  /** ... and one producer through a new buffered sink that is then flushed: the
      stream receives the same bytes and fails at the same byte. */
  method RunBuffered(sink: BufferedSink, cache: ThreadCache, producer: nat, es: seq<Entry>)
    returns (success: bool)
    requires sink.Valid() && sink.shards == [] && sink.CacheOk(cache, producer)
    modifies sink`shards, cache, sink.output
    ensures sink.output.device == Accept(old(sink.output.device), Text(es))
    ensures success <==> !sink.output.device.failed
  {
    hide Accept, Line;
    ghost var d := sink.output.device;
    ghost var written := "";
    AcceptNothing(d);
    var i := 0;
    while i < |es|
      invariant i <= |es| && sink.Valid() && sink.CacheOk(cache, producer)
      invariant OnlyShard(sink.shards, producer)
      invariant forall k :: 0 <= k < |sink.shards| ==> fresh(sink.shards[k])
      invariant sink.output.device == Accept(d, written)
      invariant written + sink.Buffered(producer) == Text(es[..i])
    {
      written := WriteNext(sink, cache, producer, es, i, d, written);
      i := i + 1;
    }
    assert es[..i] == es;
    SingleBuffer(sink, producer);
    AcceptConcat(d, written, sink.Buffered(producer));
    success := sink.Flush(false);
  }

  /** One record of `RunBuffered`; the ghost result is the text on the stream so far. */
  method WriteNext(sink: BufferedSink, cache: ThreadCache, producer: nat, es: seq<Entry>, i: nat,
      ghost d: Device, ghost written: string)
    returns (ghost next: string)
    requires i < |es| && sink.Valid() && sink.CacheOk(cache, producer) && OnlyShard(sink.shards, producer)
    requires sink.output.device == Accept(d, written)
    requires written + sink.Buffered(producer) == Text(es[..i])
    modifies sink`shards, cache, sink.output, sink.shards
    ensures sink.Valid() && sink.CacheOk(cache, producer)
    ensures OnlyShard(sink.shards, producer)
    ensures |old(sink.shards)| == 1 ==> sink.shards == old(sink.shards)
    ensures |old(sink.shards)| == 0 && |sink.shards| == 1 ==> fresh(sink.shards[0])
    ensures sink.output.device == Accept(d, next)
    ensures next + sink.Buffered(producer) == Text(es[..i + 1])
  {
    hide Accept, Line;
    ghost var all := sink.Buffered(producer) + Line(es[i]);
    assert es[..i + 1][..i] == es[..i];
    AcceptConcat(d, written, all);
    assert Text(es[..i + 1]) == written + all;
    var accepted := sink.Write(es[i], producer, cache);
    next := if |all| < sink.flushThreshold then written else written + all;
    assert next + sink.Buffered(producer) == written + all;
  }

  lemma SingleBuffer(sink: BufferedSink, producer: nat)
    requires OnlyShard(sink.shards, producer)
    ensures Flatten(sink.Buffers()) == sink.Buffered(producer)
  {
    if |sink.shards| == 1 {
      OneBuffer(sink.shards[0].buffer);
      assert sink.Buffers() == [sink.shards[0].buffer];
    }
  }
}
