/** The critical sections of the pool as methods over its ring of slots. Each is
    proved against the bounded queue that the step system refines as well. */
module WorkerPool {
  import opened Common
  import opened PackedState
  import opened Ring
  import opened PoolMachine
  import opened BoundedFifo

  /** How the future of a tracked task was completed. */
  datatype Settlement = Completed(item: Item, outcome: Outcome) | CancelledFuture(item: Item)

  /** What one attempt under the producer lock comes to. */
  datatype Attempt = Accepted | Full | Rejected

  /** What other threads may do to the pool between two refills of a submission. */
  datatype Other = OtherSubmits(item: Item) | OtherClaims | OtherFinishes(count: nat) | OtherCancels | OtherStops

  /** How a bulk submission stands: all moved, cut short by shutdown, or still
      waiting for space when the observed schedule of other threads ends. */
  datatype Dispatch = Complete | Stopped | Waiting

  /** The items stand, in order, at the given positions of the history, after `from`. */
  ghost predicate Placed(accepted: seq<Item>, from: nat, tickets: seq<nat>, items: seq<Item>) {
    && |tickets| <= |items|
    && (forall i :: 0 <= i < |tickets| ==> from <= tickets[i] < |accepted| && accepted[tickets[i]] == items[i])
    && (forall i, j :: 0 <= i < j < |tickets| ==> tickets[i] < tickets[j])
  }

  lemma PlacedMore(accepted: seq<Item>, grown: seq<Item>, from: nat, tickets: seq<nat>, items: seq<Item>, k: nat)
    requires from <= |accepted| && Placed(accepted, from, tickets, items)
    requires |tickets| + k <= |items|
    requires grown == accepted + items[|tickets|..|tickets| + k]
    ensures Placed(grown, from, tickets + seq(k, i requires 0 <= i < k => |accepted| + i), items)
  {
  }

  function CancelledFutures(xs: seq<Item>): seq<Settlement> {
    if |xs| == 0 then []
    else
      CancelledFutures(xs[..|xs| - 1]) +
      if xs[|xs| - 1].tracked then [CancelledFuture(xs[|xs| - 1])] else []
  }

  function Untracked(x: Item): nat { if x.tracked then 0 else 1 }

  function CompletedFutures(xs: seq<Item>, os: seq<Outcome>): seq<Settlement>
    requires |xs| == |os|
  {
    if |xs| == 0 then []
    else
      var n := |xs| - 1;
      CompletedFutures(xs[..n], os[..n]) + if xs[n].tracked then [Completed(xs[n], os[n])] else []
  }

  function Failures(xs: seq<Item>, os: seq<Outcome>): nat
    requires |xs| == |os|
  {
    if |xs| == 0 then 0
    else var n := |xs| - 1; Failures(xs[..n], os[..n]) + Failure(xs[n], os[n])
  }

  /** The callbacks of a stretch of a span, as queued bulk items. */
  function Moved(span: seq<Option<Item>>): (r: seq<Item>)
    requires forall i :: 0 <= i < |span| ==> span[i].Some?
    ensures |r| == |span| && forall i :: 0 <= i < |span| ==> r[i] == span[i].value
  {
    seq(|span|, i requires 0 <= i < |span| => span[i].value)
  }

  class Pool {
    const capacity: nat
    const tasks: array<Option<Item>>
    var queueState: Word
    var queueHead: nat
    var queueTail: nat
    var failedDispatches: nat
    var cancelledDispatches: nat
    var futures: seq<Settlement>
    ghost var content: seq<Item>
    ghost var active: nat
    ghost var accepted: seq<Item>
    ghost var taken: seq<Item>

    ghost predicate Valid()
      reads this, tasks
    {
      && tasks.Length == capacity && 1 <= capacity <= MAX_CAPACITY
      && Window(tasks[..], queueHead, content)
      && queueTail == At(capacity, queueHead, |content|)
      && active <= MAX_ACTIVE
      && queueState == Encode(|content|, active, IsStopping(queueState))
      && accepted == taken + content
    }

    /** The queue its users see. */
    ghost function Abs(): Fifo
      reads this
    {
      Fifo(capacity, content, IsStopping(queueState), accepted, taken)
    }

    constructor (queueCapacity: nat)
      requires 1 <= queueCapacity <= MAX_CAPACITY
      ensures Valid() && fresh(tasks) && capacity == queueCapacity && active == 0
      ensures Abs() == Fifo(queueCapacity, [], false, [], [])
      ensures failedDispatches == cancelledDispatches == 0 && futures == []
    {
      capacity := queueCapacity;
      tasks := new Option<Item>[queueCapacity](i => None);
      queueState, queueHead, queueTail := 0, 0, 0;
      failedDispatches, cancelledDispatches, futures := 0, 0, [];
      content, active, accepted, taken := [], 0, [], [];
    }

    /** The constructor's validation: a capacity outside [1, 1024] is an error. */
    static method Create(queueCapacity: nat) returns (pool: Pool?)
      ensures pool == null <==> queueCapacity == 0 || queueCapacity > MAX_CAPACITY
      ensures pool != null ==> fresh(pool) && pool.Valid() && pool.Abs() == Fifo(queueCapacity, [], false, [], [])
    {
      if queueCapacity == 0 || queueCapacity > MAX_CAPACITY {
        return null;
      }
      pool := new Pool(queueCapacity);
    }

    /** Fills the slot at the tail and advances the tail. */
    method PushSlot(x: Item, ghost held: seq<Item>)
      requires tasks.Length == capacity && |held| < capacity
      requires Window(tasks[..], queueHead, held) && queueTail == At(capacity, queueHead, |held|)
      modifies this`queueTail, tasks
      ensures Window(tasks[..], queueHead, held + [x]) && queueTail == At(capacity, queueHead, |held| + 1)
    {
      PushWindow(tasks[..], queueHead, held, x);
      tasks[queueTail] := Some(x);
      queueTail := NextIndex(capacity, queueTail);
    }

    /** Empties the slot at the head and advances the head. */
    method PopSlot(ghost held: seq<Item>) returns (x: Item)
      requires tasks.Length == capacity && held != []
      requires Window(tasks[..], queueHead, held) && queueTail == At(capacity, queueHead, |held|)
      modifies this`queueHead, tasks
      ensures x == held[0]
      ensures Window(tasks[..], queueHead, held[1..]) && queueTail == At(capacity, queueHead, |held| - 1)
      ensures |held| > 1 ==> queueHead < tasks.Length && tasks[queueHead] == Some(held[1])
    {
      PopWindow(tasks[..], queueHead, held);
      x := tasks[queueHead].value;
      tasks[queueHead] := None;
      queueHead := NextIndex(capacity, queueHead);
      if |held| > 1 { PopWindow(tasks[..], queueHead, held[1..]); }
    }

    /** The single addition by which k emptied slots turn from pending into active. */
    method PublishClaimed(k: nat)
      requires tasks.Length == capacity && 1 <= capacity <= MAX_CAPACITY
      requires k <= |content| <= capacity && active + k <= MAX_ACTIVE
      requires Window(tasks[..], queueHead, content[k..])
      requires queueTail == At(capacity, queueHead, |content| - k)
      requires queueState == Encode(|content|, active, IsStopping(queueState)) && accepted == taken + content
      modifies this`queueState, this`content, this`active, this`taken
      ensures Valid() && active == old(active) + k
      ensures Abs() == old(Abs()).(queue := old(content)[k..], taken := old(taken) + old(content)[..k])
    {
      hide Encode, FetchAdd, FetchSub, FetchOrStop, IsStopping, PendingOf, ActiveOf, Window, At;
      FieldsAreIndependent(|content|, active, IsStopping(queueState), k);
      Decode(|content| - k, active + k, IsStopping(queueState));
      queueState := FetchAdd(queueState, k * (COUNT_RANGE - 1));
      assert content[..k] + content[k..] == content;
      taken := taken + content[..k];
      active := active + k;
      content := content[k..];
    }

    /** The single addition by which filled slots become pending. */
    method PublishWritten(k: nat, ghost xs: seq<Item>)
      requires tasks.Length == capacity && 1 <= capacity <= MAX_CAPACITY && active <= MAX_ACTIVE
      requires |xs| == k && |content| + k <= capacity && !IsStopping(queueState)
      requires Window(tasks[..], queueHead, content + xs)
      requires queueTail == At(capacity, queueHead, |content| + k)
      requires queueState == Encode(|content|, active, false) && accepted == taken + content
      modifies this`queueState, this`content, this`accepted
      ensures Valid()
      ensures Abs() == old(Abs()).(queue := old(content) + xs, accepted := old(accepted) + xs)
    {
      hide Encode, FetchAdd, FetchSub, FetchOrStop, PendingOf, ActiveOf, Window, At;
      FieldsAreIndependent(|content|, active, false, k);
      Decode(|content| + k, active, false);
      queueState := FetchAdd(queueState, k);
      accepted := accepted + xs;
      content := content + xs;
    }

    /** `enqueue` under the producer lock. */
    method TryEnqueue(item: Item) returns (r: Attempt)
      requires Valid()
      modifies this, tasks
      ensures Valid()
      ensures r == Rejected <==> old(IsStopping(queueState))
      ensures r == Full <==> !old(IsStopping(queueState)) && |old(content)| == capacity
      ensures if r == Accepted then Offer(old(Abs()), Abs(), [item]) else Abs() == old(Abs())
      ensures active == old(active) && futures == old(futures)
      ensures failedDispatches == old(failedDispatches) && cancelledDispatches == old(cancelledDispatches)
      ensures queueHead == old(queueHead)
    {
      Decode(|content|, active, IsStopping(queueState));
      if IsStopping(queueState) { return Rejected; }
      if PendingOf(queueState) == capacity { return Full; }
      PushSlot(item, content);
      PublishWritten(1, [item]);
      r := Accepted;
    }

    /** One refill of `dispatch_bulk` under the producer lock: moves as many further
        callbacks of the span as fit, in order, and leaves the rest of it alone. */
    method Refill(span: array<Option<Item>>, from: nat) returns (r: Attempt, moved: nat)
      requires Valid() && span != tasks && from < span.Length
      requires forall i :: from <= i < span.Length ==> span[i].Some?
      modifies this, tasks, span
      ensures Valid()
      ensures r == Rejected <==> old(IsStopping(queueState))
      ensures r == Full <==> !old(IsStopping(queueState)) && |old(content)| == capacity
      ensures r != Accepted ==> moved == 0 && Abs() == old(Abs())
      ensures r == Accepted ==> moved == Min(span.Length - from, capacity - |old(content)|)
      ensures from + moved <= span.Length
      ensures r == Accepted ==> Offer(old(Abs()), Abs(), Moved(old(span[from..from + moved])))
      ensures forall i :: 0 <= i < span.Length ==>
                span[i] == if from <= i < from + moved then None else old(span[i])
      ensures active == old(active) && futures == old(futures)
      ensures failedDispatches == old(failedDispatches) && cancelledDispatches == old(cancelledDispatches)
      ensures queueHead == old(queueHead)
    {
      moved := 0;
      Decode(|content|, active, IsStopping(queueState));
      if IsStopping(queueState) { return Rejected, 0; }
      var available := capacity - PendingOf(queueState);
      if available == 0 { return Full, 0; }
      moved := Min(span.Length - from, available);
      ghost var items := Moved(span[from..from + moved]);
      MoveIn(span, from, moved);
      PublishWritten(moved, items);
      r := Accepted;
    }

    /** The loop of a refill: moves `count` callbacks from the span into the ring. */
    method MoveIn(span: array<Option<Item>>, from: nat, count: nat)
      requires tasks.Length == capacity && span != tasks && from + count <= span.Length
      requires forall i :: from <= i < from + count ==> span[i].Some?
      requires |content| + count <= capacity && Window(tasks[..], queueHead, content)
      requires queueTail == At(capacity, queueHead, |content|)
      modifies this`queueTail, tasks, span
      ensures Window(tasks[..], queueHead, content + Moved(old(span[from..from + count])))
      ensures queueTail == At(capacity, queueHead, |content| + count)
      ensures forall i :: 0 <= i < span.Length ==>
                span[i] == if from <= i < from + count then None else old(span[i])
    {
      ghost var items := Moved(span[from..from + count]);
      var moved := 0;
      assert content + items[..0] == content;
      while moved < count
        invariant 0 <= moved <= count
        invariant Window(tasks[..], queueHead, content + items[..moved])
        invariant queueTail == At(capacity, queueHead, |content| + moved)
        invariant forall i :: 0 <= i < span.Length ==>
                    span[i] == if from <= i < from + moved then None else old(span[i])
      {
        assert content + items[..moved] + [items[moved]] == content + items[..moved + 1];
        PushSlot(span[from + moved].value, content + items[..moved]);
        span[from + moved] := None;
        moved := moved + 1;
      }
      assert items[..moved] == items;
    }

    /** Other threads run any of the pool's operations; a claim needs a free worker,
        and 1024 workers never hold more than 16 tasks each; a finisher releases the
        batch it holds. A refill by another thread is a series of submissions. */
    method Interfere(others: seq<Other>)
      requires Valid()
      modifies this, tasks
      ensures Valid() && old(accepted) <= accepted
      ensures old(IsStopping(queueState)) ==> IsStopping(queueState) && accepted == old(accepted)
    {
      for k := 0 to |others|
        invariant Valid() && old(accepted) <= accepted
        invariant old(IsStopping(queueState)) ==> IsStopping(queueState) && accepted == old(accepted)
      {
        match others[k]
        case OtherSubmits(item) => var r := TryEnqueue(item);
        case OtherClaims =>
          DecodeUnbounded(|content|, active, IsStopping(queueState));
          if UnboundedActive(queueState) + BULK_CLAIM <= MAX_ACTIVE { var batch := ClaimNext(); }
        case OtherFinishes(count) =>
          DecodeUnbounded(|content|, active, IsStopping(queueState));
          if 0 < count <= Min(BULK_CLAIM, UnboundedActive(queueState)) { var notify := FinishTasks(count); }
        case OtherCancels => var n, notify := CancelPending();
        case OtherStops => SetStopping();
      }
    }

    /** One round of `dispatch_bulk` behind whatever other threads did: the callbacks
        it moves take the next places of the history. */
    method NextRefill(span: array<Option<Item>>, n: nat, ghost from: nat, ghost tickets: seq<nat>,
        ghost items: seq<Item>)
      returns (r: Attempt, moved: nat, ghost more: seq<nat>)
      requires Valid() && span != tasks && n < span.Length == |items|
      requires forall i :: n <= i < span.Length ==> span[i] == Some(items[i])
      requires |tickets| == n && from <= |accepted| && Placed(accepted, from, tickets, items)
      modifies this, tasks, span
      ensures Valid() && old(accepted) <= accepted && n + moved <= span.Length && |more| == moved
      ensures Placed(accepted, from, tickets + more, items)
      ensures r == Rejected ==> moved == 0 && IsStopping(queueState)
      ensures forall i :: 0 <= i < span.Length ==> span[i] == if n <= i < n + moved then None else old(span[i])
    {
      ghost var before := accepted;
      ghost var rest := span[n..];
      assert forall i :: 0 <= i < |rest| ==> rest[i] == Some(items[n + i]);
      r, moved := Refill(span, n);
      hide Window, Encode, IsStopping;
      more := [];
      if r == Accepted {
        assert rest[..moved] == old(span[n..n + moved]);
        assert items[n..n + moved] == Moved(rest[..moved]);
        hide Moved;
        PlacedMore(before, accepted, from, tickets, items, moved);
        more := seq(moved, i requires 0 <= i < moved => |before| + i);
      } else {
        assert tickets + more == tickets;
      }
    }

    /** `dispatch_bulk`: as many bounded refills as needed, with other threads running
        in between. Exactly the first n callbacks are moved, in order, into the
        acceptance history, at the returned positions; the rest of the span is
        untouched; and n falls short only if the pool is stopping or still full. */
    method DispatchBulk(span: array<Option<Item>>, schedule: seq<seq<Other>>)
      returns (n: nat, how: Dispatch, ghost tickets: seq<nat>)
      requires Valid() && span != tasks && forall i :: 0 <= i < span.Length ==> span[i].Some?
      modifies this, tasks, span
      ensures Valid() && n <= span.Length
      ensures forall i :: 0 <= i < span.Length ==> span[i] == if i < n then None else old(span[i])
      ensures old(accepted) <= accepted && |tickets| == n
      ensures Placed(accepted, |old(accepted)|, tickets, Moved(old(span[..])))
      ensures how == Complete <==> n == span.Length
      ensures how == Stopped ==> IsStopping(queueState)
    {
      hide IsStopping;
      n, tickets := 0, [];
      ghost var items := Moved(span[..]);
      var round := 0;
      while n < span.Length && round < |schedule|
        invariant Valid() && n <= span.Length && |tickets| == n && round <= |schedule|
        invariant forall i :: 0 <= i < span.Length ==> span[i] == if i < n then None else old(span[i])
        invariant old(accepted) <= accepted && Placed(accepted, |old(accepted)|, tickets, items)
        decreases |schedule| - round
      {
        Interfere(schedule[round]);
        assert Placed(accepted, |old(accepted)|, tickets, items);
        var r, moved;
        ghost var more;
        r, moved, more := NextRefill(span, n, |old(accepted)|, tickets, items);
        tickets := tickets + more;
        n := n + moved;
        if r == Rejected { return n, Stopped, tickets; }
        round := round + 1;
      }
      how := if n == span.Length then Complete else Waiting;
    }

    /** A worker's critical section: nothing, one scalar task, or a bulk batch. */
    method ClaimNext() returns (batch: seq<Item>)
      requires Valid() && active + BULK_CLAIM <= MAX_ACTIVE
      modifies this, tasks
      ensures Valid()
      ensures old(content) == [] ==> batch == [] && Abs() == old(Abs())
      ensures old(content) != [] ==>
                && Take(old(Abs()), Abs(), |old(content)|, |batch|)
                && batch == old(content)[..|batch|]
      ensures active == old(active) + |batch| && futures == old(futures)
      ensures failedDispatches == old(failedDispatches) && cancelledDispatches == old(cancelledDispatches)
      ensures queueTail == old(queueTail)
    {
      Decode(|content|, active, IsStopping(queueState));
      if PendingOf(queueState) == 0 { return []; }
      PopWindow(tasks[..], queueHead, content);
      if tasks[queueHead].value.bulk {
        batch := ProcessBulk();
      } else {
        batch := TakeScalar();
      }
    }

    method TakeScalar() returns (batch: seq<Item>)
      requires Valid() && active < MAX_ACTIVE && content != [] && !content[0].bulk
      modifies this, tasks
      ensures Valid()
      ensures Take(old(Abs()), Abs(), |old(content)|, 1)
      ensures batch == old(content)[..1]
      ensures active == old(active) + 1 && futures == old(futures)
      ensures failedDispatches == old(failedDispatches) && cancelledDispatches == old(cancelledDispatches)
      ensures queueTail == old(queueTail)
    {
      var x := PopSlot(content);
      batch := [x];
      PublishClaimed(1);
    }

    /** `process_bulk` up to its release of the consumer lock. */
    method ProcessBulk() returns (batch: seq<Item>)
      requires Valid() && active + BULK_CLAIM <= MAX_ACTIVE
      requires content != [] && content[0].bulk
      modifies this, tasks
      ensures Valid()
      ensures Take(old(Abs()), Abs(), |old(content)|, |batch|)
      ensures batch == old(content)[..|batch|]
      ensures active == old(active) + |batch| && futures == old(futures)
      ensures failedDispatches == old(failedDispatches) && cancelledDispatches == old(cancelledDispatches)
      ensures queueTail == old(queueTail)
    {
      Decode(|content|, active, IsStopping(queueState));
      var limit := Min(BULK_CLAIM, PendingOf(queueState));
      batch := MoveOut(limit);
      hide Encode, IsStopping, PendingOf, ActiveOf, Window;
      PublishClaimed(|batch|);
    }

    /** The loop of a bulk claim: empties slots from the head on, up to the limit or
        the first scalar task. */
    method MoveOut(limit: nat) returns (batch: seq<Item>)
      requires tasks.Length == capacity && 0 < limit <= |content|
      requires Window(tasks[..], queueHead, content) && queueTail == At(capacity, queueHead, |content|)
      modifies this`queueHead, tasks
      ensures |batch| <= limit && batch == content[..|batch|] && IsBulkPrefix(content, limit, |batch|)
      ensures Window(tasks[..], queueHead, content[|batch|..])
      ensures queueTail == At(capacity, queueHead, |content| - |batch|)
    {
      batch := [];
      PopWindow(tasks[..], queueHead, content);
      while |batch| < limit && tasks[queueHead].value.bulk
        invariant |batch| <= limit && batch == content[..|batch|]
        invariant Window(tasks[..], queueHead, content[|batch|..])
        invariant queueTail == At(capacity, queueHead, |content| - |batch|)
        invariant |batch| < limit ==> tasks[queueHead] == Some(content[|batch|])
        invariant forall i :: 0 <= i < |batch| ==> content[i].bulk
        decreases limit - |batch|
      {
        assert content[|batch|..][1..] == content[|batch| + 1..];
        var x := PopSlot(content[|batch|..]);
        batch := batch + [x];
      }
    }

    /** `execute`: the future of a tracked task is completed; the failure of an
        untracked one is counted. */
    method Execute(item: Item, outcome: Outcome)
      modifies this`futures, this`failedDispatches
      ensures futures == old(futures) + if item.tracked then [Completed(item, outcome)] else []
      ensures failedDispatches == old(failedDispatches) + Failure(item, outcome)
    {
      if !item.tracked {
        if outcome.Threw? || !outcome.ok { failedDispatches := failedDispatches + 1; }
        return;
      }
      futures := futures + [Completed(item, outcome)];
    }

    /** `finish_tasks`: true if idle waiters must be notified, which is exactly when
        the subtraction has made the word look idle. */
    method FinishTasks(count: nat) returns (notify: bool)
      requires Valid() && 0 < count <= BULK_CLAIM && count <= active
      modifies this`queueState, this`active
      ensures Valid() && Abs() == old(Abs()) && active == old(active) - count
      ensures notify <==> LooksIdle(queueState)
    {
      FieldsAreIndependent(|content|, active, IsStopping(queueState), count);
      FinisherTest(|content|, active, IsStopping(queueState), count);
      Decode(|content|, active - count, IsStopping(queueState));
      var previous := queueState;
      queueState := FetchSub(queueState, count * COUNT_RANGE);
      active := active - count;
      notify := ActiveOf(previous) == count && PendingOf(previous) == 0;
    }

    /** A claimed batch is run in queue order and then released as a whole. */
    method RunBatch(batch: seq<Item>, outcomes: seq<Outcome>) returns (notify: bool)
      requires Valid() && 0 < |batch| == |outcomes| <= BULK_CLAIM && |batch| <= active
      modifies this
      ensures Valid() && Abs() == old(Abs()) && active == old(active) - |batch|
      ensures futures == old(futures) + CompletedFutures(batch, outcomes)
      ensures failedDispatches == old(failedDispatches) + Failures(batch, outcomes)
      ensures cancelledDispatches == old(cancelledDispatches)
      ensures notify <==> LooksIdle(queueState)
      ensures queueHead == old(queueHead)
    {
      var index := 0;
      while index < |batch|
        invariant 0 <= index <= |batch| && Valid() && Abs() == old(Abs()) && active == old(active)
        invariant queueHead == old(queueHead)
        invariant futures == old(futures) + CompletedFutures(batch[..index], outcomes[..index])
        invariant failedDispatches == old(failedDispatches) + Failures(batch[..index], outcomes[..index])
        invariant cancelledDispatches == old(cancelledDispatches)
      {
        Execute(batch[index], outcomes[index]);
        assert batch[..index + 1][..index] == batch[..index];
        assert outcomes[..index + 1][..index] == outcomes[..index];
        index := index + 1;
      }
      assert batch[..index] == batch && outcomes[..index] == outcomes;
      notify := FinishTasks(|batch|);
    }

    /** `cancel_pending`, which holds both locks: every waiting task is dropped, its
        future cancelled or its loss counted, and no other task is touched. */
    method CancelPending() returns (cancelled: nat, notify: bool)
      requires Valid()
      modifies this, tasks
      ensures Valid()
      ensures cancelled == |old(content)|
      ensures DropAll(old(Abs()), Abs())
      ensures futures == old(futures) + CancelledFutures(old(content))
      ensures cancelledDispatches == old(cancelledDispatches) + Sum(Untracked, old(content))
      ensures active == old(active) && failedDispatches == old(failedDispatches)
      ensures notify <==> cancelled != 0 && LooksIdle(queueState)
      ensures queueHead == queueTail == old(queueTail)
    {
      Decode(|content|, active, IsStopping(queueState));
      cancelled := PendingOf(queueState);
      SettleAll(cancelled);
      queueTail := queueHead;
      notify := false;
      if cancelled != 0 {
        PublishCancelled(cancelled);
        notify := ActiveOf(queueState) == 0;
      }
    }

    method PublishCancelled(k: nat)
      requires tasks.Length == capacity && 1 <= capacity <= MAX_CAPACITY && active <= MAX_ACTIVE
      requires k == |content| <= capacity && Window(tasks[..], queueHead, []) && queueTail == queueHead
      requires queueState == Encode(k, active, IsStopping(queueState)) && accepted == taken + content
      modifies this`queueState, this`content, this`taken
      ensures Valid() && PendingOf(queueState) == 0
      ensures Abs() == old(Abs()).(queue := [], taken := old(taken) + old(content))
    {
      hide FetchSub;
      FieldsAreIndependent(k, active, IsStopping(queueState), k);
      Decode(0, active, IsStopping(queueState));
      queueState := FetchSub(queueState, k);
      taken := taken + content;
      content := [];
    }

    /** A cancelled task: its future is completed, or its loss counted. */
    method Settle(item: Item)
      modifies this`futures, this`cancelledDispatches
      ensures futures == old(futures) + if item.tracked then [CancelledFuture(item)] else []
      ensures cancelledDispatches == old(cancelledDispatches) + Untracked(item)
    {
      if item.tracked {
        futures := futures + [CancelledFuture(item)];
      } else {
        cancelledDispatches := cancelledDispatches + 1;
      }
    }

    /** The loop of a cancellation: settles and removes every waiting task. */
    method SettleAll(total: nat)
      requires tasks.Length == capacity && total == |content| && Window(tasks[..], queueHead, content)
      requires queueTail == At(capacity, queueHead, |content|)
      modifies this`queueHead, this`futures, this`cancelledDispatches, tasks
      ensures Window(tasks[..], queueHead, [])
      ensures futures == old(futures) + CancelledFutures(content)
      ensures cancelledDispatches == old(cancelledDispatches) + Sum(Untracked, content)
      ensures queueHead == queueTail
    {
      var remaining := total;
      ghost var gone := 0;
      while remaining != 0
        invariant gone + remaining == total
        invariant Window(tasks[..], queueHead, content[gone..])
        invariant queueTail == At(capacity, queueHead, |content| - gone)
        invariant futures == old(futures) + CancelledFutures(content[..gone])
        invariant cancelledDispatches == old(cancelledDispatches) + Sum(Untracked, content[..gone])
        decreases remaining
      {
        assert content[gone..][1..] == content[gone + 1..];
        assert content[..gone + 1] == content[..gone] + [content[gone]];
        SumAppend(Untracked, content[..gone], content[gone]);
        var item := PopSlot(content[gone..]);
        Settle(item);
        remaining := remaining - 1;
        gone := gone + 1;
      }
      assert content[..gone] == content;
    }

    /** `signal_shutdown` under the producer lock. */
    method SetStopping()
      requires Valid()
      modifies this`queueState
      ensures Valid() && Close(old(Abs()), Abs())
    {
      FieldsAreIndependent(|content|, active, IsStopping(queueState), 0);
      Decode(|content|, active, true);
      queueState := FetchOrStop(queueState);
    }
  }

  /** The settlements are those of exactly the tracked tasks, in order, each its own. */
  ghost predicate PicksTracked(xs: seq<Item>, own: seq<Settlement>, fs: seq<Settlement>, at: seq<nat>)
    requires |own| == |xs|
  {
    && |at| == |fs|
    && (forall j :: 0 <= j < |at| ==> at[j] < |xs| && xs[at[j]].tracked && fs[j] == own[at[j]])
    && (forall j, k :: 0 <= j < k < |at| ==> at[j] < at[k])
    && (forall t :: 0 <= t < |xs| && xs[t].tracked ==> t in at)
  }

  lemma PicksMore(xs: seq<Item>, own: seq<Settlement>, fs: seq<Settlement>, at: seq<nat>)
    requires |own| == |xs| > 0 && PicksTracked(xs[..|xs| - 1], own[..|xs| - 1], fs, at)
    ensures var n := |xs| - 1;
            if xs[n].tracked then PicksTracked(xs, own, fs + [own[n]], at + [n]) else PicksTracked(xs, own, fs, at)
  {
    var n := |xs| - 1;
    assert forall t :: 0 <= t < n ==> xs[..n][t] == xs[t] && own[..n][t] == own[t];
    var more := if xs[n].tracked then at + [n] else at;
    forall t | 0 <= t < |xs| && xs[t].tracked ensures t in more {
      if t == n { assert more[|at|] == n; } else { assert xs[..n][t].tracked; }
    }
  }

  /** The future of every task, if it had one, completed with its own outcome ... */
  function Completions(xs: seq<Item>, os: seq<Outcome>): (r: seq<Settlement>)
    requires |xs| == |os|
    ensures |r| == |xs| && forall t :: 0 <= t < |xs| ==> r[t] == Completed(xs[t], os[t])
  {
    seq(|xs|, t requires 0 <= t < |xs| => Completed(xs[t], os[t]))
  }

  /** ... or cancelled. */
  function Cancellations(xs: seq<Item>): (r: seq<Settlement>)
    ensures |r| == |xs| && forall t :: 0 <= t < |xs| ==> r[t] == CancelledFuture(xs[t])
  {
    seq(|xs|, t requires 0 <= t < |xs| => CancelledFuture(xs[t]))
  }

  /** The untracked tasks that threw or returned an error. */
  ghost function LostFailures(xs: seq<Item>, os: seq<Outcome>): set<nat>
    requires |xs| == |os|
  {
    set t: nat | t < |xs| && !xs[t].tracked && (os[t] == Threw || os[t] == Returned(false))
  }

  /** Every tracked task of a batch, and no other, has its future completed, once, in
      queue order, with the very outcome of its own callback; and the failures counted
      are those of the untracked tasks that threw or returned an error. */
  lemma {:induction false} FuturesAreTracked(xs: seq<Item>, os: seq<Outcome>) returns (at: seq<nat>)
    requires |xs| == |os|
    ensures PicksTracked(xs, Completions(xs, os), CompletedFutures(xs, os), at)
    ensures Failures(xs, os) == |LostFailures(xs, os)|
    decreases |xs|
  {
    at := [];
    if |xs| > 0 {
      var n := |xs| - 1;
      LostOneMore(xs, os);
      hide LostFailures, PicksTracked;
      at := FuturesAreTracked(xs[..n], os[..n]);
      assert Completions(xs, os)[..n] == Completions(xs[..n], os[..n]);
      PicksMore(xs, Completions(xs, os), CompletedFutures(xs[..n], os[..n]), at);
      if xs[n].tracked { at := at + [n]; }
    } else {
      assert LostFailures(xs, os) == {};
    }
  }

  lemma LostOneMore(xs: seq<Item>, os: seq<Outcome>)
    requires |xs| == |os| > 0
    ensures var n := |xs| - 1;
            |LostFailures(xs, os)| == |LostFailures(xs[..n], os[..n])| + Failure(xs[n], os[n])
  {
    var n := |xs| - 1;
    var before, lost := LostFailures(xs[..n], os[..n]), LostFailures(xs, os);
    assert os[n].Returned? && !os[n].ok ==> os[n] == Returned(false);
    assert lost == if Failure(xs[n], os[n]) == 1 then before + {n} else before;
  }

  lemma {:induction false} FutureOrCount(xs: seq<Item>)
    ensures |CancelledFutures(xs)| + Sum(Untracked, xs) == |xs|
    decreases |xs|
  {
    if |xs| > 0 { FutureOrCount(xs[..|xs| - 1]); }
  }

  /** Cancelling settles every waiting task: its own future for each tracked one, in
      order, and a count for the rest. */
  lemma {:induction false} CancellationSettlesAll(xs: seq<Item>) returns (at: seq<nat>)
    ensures PicksTracked(xs, Cancellations(xs), CancelledFutures(xs), at)
    ensures |CancelledFutures(xs)| + Sum(Untracked, xs) == |xs|
    decreases |xs|
  {
    FutureOrCount(xs);
    at := [];
    if |xs| > 0 {
      var n := |xs| - 1;
      hide PicksTracked, Sum;
      at := CancellationSettlesAll(xs[..n]);
      assert Cancellations(xs)[..n] == Cancellations(xs[..n]);
      PicksMore(xs, Cancellations(xs), CancelledFutures(xs[..n]), at);
      if xs[n].tracked { at := at + [n]; }
    }
  }
}
