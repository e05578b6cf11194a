/** The pool's queue as its users see it: a bounded first-in first-out queue that
    takes refills, gives out claims, can be emptied, and can be closed. */
module BoundedFifo {
  import opened Common
  import opened PackedState
  import opened PoolMachine

  datatype Fifo = Fifo(
    capacity: nat,
    queue: seq<Item>,
    stopping: bool,
    accepted: seq<Item>,
    taken: seq<Item>)

  /** `k` is the length of the longest all-bulk prefix of `queue`, cut at `limit`. */
  predicate IsBulkPrefix(queue: seq<Item>, limit: nat, k: nat) {
    && k <= limit && k <= |queue|
    && (forall i :: 0 <= i < k ==> queue[i].bulk)
    && (k == limit || k == |queue| || !queue[k].bulk)
  }

  /** What one worker may claim after seeing `seen` pending tasks: a single scalar
      task, or the longest run of bulk tasks, never more than 16. */
  predicate IsClaim(queue: seq<Item>, seen: nat, k: nat) {
    && 1 <= seen <= |queue| && 1 <= k
    && if queue[0].bulk then IsBulkPrefix(queue, Min(BULK_CLAIM, seen), k) else k == 1
  }

  predicate Offer(f: Fifo, g: Fifo, xs: seq<Item>) {
    && !f.stopping && |xs| > 0 && |f.queue| + |xs| <= f.capacity
    && g == f.(queue := f.queue + xs, accepted := f.accepted + xs)
  }

  predicate Take(f: Fifo, g: Fifo, seen: nat, k: nat) {
    && IsClaim(f.queue, seen, k) && k <= |f.queue|
    && g == f.(queue := f.queue[k..], taken := f.taken + f.queue[..k])
  }

  predicate DropAll(f: Fifo, g: Fifo) {
    g == f.(queue := [], taken := f.taken + f.queue)
  }

  predicate Close(f: Fifo, g: Fifo) {
    g == f.(stopping := true)
  }

  ghost predicate FifoNext(f: Fifo, g: Fifo) {
    || g == f
    || (exists xs :: Offer(f, g, xs))
    || (exists seen: nat, k: nat :: Take(f, g, seen, k))
    || DropAll(f, g)
    || Close(f, g)
  }

  predicate Orderly(f: Fifo) {
    f.accepted == f.taken + f.queue && |f.queue| <= f.capacity
  }

  ghost predicate Advances(f: Fifo, g: Fifo) {
    && Orderly(g) && f.accepted <= g.accepted && f.taken <= g.taken
    && (f.stopping ==> g.stopping && g.accepted == f.accepted)
  }

  lemma OfferAdvances(f: Fifo, g: Fifo, xs: seq<Item>)
    requires Orderly(f) && Offer(f, g, xs)
    ensures Advances(f, g)
  {
    assert f.accepted + xs == f.taken + (f.queue + xs);
  }

  lemma TakeAdvances(f: Fifo, g: Fifo, seen: nat, k: nat)
    requires Orderly(f) && Take(f, g, seen, k)
    ensures Advances(f, g)
  {
    assert f.queue[..k] + f.queue[k..] == f.queue;
  }

  /** Tasks leave in the order in which they were accepted, each exactly once. */
  lemma FifoKeepsOrder(f: Fifo, g: Fifo)
    requires Orderly(f) && FifoNext(f, g)
    ensures Advances(f, g)
  {
    if xs :| Offer(f, g, xs) {
      OfferAdvances(f, g, xs);
    } else if seen: nat, k: nat :| Take(f, g, seen, k) {
      TakeAdvances(f, g, seen, k);
    }
  }

  /** A claim is determined by the queue and the pending count that was read. */
  lemma ClaimIsUnique(queue: seq<Item>, seen: nat, j: nat, k: nat)
    requires IsClaim(queue, seen, j) && IsClaim(queue, seen, k)
    ensures j == k <= BULK_CLAIM
  {
  }
}
