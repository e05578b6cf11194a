/** The 64-bit word in which the pool packs its two counters and the stopping bit.
    Bits 0-10 count pending tasks, bits 11-21 count active tasks, bit 63 says
    that the pool rejects new work. */
module PackedState {

  const COUNT_RANGE: nat := 0x800             // 2^11, also one unit of the active field
  const STOP_UNIT: nat := 0x8000_0000_0000_0000
  const WORD_RANGE: nat := 0x1_0000_0000_0000_0000
  const MAX_WORKERS: nat := 1024
  const MAX_CAPACITY: nat := 1024
  const BULK_CLAIM: nat := 16

  type Word = w: nat | w < WORD_RANGE

  function PendingOf(w: Word): nat { w % COUNT_RANGE }

  function ActiveOf(w: Word): nat { w / COUNT_RANGE % COUNT_RANGE }

  predicate IsStopping(w: Word) { w >= STOP_UNIT }

  predicate LooksIdle(w: Word) { PendingOf(w) == 0 && ActiveOf(w) == 0 }

  /** The atomic updates wrap around at 2^64. */
  function FetchAdd(w: Word, d: nat): Word { (w + d) % WORD_RANGE }

  function FetchSub(w: Word, d: nat): Word { (w - d) % WORD_RANGE }

  function FetchOrStop(w: Word): Word { if IsStopping(w) then w else w + STOP_UNIT }

  // The masks and the shift of the packed word, on a machine word itself, pick
  // exactly the remainders, quotients and comparison used above.

  lemma PendingMask(w: bv64)
    ensures w & 0x7FF == w % 0x800
  {
  }

  lemma ActiveMask(w: bv64)
    ensures (w & 0x3F_F800) >> 11 == (w / 0x800) % 0x800
  {
  }

  lemma StoppingMask(w: bv64)
    ensures (w & 0x8000_0000_0000_0000 != 0) <==> w >= 0x8000_0000_0000_0000
  {
  }

  /** The largest true number of active tasks: 1024 workers with 16 tasks each. */
  const MAX_ACTIVE: nat := 16384

  /** The word for true counts. `a` may exceed the 11 bits of the active field. */
  function Encode(p: nat, a: nat, stop: bool): (w: Word)
    requires p < COUNT_RANGE && a <= MAX_ACTIVE
  {
    p + COUNT_RANGE * a + if stop then STOP_UNIT else 0
  }

  /** Pending and stopping always decode exactly; active decodes modulo 2^11. */
  lemma Decode(p: nat, a: nat, stop: bool)
    requires p < COUNT_RANGE && a <= MAX_ACTIVE
    ensures PendingOf(Encode(p, a, stop)) == p
    ensures ActiveOf(Encode(p, a, stop)) == a % COUNT_RANGE
    ensures IsStopping(Encode(p, a, stop)) == stop
  {
    var s: nat := if stop then 0x10_0000_0000_0000 else 0;
    assert Encode(p, a, stop) == p + COUNT_RANGE * (a + s);
    assert Encode(p, a, stop) / COUNT_RANGE == a + s;
    assert s == COUNT_RANGE * (if stop then 0x200_0000_0000 else 0);
  }

  lemma AddField(p: nat, a: nat, stop: bool, k: nat)
    requires p + k < COUNT_RANGE && a <= MAX_ACTIVE
    ensures FetchAdd(Encode(p, a, stop), k) == Encode(p + k, a, stop)
  {
  }

  lemma MoveField(p: nat, a: nat, stop: bool, k: nat)
    requires p < COUNT_RANGE && k <= p && a + k <= MAX_ACTIVE
    ensures FetchAdd(Encode(p, a, stop), k * (COUNT_RANGE - 1)) == Encode(p - k, a + k, stop)
  {
  }

  lemma SubField(p: nat, a: nat, stop: bool, k: nat)
    requires p < COUNT_RANGE && a <= MAX_ACTIVE
    ensures k <= a ==> FetchSub(Encode(p, a, stop), k * COUNT_RANGE) == Encode(p, a - k, stop)
    ensures k <= p ==> FetchSub(Encode(p, a, stop), k) == Encode(p - k, a, stop)
  {
  }

  /** Every update of the pool acts on the fields as on independent counters:
      nothing carries out of, or borrows into, a neighbouring field. */
  lemma FieldsAreIndependent(p: nat, a: nat, stop: bool, k: nat)
    requires p < COUNT_RANGE && a <= MAX_ACTIVE
    ensures p + k < COUNT_RANGE ==> FetchAdd(Encode(p, a, stop), k) == Encode(p + k, a, stop)
    ensures k <= p && a + k <= MAX_ACTIVE ==>
              FetchAdd(Encode(p, a, stop), k * (COUNT_RANGE - 1)) == Encode(p - k, a + k, stop)
    ensures k <= a ==> FetchSub(Encode(p, a, stop), k * COUNT_RANGE) == Encode(p, a - k, stop)
    ensures k <= p ==> FetchSub(Encode(p, a, stop), k) == Encode(p - k, a, stop)
    ensures FetchOrStop(Encode(p, a, stop)) == Encode(p, a, true)
  {
    hide FetchAdd, FetchSub;
    if p + k < COUNT_RANGE { AddField(p, a, stop, k); }
    if k <= p && a + k <= MAX_ACTIVE { MoveField(p, a, stop, k); }
    SubField(p, a, stop, k);
  }

  /** A finisher of k tasks that sees "active = k, nothing pending" in the previous
      word has, for every true count, exactly made the word look idle. */
  lemma FinisherTest(p: nat, a: nat, stop: bool, k: nat)
    requires p < COUNT_RANGE && a <= MAX_ACTIVE && 0 < k <= BULK_CLAIM && k <= a
    ensures ActiveOf(Encode(p, a, stop)) == k && PendingOf(Encode(p, a, stop)) == 0
            <==> LooksIdle(FetchSub(Encode(p, a, stop), k * COUNT_RANGE))
  {
    FieldsAreIndependent(p, a, stop, k);
    Decode(p, a, stop);
    Decode(p, a - k, stop);
  }

  /** The active count with the unused bits 22-62 included: never wraps. */
  function UnboundedActive(w: Word): nat { w % STOP_UNIT / COUNT_RANGE }

  lemma DecodeUnbounded(p: nat, a: nat, stop: bool)
    requires p < COUNT_RANGE && a <= MAX_ACTIVE
    ensures UnboundedActive(Encode(p, a, stop)) == a
  {
    assert Encode(p, a, stop) % STOP_UNIT == p + COUNT_RANGE * a;
  }
}
