/** A fixed array of slots used as a ring. */
module Ring {
  import opened Common

  function NextIndex(capacity: nat, index: nat): nat {
    if index + 1 == capacity then 0 else index + 1
  }

  /** The i-th slot counted from the head. */
  function At(capacity: nat, head: nat, i: nat): nat
    requires head < capacity && i <= capacity
  {
    if head + i < capacity then head + i else head + i - capacity
  }

  /** The full slots are exactly a circular window that starts at the head and holds
      `content` in order; every other slot is empty. */
  ghost predicate Window<T(!new)>(slots: seq<Option<T>>, head: nat, content: seq<T>) {
    && head < |slots| && |content| <= |slots|
    && (forall i {:trigger At(|slots|, head, i)} :: 0 <= i < |content| ==>
          slots[At(|slots|, head, i)] == Some(content[i]))
    && (forall i {:trigger At(|slots|, head, i)} :: |content| <= i < |slots| ==>
          slots[At(|slots|, head, i)] == None)
  }

  /** Emptying the head slot and advancing the head drops the oldest element. */
  lemma PopWindow<T(!new)>(slots: seq<Option<T>>, head: nat, content: seq<T>)
    requires Window(slots, head, content) && |content| > 0
    ensures slots[head] == Some(content[0])
    ensures Window(slots[head := None], NextIndex(|slots|, head), content[1..])
  {
    var slots', head', n := slots[head := None], NextIndex(|slots|, head), |slots|;
    assert At(n, head, 0) == head;
    forall i {:trigger At(n, head', i)} | 0 <= i < n
      ensures i < |content| - 1 ==> slots'[At(n, head', i)] == Some(content[1..][i])
      ensures |content| - 1 <= i ==> slots'[At(n, head', i)] == None
    {
      if i + 1 < n {
        assert At(n, head', i) == At(n, head, i + 1) != head;
      } else {
        assert At(n, head', i) == head;
      }
    }
  }

  /** Filling the slot at the tail appends an element. */
  lemma PushWindow<T(!new)>(slots: seq<Option<T>>, head: nat, content: seq<T>, x: T)
    requires Window(slots, head, content) && |content| < |slots|
    ensures At(|slots|, head, |content|) < |slots|
    ensures slots[At(|slots|, head, |content|)] == None
    ensures Window(slots[At(|slots|, head, |content|) := Some(x)], head, content + [x])
    ensures NextIndex(|slots|, At(|slots|, head, |content|)) == At(|slots|, head, |content| + 1)
  {
    var tail, n := At(|slots|, head, |content|), |slots|;
    var slots' := slots[tail := Some(x)];
    forall i {:trigger At(n, head, i)} | 0 <= i < n
      ensures i < |content| + 1 ==> slots'[At(n, head, i)] == Some((content + [x])[i])
      ensures |content| + 1 <= i ==> slots'[At(n, head, i)] == None
    {
      assert At(n, head, i) == tail <==> i == |content|;
    }
  }

  /** Head and content determine all slots, and the slots determine the content. */
  lemma WindowIsUnique<T(!new)>(a: seq<Option<T>>, b: seq<Option<T>>, head: nat, content: seq<T>)
    requires |a| == |b| && Window(a, head, content) && Window(b, head, content)
    ensures a == b
  {
    var n := |a|;
    forall j | 0 <= j < n ensures a[j] == b[j] {
      var i := if j >= head then j - head else j + n - head;
      assert At(n, head, i) == j;
    }
  }

  lemma ContentIsUnique<T(!new)>(a: seq<Option<T>>, head: nat, x: seq<T>, y: seq<T>)
    requires Window(a, head, x) && Window(a, head, y) && |x| == |y|
    ensures x == y
  {
    forall i | 0 <= i < |x| ensures x[i] == y[i] {
      assert a[At(|a|, head, i)] == Some(x[i]) && a[At(|a|, head, i)] == Some(y[i]);
    }
  }

  /** Tail and length determine the head. */
  lemma HeadIsUnique(capacity: nat, g: nat, h: nat, n: nat)
    requires g < capacity && h < capacity && n <= capacity && At(capacity, g, n) == At(capacity, h, n)
    ensures g == h
  {
  }
}
