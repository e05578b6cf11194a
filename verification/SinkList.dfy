/** The synchronous logger: the sink list, its cached single sink, and delivery. */
module SinkList {
  import opened Common
  import opened Errors
  import opened TextRecord

  /** A registered sink; `owned` if the logger shares its ownership. */
  datatype Slot = Slot(sink: nat, owned: bool)

  /** An attach or detach, by a callback or by another thread. A null owner attaches nothing. */
  datatype Change = Attach(sink: nat) | AttachOwned(owner: Option<nat>) | Detach(sink: nat)

  datatype Call = Call(sink: nat, entry: Entry)

  /** What a callback does: changes to the sink list while it runs, then its result. */
  datatype Response = Accepts(accepted: bool) | Throws
  datatype Reaction = Reaction(changes: seq<Change>, response: Response)

  /** All callbacks, as a function of everything called so far, the current call last. */
  type Sinks = seq<Call> -> Reaction

  datatype Outcome = Returned(accepted: bool) | Threw

  // ----------------------------------------------------------------- specification

  predicate Holds(slots: seq<Slot>, sink: nat) {
    exists k :: 0 <= k < |slots| && slots[k].sink == sink
  }

  predicate Distinct(slots: seq<Slot>) {
    forall j, k :: 0 <= j < k < |slots| ==> slots[j].sink != slots[k].sink
  }

  function Without(slots: seq<Slot>, sink: nat): seq<Slot> {
    if |slots| == 0 then []
    else Without(slots[..|slots| - 1], sink) + if slots[|slots| - 1].sink == sink then [] else [slots[|slots| - 1]]
  }

  function Added(slots: seq<Slot>, slot: Slot): seq<Slot> {
    if Holds(slots, slot.sink) then slots else slots + [slot]
  }

  function Changed(slots: seq<Slot>, c: Change): seq<Slot> {
    match c
    case Attach(sink) => Added(slots, Slot(sink, false))
    case AttachOwned(owner) => if owner.Some? then Added(slots, Slot(owner.value, true)) else slots
    case Detach(sink) => Without(slots, sink)
  }

  function ChangedAll(slots: seq<Slot>, cs: seq<Change>): seq<Slot> {
    if |cs| == 0 then slots else Changed(ChangedAll(slots, cs[..|cs| - 1]), cs[|cs| - 1])
  }

  datatype Delivery = Delivery(calls: seq<Call>, slots: seq<Slot>, outcome: Outcome)

  /** Calls every selected sink in turn, whatever the sinks do to the list meanwhile;
      only an exception stops it. */
  function Broadcast(sinks: Sinks, calls: seq<Call>, slots: seq<Slot>, selected: seq<Slot>, e: Entry): Delivery
    decreases |selected|
  {
    if |selected| == 0 then Delivery(calls, slots, Returned(true))
    else
      var all := calls + [Call(selected[0].sink, e)];
      var r := sinks(all);
      var after := ChangedAll(slots, r.changes);
      if r.response.Throws? then Delivery(all, after, Threw)
      else
        var rest := Broadcast(sinks, all, after, selected[1..], e);
        if rest.outcome.Threw? then rest
        else rest.(outcome := Returned(r.response.accepted && rest.outcome.accepted))
  }

  /** One published record: filtered, without effect on an empty list, or broadcast
      to the sinks registered at that moment. */
  function Publish(accepts: Level -> bool, sinks: Sinks, calls: seq<Call>, slots: seq<Slot>, e: Entry): Delivery {
    if !accepts(e.level) then Delivery(calls, slots, Returned(true))
    else if slots == [] then Delivery(calls, slots, Returned(false))
    else Broadcast(sinks, calls, slots, slots, e)
  }

  // --------------------------------------------------------------------- the logger

  class Logger {
    const accepts: Level -> bool
    const sinks: Sinks
    var slots: seq<Slot>
    var single: Option<nat>
    var calls: seq<Call>

    /** No sink twice, and the cached sink is set exactly if it is the only one and
        not owned. */
    ghost predicate Valid()
      reads this
    {
      && Distinct(slots)
      && (single.Some? <==> |slots| == 1 && !slots[0].owned)
      && (single.Some? ==> slots[0].sink == single.value)
    }

    constructor (accepts: Level -> bool, sinks: Sinks, initial: seq<nat>)
      ensures Valid() && calls == [] && this.accepts == accepts && this.sinks == sinks
      ensures slots == ChangedAll([], seq(|initial|, k requires 0 <= k < |initial| => Attach(initial[k])))
    {
      this.accepts, this.sinks := accepts, sinks;
      slots, single, calls := [], None, [];
      new;
      ghost var all := seq(|initial|, k requires 0 <= k < |initial| => Attach(initial[k]));
      var k := 0;
      while k < |initial|
        invariant k <= |initial| && Valid() && calls == [] && slots == ChangedAll([], all[..k])
      {
        assert all[..k + 1][..k] == all[..k];
        var attached := AttachSlot(Slot(initial[k], false));
        k := k + 1;
      }
      assert all[..k] == all;
    }

    method RefreshSingleSinkFastPath()
      requires Distinct(slots)
      modifies `single
      ensures Valid()
    {
      var sink := None;
      if |slots| == 1 && !slots[0].owned {
        sink := Some(slots[0].sink);
      }
      single := sink;
    }

    method AttachSlot(slot: Slot) returns (attached: bool)
      requires Valid()
      modifies `slots, `single
      ensures Valid() && slots == Added(old(slots), slot)
      ensures attached <==> !Holds(old(slots), slot.sink)
    {
      var k := 0;
      while k < |slots|
        invariant k <= |slots| && !Holds(slots[..k], slot.sink)
      {
        if slots[k].sink == slot.sink { return false; }
        k := k + 1;
      }
      assert slots[..k] == slots;
      slots := slots + [slot];
      RefreshSingleSinkFastPath();
      return true;
    }

    method DetachSink(sink: nat) returns (detached: bool)
      requires Valid()
      modifies `slots, `single
      ensures Valid() && slots == Without(old(slots), sink)
      ensures detached <==> Holds(old(slots), sink)
    {
      var kept: seq<Slot> := [];
      var k := 0;
      while k < |slots|
        invariant k <= |slots| && kept == Without(slots[..k], sink)
      {
        assert slots[..k + 1][..k] == slots[..k];
        if slots[k].sink != sink { kept := kept + [slots[k]]; }
        k := k + 1;
      }
      assert slots[..k] == slots;
      WithoutIsExact(slots, sink);
      if |kept| == |slots| { return false; }
      slots := kept;
      RefreshSingleSinkFastPath();
      return true;
    }

    method Change(c: Change) returns (changed: bool)
      requires Valid()
      modifies `slots, `single
      ensures Valid() && slots == Changed(old(slots), c)
    {
      match c {
        case Attach(sink) => changed := AttachSlot(Slot(sink, false));
        case AttachOwned(owner) =>
          if owner.Some? { changed := AttachSlot(Slot(owner.value, true)); } else { changed := false; }
        case Detach(sink) => changed := DetachSink(sink);
      }
    }

    method ChangeAll(cs: seq<Change>)
      requires Valid()
      modifies `slots, `single
      ensures Valid() && slots == ChangedAll(old(slots), cs)
    {
      var k := 0;
      while k < |cs|
        invariant k <= |cs| && Valid() && slots == ChangedAll(old(slots), cs[..k]) && unchanged(`calls)
      {
        assert cs[..k + 1][..k] == cs[..k];
        var changed := Change(cs[k]);
        k := k + 1;
      }
      assert cs[..k] == cs;
    }

    /** One callback. */
    method Invoke(sink: nat, e: Entry) returns (response: Response)
      requires Valid()
      modifies this
      ensures Valid() && calls == old(calls) + [Call(sink, e)]
      ensures slots == ChangedAll(old(slots), sinks(calls).changes) && response == sinks(calls).response
    {
      calls := calls + [Call(sink, e)];
      var r := sinks(calls);
      ChangeAll(r.changes);
      response := r.response;
    }

    /** The loop of `deliver` over the copied list. */
    method DeliverAll(e: Entry, selected: seq<Slot>) returns (outcome: Outcome)
      requires Valid()
      modifies this
      ensures Valid() && Delivery(calls, slots, outcome) == Broadcast(sinks, old(calls), old(slots), selected, e)
    {
      var accepted := true;
      var k := 0;
      while k < |selected|
        invariant k <= |selected| && Valid()
        invariant Resumes(accepted, Broadcast(sinks, calls, slots, selected[k..], e)) ==
                  Broadcast(sinks, old(calls), old(slots), selected, e)
      {
        var response := Invoke(selected[k].sink, e);
        if response.Throws? { return Threw; }
        accepted := response.accepted && accepted;
        assert selected[k..][1..] == selected[k + 1..];
        k := k + 1;
      }
      return Returned(accepted);
    }

    /** A published record; `between` are changes that other threads make after the
        cached sink was read and before the registry lock is taken. */
    method WriteEntry(e: Entry, between: seq<Change>) returns (outcome: Outcome)
      requires Valid()
      modifies this
      ensures Valid()
      ensures var now := if accepts(e.level) && old(single).None? then ChangedAll(old(slots), between) else old(slots);
              Delivery(calls, slots, outcome) == Publish(accepts, sinks, old(calls), now, e)
    {
      if !accepts(e.level) { return Returned(true); }
      if single.Some? {
        assert slots == [slots[0]];
        outcome := DeliverOne(e, slots[0]);
        return;
      }
      ChangeAll(between);
      if |slots| == 0 { return Returned(false); }
      if |slots| == 1 {
        assert slots == [slots[0]];
        outcome := DeliverOne(e, slots[0]);
      } else {
        outcome := DeliverAll(e, slots);
      }
    }

    /** Delivery to a sink held by pointer, without copying the list. */
    method DeliverOne(e: Entry, slot: Slot) returns (outcome: Outcome)
      requires Valid()
      modifies this
      ensures Valid() && Delivery(calls, slots, outcome) == Broadcast(sinks, old(calls), old(slots), [slot], e)
    {
      var response := Invoke(slot.sink, e);
      outcome := if response.Throws? then Threw else Returned(response.accepted);
    }
  }

  function Resumes(accepted: bool, d: Delivery): Delivery {
    if d.outcome.Threw? then d else d.(outcome := Returned(accepted && d.outcome.accepted))
  }

  // ---------------------------------------------------------------------- theorems

  lemma {:induction false} WithoutIsExact(slots: seq<Slot>, sink: nat)
    ensures !Holds(Without(slots, sink), sink)
    ensures forall other: nat :: other != sink ==> (Holds(Without(slots, sink), other) <==> Holds(slots, other))
    ensures Distinct(slots) ==> Distinct(Without(slots, sink))
    ensures |Without(slots, sink)| <= |slots|
    ensures |Without(slots, sink)| == |slots| <==> !Holds(slots, sink)
    ensures !Holds(slots, sink) ==> Without(slots, sink) == slots
    decreases |slots|
  {
    if |slots| > 0 {
      var init, last := slots[..|slots| - 1], slots[|slots| - 1];
      WithoutIsExact(init, sink);
      HoldsAppend(init, last);
      HoldsAppend(Without(init, sink), last);
      assert slots == init + [last];
      assert Without(slots, sink) == if last.sink == sink then Without(init, sink) else Without(init, sink) + [last];
    }
  }

  lemma HoldsAppend(slots: seq<Slot>, x: Slot)
    ensures forall s: nat :: Holds(slots + [x], s) <==> Holds(slots, s) || s == x.sink
    ensures Distinct(slots + [x]) <==> Distinct(slots) && !Holds(slots, x.sink)
  {
    var all := slots + [x];
    assert all[|slots|] == x;
    assert forall k :: 0 <= k < |slots| ==> all[k] == slots[k];
  }

  /** Who is registered, by history alone: the last change that names the sink decides. */
  predicate LastAttached(cs: seq<Change>, sink: nat) {
    if |cs| == 0 then false
    else match cs[|cs| - 1]
         case Attach(s) => s == sink || LastAttached(cs[..|cs| - 1], sink)
         case AttachOwned(owner) => owner == Some(sink) || LastAttached(cs[..|cs| - 1], sink)
         case Detach(s) => s != sink && LastAttached(cs[..|cs| - 1], sink)
  }

  /** The number of the change that put a registered sink on the list. */
  function RegisteredBy(cs: seq<Change>, sink: nat): (k: nat)
    requires LastAttached(cs, sink)
    ensures k < |cs|
  {
    if LastAttached(cs[..|cs| - 1], sink) then RegisteredBy(cs[..|cs| - 1], sink) else |cs| - 1
  }

  /** Older registrations come first, and each slot is owned as its registration says. */
  ghost predicate InOrder(slots: seq<Slot>, cs: seq<Change>) {
    && (forall j :: 0 <= j < |slots| ==>
          && LastAttached(cs, slots[j].sink)
          && cs[RegisteredBy(cs, slots[j].sink)] ==
             if slots[j].owned then AttachOwned(Some(slots[j].sink)) else Attach(slots[j].sink))
    && (forall j, k :: 0 <= j < k < |slots| ==>
          RegisteredBy(cs, slots[j].sink) < RegisteredBy(cs, slots[k].sink))
  }

  lemma {:induction false} WithoutInOrder(slots: seq<Slot>, sink: nat, cs: seq<Change>)
    requires InOrder(slots, cs)
    ensures InOrder(Without(slots, sink), cs)
    ensures forall x | x in Without(slots, sink) :: x in slots && x.sink != sink
    decreases |slots|
  {
    if |slots| > 0 { WithoutInOrder(slots[..|slots| - 1], sink, cs); }
  }

  /** A change that names none of the sinks, or attaches them again, leaves their order. */
  lemma OrderStays(slots: seq<Slot>, init: seq<Change>, c: Change)
    requires InOrder(slots, init) && forall x | x in slots :: c != Detach(x.sink)
    ensures InOrder(slots, init + [c])
  {
    var cs := init + [c];
    assert cs[..|cs| - 1] == init;
    forall x | x in slots
      ensures LastAttached(cs, x.sink) && RegisteredBy(cs, x.sink) == RegisteredBy(init, x.sink)
    {
      assert LastAttached(init, x.sink);
    }
    hide LastAttached, RegisteredBy;
  }

  lemma AddedInOrder(slots: seq<Slot>, init: seq<Change>, slot: Slot)
    requires InOrder(slots, init) && !LastAttached(init, slot.sink)
    ensures InOrder(slots + [slot], init + [if slot.owned then AttachOwned(Some(slot.sink)) else Attach(slot.sink)])
  {
    var c := if slot.owned then AttachOwned(Some(slot.sink)) else Attach(slot.sink);
    var cs := init + [c];
    assert cs[..|cs| - 1] == init;
    OrderStays(slots, init, c);
    assert LastAttached(cs, slot.sink) && RegisteredBy(cs, slot.sink) == |init|;
    forall x | x in slots ensures RegisteredBy(cs, x.sink) < |init| {
      assert LastAttached(init, x.sink) && RegisteredBy(cs, x.sink) == RegisteredBy(init, x.sink);
    }
    hide LastAttached, RegisteredBy;
  }

  /** After any history the list holds exactly the attached sinks, each once, in the
      order of their registration. */
  lemma {:induction false} ListFollowsHistory(cs: seq<Change>)
    ensures Distinct(ChangedAll([], cs)) && InOrder(ChangedAll([], cs), cs)
    ensures forall sink: nat :: Holds(ChangedAll([], cs), sink) <==> LastAttached(cs, sink)
    decreases |cs|
  {
    if |cs| > 0 {
      var init, c := cs[..|cs| - 1], cs[|cs| - 1];
      ListFollowsHistory(init);
      assert cs == init + [c];
      var slots := ChangedAll([], init);
      hide InOrder, RegisteredBy;
      if c.Detach? {
        WithoutIsExact(slots, c.sink);
        WithoutInOrder(slots, c.sink, init);
        OrderStays(Without(slots, c.sink), init, c);
      } else if c == AttachOwned(None) {
        OrderStays(slots, init, c);
      } else {
        var slot := if c.Attach? then Slot(c.sink, false) else Slot(c.owner.value, true);
        HoldsAppend(slots, slot);
        if LastAttached(init, slot.sink) { OrderStays(slots, init, c); } else { AddedInOrder(slots, init, slot); }
      }
    }
  }

  /** The log after the first k selected sinks were called. */
  function CalledFirst(calls: seq<Call>, selected: seq<Slot>, e: Entry, k: nat): (r: seq<Call>)
    requires k <= |selected|
    ensures |r| == |calls| + k
  {
    calls + seq(k, i requires 0 <= i < k => Call(selected[i].sink, e))
  }

  function ResponseOf(sinks: Sinks, calls: seq<Call>, selected: seq<Slot>, e: Entry, k: nat): Response
    requires k < |selected|
  {
    sinks(CalledFirst(calls, selected, e, k + 1)).response
  }

  /** The list after the first k selected sinks were called and made their changes. */
  function ListAfter(sinks: Sinks, calls: seq<Call>, slots: seq<Slot>, selected: seq<Slot>, e: Entry, k: nat): seq<Slot>
    requires k <= |selected|
  {
    if k == 0 then slots
    else
      ChangedAll(ListAfter(sinks, calls, slots, selected, e, k - 1),
                 sinks(CalledFirst(calls, selected, e, k)).changes)
  }

  lemma {:induction false} ListShift(sinks: Sinks, calls: seq<Call>, slots: seq<Slot>, selected: seq<Slot>,
      e: Entry, k: nat)
    requires k < |selected|
    ensures var all := calls + [Call(selected[0].sink, e)];
            ListAfter(sinks, all, ChangedAll(slots, sinks(all).changes), selected[1..], e, k) ==
            ListAfter(sinks, calls, slots, selected, e, k + 1)
  {
    CalledShift(sinks, calls, selected, e);
    if k > 0 {
      ListShift(sinks, calls, slots, selected, e, k - 1);
    } else {
      assert ListAfter(sinks, calls, slots, selected, e, 0) == slots;
    }
  }

  lemma CalledShift(sinks: Sinks, calls: seq<Call>, selected: seq<Slot>, e: Entry)
    requires |selected| > 0
    ensures var all := calls + [Call(selected[0].sink, e)];
            && CalledFirst(calls, selected, e, 1) == all
            && (forall k: nat | k < |selected| ::
                  CalledFirst(all, selected[1..], e, k) == CalledFirst(calls, selected, e, k + 1))
            && (forall k: nat | k + 1 < |selected| ::
                  ResponseOf(sinks, all, selected[1..], e, k) == ResponseOf(sinks, calls, selected, e, k + 1))
  {
    var all := calls + [Call(selected[0].sink, e)];
    forall k: nat | k < |selected|
      ensures CalledFirst(all, selected[1..], e, k) == CalledFirst(calls, selected, e, k + 1)
    {
    }
  }

  /** When no sink throws, every selected sink is called once, in order, even after a
      refusal, the result is the conjunction of all results, and the list is what all
      of them made of it. */
  lemma {:induction false} EverySelectedSinkIsCalled(sinks: Sinks, calls: seq<Call>, slots: seq<Slot>,
      selected: seq<Slot>, e: Entry)
    requires forall k: nat | k < |selected| :: ResponseOf(sinks, calls, selected, e, k).Accepts?
    ensures var d := Broadcast(sinks, calls, slots, selected, e);
            && d.calls == CalledFirst(calls, selected, e, |selected|)
            && d.slots == ListAfter(sinks, calls, slots, selected, e, |selected|)
            && d.outcome.Returned?
            && (d.outcome.accepted <==>
                forall k: nat | k < |selected| :: ResponseOf(sinks, calls, selected, e, k).accepted)
    decreases |selected|
  {
    if |selected| == 0 {
      assert CalledFirst(calls, selected, e, 0) == calls;
    } else {
      var all := calls + [Call(selected[0].sink, e)];
      CalledShift(sinks, calls, selected, e);
      ListShift(sinks, calls, slots, selected, e, |selected| - 1);
      hide ListAfter;
      assert sinks(all).response == ResponseOf(sinks, calls, selected, e, 0);
      EverySelectedSinkIsCalled(sinks, all, ChangedAll(slots, sinks(all).changes), selected[1..], e);
      forall k: nat | 0 < k < |selected|
        ensures ResponseOf(sinks, calls, selected, e, k) == ResponseOf(sinks, all, selected[1..], e, k - 1)
      {
      }
    }
  }

  /** The first sink that throws is the last one called, and the exception comes out. */
  lemma {:induction false} ExceptionStopsDelivery(sinks: Sinks, calls: seq<Call>, slots: seq<Slot>,
      selected: seq<Slot>, e: Entry, n: nat)
    requires n < |selected| && ResponseOf(sinks, calls, selected, e, n).Throws?
    requires forall k: nat | k < n :: ResponseOf(sinks, calls, selected, e, k).Accepts?
    ensures Broadcast(sinks, calls, slots, selected, e) ==
            Delivery(CalledFirst(calls, selected, e, n + 1),
                     ListAfter(sinks, calls, slots, selected, e, n + 1), Threw)
    decreases |selected|
  {
    var all := calls + [Call(selected[0].sink, e)];
    CalledShift(sinks, calls, selected, e);
    ListShift(sinks, calls, slots, selected, e, n);
    assert sinks(all).response == ResponseOf(sinks, calls, selected, e, 0);
    if n > 0 {
      assert ResponseOf(sinks, calls, selected, e, 0).Accepts?;
      ExceptionStopsDelivery(sinks, all, ChangedAll(slots, sinks(all).changes), selected[1..], e, n - 1);
    }
  }

  /** What a published record comes to. One that is filtered changes nothing and counts
      as a success; on an empty list it is a failure. Otherwise every sink on the list is
      called, in order: up to the first that throws, which is passed on, and all of them
      if none does, with success exactly if all accepted. */
  lemma PublishReachesAll(accepts: Level -> bool, sinks: Sinks, calls: seq<Call>, slots: seq<Slot>, e: Entry)
    ensures var d := Publish(accepts, sinks, calls, slots, e);
            && (!accepts(e.level) ==> d == Delivery(calls, slots, Returned(true)))
            && (accepts(e.level) && slots == [] ==> d == Delivery(calls, slots, Returned(false)))
            && (accepts(e.level) && (forall k: nat | k < |slots| :: ResponseOf(sinks, calls, slots, e, k).Accepts?) ==>
                  && d.calls == CalledFirst(calls, slots, e, |slots|)
                  && d.slots == ListAfter(sinks, calls, slots, slots, e, |slots|)
                  && d.outcome.Returned?
                  && (d.outcome.accepted <==>
                      slots != [] && forall k: nat | k < |slots| :: ResponseOf(sinks, calls, slots, e, k).accepted))
            && forall n: nat | accepts(e.level) && FirstToThrow(sinks, calls, slots, e, n) ::
                 d == Delivery(CalledFirst(calls, slots, e, n + 1),
                               ListAfter(sinks, calls, slots, slots, e, n + 1), Threw)
  {
    assert slots == [] ==> CalledFirst(calls, slots, e, 0) == calls;
    assert ListAfter(sinks, calls, slots, slots, e, 0) == slots;
    hide ResponseOf, ListAfter, Broadcast;
    if accepts(e.level) && slots != [] {
      if forall k: nat | k < |slots| :: ResponseOf(sinks, calls, slots, e, k).Accepts? {
        EverySelectedSinkIsCalled(sinks, calls, slots, slots, e);
      }
      forall n: nat | FirstToThrow(sinks, calls, slots, e, n)
        ensures Broadcast(sinks, calls, slots, slots, e) ==
                Delivery(CalledFirst(calls, slots, e, n + 1), ListAfter(sinks, calls, slots, slots, e, n + 1), Threw)
      {
        ExceptionStopsDelivery(sinks, calls, slots, slots, e, n);
      }
    }
  }

  ghost predicate FirstToThrow(sinks: Sinks, calls: seq<Call>, selected: seq<Slot>, e: Entry, n: nat) {
    && n < |selected| && ResponseOf(sinks, calls, selected, e, n).Throws?
    && forall k: nat | k < n :: ResponseOf(sinks, calls, selected, e, k).Accepts?
  }

  /** What callbacks do to the list never reaches the record being delivered. */
  lemma {:induction false} ReentryIsHarmless(f: Sinks, g: Sinks, calls: seq<Call>, a: seq<Slot>, b: seq<Slot>,
      selected: seq<Slot>, e: Entry)
    requires forall log :: f(log).response == g(log).response
    ensures Broadcast(f, calls, a, selected, e).calls == Broadcast(g, calls, b, selected, e).calls
    ensures Broadcast(f, calls, a, selected, e).outcome == Broadcast(g, calls, b, selected, e).outcome
    decreases |selected|
  {
    if |selected| > 0 {
      var all := calls + [Call(selected[0].sink, e)];
      assert f(all).response == g(all).response;
      ReentryIsHarmless(f, g, all, ChangedAll(a, f(all).changes), ChangedAll(b, g(all).changes), selected[1..], e);
    }
  }
}
