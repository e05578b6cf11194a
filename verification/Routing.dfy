/** Routing to the first register of a matching category. */
module Routing {
  import opened Common
  import opened Errors
  import opened Register

  type Bank = seq<Contents>

  ghost predicate SoundBank(b: Bank) {
    forall k :: 0 <= k < |b| ==> Sound(b[k])
  }

  /** `k` is the first register for the category, or the number of registers if none is. */
  predicate IsRoute(b: Bank, category: Category, k: nat) {
    && k <= |b|
    && (forall j :: 0 <= j < k ==> b[j].category != category)
    && (k < |b| ==> b[k].category == category)
  }

  function Route(b: Bank, category: Category): (k: nat)
    ensures IsRoute(b, category, k)
  {
    if |b| == 0 || b[0].category == category then 0 else 1 + Route(b[1..], category)
  }

  function NoRegister(category: Category): OperationResult {
    Failed(Error(category, MISSING_REGISTER, "No register is configured for this category"))
  }

  function Routed(b: Bank, op: Operation): (r: (Bank, OperationResult))
    ensures |r.0| == |b|
  {
    var k := Route(b, op.error.category);
    if k == |b| then (b, NoRegister(op.error.category))
    else var (t, result) := Perform(b[k], op); (b[k := t], result)
  }

  /** The handler holds references; the same register may be configured twice. */
  class Handler {
    const registers: seq<ErrorRegister>

    constructor (registers: seq<ErrorRegister>)
      ensures this.registers == registers
    {
      this.registers := registers;
    }

    ghost predicate Valid()
      reads registers
    {
      forall r :: r in registers ==> r.Valid()
    }

    predicate FirstMatch(category: Category, k: nat)
      requires k < |registers|
    {
      registers[k].category == category && forall j :: 0 <= j < k ==> registers[j].category != category
    }

    /** The contents of all registers, for registers that are different objects. */
    ghost function State(): (b: Bank)
      reads this, registers
      ensures |b| == |registers| && forall k :: 0 <= k < |registers| ==> b[k] == registers[k].State()
    {
      seq(|registers|, k requires 0 <= k < |registers| reads this, registers => registers[k].State())
    }

    ghost predicate Different() {
      forall j, k :: 0 <= j < k < |registers| ==> registers[j] != registers[k]
    }

    /** The operation on one register. */
    method PerformAt(k: nat, op: Operation) returns (result: OperationResult)
      requires Valid() && k < |registers|
      modifies registers[k]
      ensures Valid() && (registers[k].State(), result) == Perform(old(registers[k].State()), op)
      ensures Different() ==> State() == old(State())[k := registers[k].State()]
    {
      hide Perform, Sound;
      match op {
        case Add(e) => result := registers[k].AddError(e);
        case Remove(e) => result := registers[k].RemoveError(e);
      }
    }

    /** Touches only the first register of the error's category: on different registers
        it is the routed operation on their contents. */
    method Dispatch(op: Operation) returns (result: OperationResult)
      requires Valid()
      modifies registers
      ensures Valid()
      ensures (forall r :: r in registers ==> r.category != op.error.category) ==>
                result == NoRegister(op.error.category) && forall r :: r in registers ==> r.State() == old(r.State())
      ensures forall k :: 0 <= k < |registers| && FirstMatch(op.error.category, k) ==>
                (registers[k].State(), result) == Perform(old(registers[k].State()), op)
      ensures forall k, r | 0 <= k < |registers| && r in registers && FirstMatch(op.error.category, k) ::
                r != registers[k] ==> r.State() == old(r.State())
      ensures Different() ==> (State(), result) == Routed(old(State()), op)
    {
      hide Perform, Sound, Routed;
      ghost var before := State();
      var index := 0;
      while index < |registers|
        invariant index <= |registers|
        invariant forall j :: 0 <= j < index ==> registers[j].category != op.error.category
        invariant forall r :: r in registers ==> r.State() == old(r.State())
      {
        if registers[index].category == op.error.category {
          RoutedAt(before, op, index);
          result := PerformAt(index, op);
          return;
        }
        index := index + 1;
      }
      RoutedAt(before, op, index);
      result := NoRegister(op.error.category);
      assert State() == before;
    }
  }

  lemma RoutedAt(b: Bank, op: Operation, k: nat)
    requires IsRoute(b, op.error.category, k)
    ensures Routed(b, op) == if k == |b| then (b, NoRegister(op.error.category))
                             else (b[k := Perform(b[k], op).0], Perform(b[k], op).1)
  {
    RouteIsUnique(b, op.error.category, k, Route(b, op.error.category));
  }

  /** An operation fails for want of a register exactly if none has its category; it then
      changes nothing, and the failure names that category. */
  lemma MissingRegisterIsReported(b: Bank, op: Operation)
    ensures var (after, result) := Routed(b, op);
            && (result.Failed? && result.error.code == MISSING_REGISTER <==>
                forall k :: 0 <= k < |b| ==> b[k].category != op.error.category)
            && (result.Failed? && result.error.code == MISSING_REGISTER ==>
                  after == b && result.error.category == op.error.category)
  {
    var k := Route(b, op.error.category);
    assert k < |b| ==> b[k].category == op.error.category;
  }

  /** A routed operation leaves every register but the routed one as it was, keeps
      all categories, and keeps every register sound. */
  lemma DispatchTouchesOne(b: Bank, op: Operation)
    ensures var k := Route(b, op.error.category);
            && (forall j :: 0 <= j < |b| && j != k ==> Routed(b, op).0[j] == b[j])
            && (forall j :: 0 <= j < |b| ==> Routed(b, op).0[j].category == b[j].category)
            && (SoundBank(b) ==> SoundBank(Routed(b, op).0))
  {
    var k := Route(b, op.error.category);
    if k < |b| && SoundBank(b) {
      PerformKeepsSound(b[k], op);
    }
  }

  ghost predicate SameCategories(b: Bank, d: Bank) {
    |b| == |d| && forall j :: 0 <= j < |b| ==> b[j].category == d[j].category
  }

  lemma RouteIsUnique(b: Bank, category: Category, j: nat, k: nat)
    requires IsRoute(b, category, j) && IsRoute(b, category, k)
    ensures j == k
  {
  }

  /** Routes depend on the configured categories only. */
  lemma RouteIsFixed(b: Bank, d: Bank, category: Category)
    requires SameCategories(b, d)
    ensures Route(b, category) == Route(d, category)
  {
    RouteIsUnique(d, category, Route(b, category), Route(d, category));
  }

  /** Operations on different registers commute, in effect and in results. */
  lemma DispatchCommutes(b: Bank, op1: Operation, op2: Operation)
    requires Route(b, op1.error.category) != Route(b, op2.error.category)
    ensures var (b1, r1) := Routed(b, op1); var (b12, r12) := Routed(b1, op2);
            var (b2, r2) := Routed(b, op2); var (b21, r21) := Routed(b2, op1);
            b12 == b21 && r12 == r2 && r21 == r1
  {
    hide SoundBank, Perform;
    DispatchTouchesOne(b, op1);
    DispatchTouchesOne(b, op2);
    var b1, b2 := Routed(b, op1).0, Routed(b, op2).0;
    RouteIsFixed(b, b1, op2.error.category);
    RouteIsFixed(b, b2, op1.error.category);
    DispatchTouchesOne(b1, op2);
    DispatchTouchesOne(b2, op1);
    hide Route;
    var b12, b21 := Routed(b1, op2).0, Routed(b2, op1).0;
    assert forall j :: 0 <= j < |b| ==> b12[j] == b21[j];
  }

  // -------------------------------------------------------- interleaved operations

  /** The bank after a sequence of operations in lock order. */
  function RunAll(b: Bank, ops: seq<Operation>): (r: Bank)
    ensures |r| == |b|
  {
    if |ops| == 0 then b else Routed(RunAll(b, ops[..|ops| - 1]), ops[|ops| - 1]).0
  }

  function ResultAt(b: Bank, ops: seq<Operation>, i: nat): OperationResult
    requires i < |ops|
  {
    Routed(RunAll(b, ops[..i]), ops[i]).1
  }

  /** The operations that reach register k, in order. */
  function ForRegister(b: Bank, ops: seq<Operation>, k: nat): seq<Operation> {
    if |ops| == 0 then []
    else
      ForRegister(b, ops[..|ops| - 1], k) +
      if Route(b, ops[|ops| - 1].error.category) == k then [ops[|ops| - 1]] else []
  }

  function RunAlone(r: Contents, ops: seq<Operation>): Contents {
    if |ops| == 0 then r else Perform(RunAlone(r, ops[..|ops| - 1]), ops[|ops| - 1]).0
  }

  lemma {:induction false} RunKeepsCategories(b: Bank, ops: seq<Operation>)
    ensures SameCategories(b, RunAll(b, ops))
    ensures SoundBank(b) ==> SoundBank(RunAll(b, ops))
    decreases |ops|
  {
    if |ops| > 0 {
      RunKeepsCategories(b, ops[..|ops| - 1]);
      DispatchTouchesOne(RunAll(b, ops[..|ops| - 1]), ops[|ops| - 1]);
    }
  }

  /** Each register ends as if its own operations had run on it alone. */
  lemma {:induction false} RegistersAreIndependent(b: Bank, ops: seq<Operation>, k: nat)
    requires k < |b|
    ensures RunAll(b, ops)[k] == RunAlone(b[k], ForRegister(b, ops, k))
    decreases |ops|
  {
    if |ops| > 0 {
      var init, op := ops[..|ops| - 1], ops[|ops| - 1];
      RegistersAreIndependent(b, init, k);
      RunKeepsCategories(b, init);
      RouteIsFixed(b, RunAll(b, init), op.error.category);
      var own := ForRegister(b, init, k);
      if Route(b, op.error.category) == k {
        assert ForRegister(b, ops, k) == own + [op];
        assert (own + [op])[..|own|] == own && (own + [op])[|own|] == op;
      } else {
        assert ForRegister(b, ops, k) == own;
        DispatchTouchesOne(RunAll(b, init), op);
      }
    }
  }

  /** Interleavings that agree on the order at each register end in the same bank. */
  lemma PerRegisterOrderDecides(b: Bank, ops1: seq<Operation>, ops2: seq<Operation>)
    requires forall k :: 0 <= k < |b| ==> ForRegister(b, ops1, k) == ForRegister(b, ops2, k)
    ensures RunAll(b, ops1) == RunAll(b, ops2)
  {
    forall k | 0 <= k < |b| ensures RunAll(b, ops1)[k] == RunAll(b, ops2)[k] {
      RegistersAreIndependent(b, ops1, k);
      RegistersAreIndependent(b, ops2, k);
    }
  }

  /** ... and the answer to an operation depends only on what ran before it at its
      own register. */
  lemma ResultIsLocal(b: Bank, ops: seq<Operation>, i: nat)
    requires i < |ops|
    ensures var k := Route(b, ops[i].error.category);
            ResultAt(b, ops, i) ==
              if k == |b| then NoRegister(ops[i].error.category)
              else Perform(RunAlone(b[k], ForRegister(b, ops[..i], k)), ops[i]).1
  {
    var k := Route(b, ops[i].error.category);
    RunKeepsCategories(b, ops[..i]);
    RouteIsFixed(b, RunAll(b, ops[..i]), ops[i].error.category);
    if k < |b| { RegistersAreIndependent(b, ops[..i], k); }
  }
}
