/** The bounded register of one category: at most `capacity` errors keyed by code. */
module Register {
  import opened Common
  import opened Errors

  /** The value a register holds. */
  datatype Contents = Contents(category: Category, capacity: nat, errors: map<Code, Error>)

  ghost predicate Sound(r: Contents) {
    && 1 <= r.capacity <= MAX_REGISTER_CAPACITY
    && |r.errors| <= r.capacity
    && forall code :: code in r.errors ==>
         r.errors[code].code == code && r.errors[code].category == r.category
  }

  datatype Operation = Add(error: Error) | Remove(error: Error)

  function Refusal(r: Contents, code: Code, message: string): OperationResult {
    Failed(Error(r.category, code, message))
  }

  /** What an operation does to the contents, and what it answers. */
  function Perform(r: Contents, op: Operation): (Contents, OperationResult) {
    match op
    case Add(e) =>
      if e.category != r.category then
        (r, Refusal(r, REGISTER_CATEGORY, "Error category does not match this register"))
      else if e.code in r.errors then
        (r, Refusal(r, DUPLICATE_ERROR, "Error is already registered"))
      else if |r.errors| >= r.capacity then
        (r, Refusal(r, REGISTER_CAPACITY, "Error register capacity limit reached"))
      else
        (r.(errors := r.errors[e.code := e]), Ok)
    case Remove(e) =>
      if e.category != r.category then
        (r, Refusal(r, REGISTER_CATEGORY, "Error category does not match this register"))
      else if e.code !in r.errors || r.errors[e.code] != e then
        (r, Refusal(r, MISSING_ERROR, "Error is not registered"))
      else
        (r.(errors := r.errors - {e.code}), Ok)
  }

  /** An operation in the two parts the source performs under its lock: what it reads
      decides, and the decision is then carried out. */
  datatype Decision = Refuse(result: OperationResult) | Insert(error: Error) | Erase(code: Code)

  function Decide(r: Contents, op: Operation): Decision {
    match op
    case Add(e) =>
      if e.category != r.category then
        Refuse(Refusal(r, REGISTER_CATEGORY, "Error category does not match this register"))
      else if |r.errors| >= r.capacity then
        if e.code in r.errors then Refuse(Refusal(r, DUPLICATE_ERROR, "Error is already registered"))
        else Refuse(Refusal(r, REGISTER_CAPACITY, "Error register capacity limit reached"))
      else if e.code in r.errors then Refuse(Refusal(r, DUPLICATE_ERROR, "Error is already registered"))
      else Insert(e)
    case Remove(e) =>
      if e.category != r.category then
        Refuse(Refusal(r, REGISTER_CATEGORY, "Error category does not match this register"))
      else if e.code in r.errors && r.errors[e.code] == e then Erase(e.code)
      else Refuse(Refusal(r, MISSING_ERROR, "Error is not registered"))
  }

  function Apply(r: Contents, d: Decision): Contents {
    match d
    case Refuse(_) => r
    case Insert(e) => r.(errors := r.errors[e.code := e])
    case Erase(code) => r.(errors := r.errors - {code})
  }

  function Answer(d: Decision): OperationResult {
    if d.Refuse? then d.result else Ok
  }

  /** Both parts on the same contents are the operation. */
  lemma DecideThenApply(r: Contents, op: Operation)
    ensures Perform(r, op) == (Apply(r, Decide(r, op)), Answer(Decide(r, op)))
  {
  }

  class ErrorRegister {
    const category: Category
    const capacityLimit: nat
    var errors: map<Code, Error>

    ghost function State(): Contents
      reads this
    {
      Contents(category, capacityLimit, errors)
    }

    ghost predicate Valid()
      reads this
    {
      Sound(State())
    }

    constructor (category: Category, capacityLimit: nat)
      requires 1 <= capacityLimit <= MAX_REGISTER_CAPACITY
      ensures Valid() && State() == Contents(category, capacityLimit, map[])
    {
      this.category := category;
      this.capacityLimit := capacityLimit;
      errors := map[];
    }

    /** The constructor's validation of its two limits. */
    static method Create(category: Category, expectedSize: nat, capacityLimit: nat) returns (r: ErrorRegister?)
      ensures r != null <==> 1 <= capacityLimit <= MAX_REGISTER_CAPACITY && expectedSize <= capacityLimit
      ensures r != null ==> fresh(r) && r.Valid() && r.State() == Contents(category, capacityLimit, map[])
    {
      if capacityLimit == 0 || capacityLimit > MAX_REGISTER_CAPACITY || expectedSize > capacityLimit {
        return null;
      }
      r := new ErrorRegister(category, capacityLimit);
    }

    /** The full check comes before the insertion, and tells a duplicate from a
        lack of room even when the register is full. */
    method AddError(error: Error) returns (result: OperationResult)
      requires Valid()
      modifies this
      ensures Valid() && (State(), result) == Perform(old(State()), Add(error))
    {
      if error.category != category {
        return Failed(Error(category, REGISTER_CATEGORY, "Error category does not match this register"));
      }
      if |errors| >= capacityLimit {
        if error.code in errors {
          return Failed(Error(category, DUPLICATE_ERROR, "Error is already registered"));
        }
        return Failed(Error(category, REGISTER_CAPACITY, "Error register capacity limit reached"));
      }
      if error.code in errors {
        return Failed(Error(category, DUPLICATE_ERROR, "Error is already registered"));
      }
      errors := errors[error.code := error];
      result := Ok;
    }

    method RemoveError(error: Error) returns (result: OperationResult)
      requires Valid()
      modifies this
      ensures Valid() && (State(), result) == Perform(old(State()), Remove(error))
    {
      if error.category != category {
        return Failed(Error(category, REGISTER_CATEGORY, "Error category does not match this register"));
      }
      if error.code !in errors || errors[error.code] != error {
        return Failed(Error(category, MISSING_ERROR, "Error is not registered"));
      }
      RemovalShrinks(State(), error.code);
      errors := errors - {error.code};
      result := Ok;
    }

    /** Removal by code does not compare the rest of the error. */
    method RemoveCode(code: Code) returns (result: OperationResult)
      requires Valid()
      modifies this
      ensures Valid()
      ensures if code in old(errors)
              then result == Ok && errors == old(errors) - {code}
              else
                && result == Failed(Error(category, MISSING_ERROR, "Error code is not registered"))
                && errors == old(errors)
    {
      if code !in errors {
        return Failed(Error(category, MISSING_ERROR, "Error code is not registered"));
      }
      RemovalShrinks(State(), code);
      errors := errors - {code};
      result := Ok;
    }

    method Find(code: Code) returns (found: Option<Error>)
      requires Valid()
      ensures found.Some? <==> code in errors
      ensures found.Some? ==>
                found.value == errors[code] && found.value.code == code && found.value.category == category
    {
      if code !in errors { return None; }
      found := Some(errors[code]);
    }

    method Contains(error: Error) returns (yes: bool)
      requires Valid()
      ensures yes <==> error in errors.Values
    {
      yes := error.code in errors && errors[error.code] == error;
      if error in errors.Values {
        var code :| code in errors && errors[code] == error;
        assert code == error.code;
      }
    }

    /** A copy of every stored error, each exactly once, in no promised order. */
    method Snapshot() returns (result: seq<Error>)
      requires Valid()
      ensures |result| == |errors|
      ensures forall e :: e in result <==> e in errors.Values
      ensures forall i, j :: 0 <= i < j < |result| ==> result[i].code != result[j].code
    {
      result := [];
      var rest := errors.Keys;
      while rest != {}
        invariant rest <= errors.Keys && |result| + |rest| == |errors|
        invariant forall e :: e in result ==> e.code in errors.Keys - rest && errors[e.code] == e
        invariant forall code :: code in errors.Keys - rest ==> errors[code] in result
        invariant forall i, j :: 0 <= i < j < |result| ==> result[i].code != result[j].code
        decreases rest
      {
        var code :| code in rest;
        assert forall e :: e in result ==> e.code != code;
        result := result + [errors[code]];
        rest := rest - {code};
      }
      forall e | e in errors.Values ensures e in result {
        var code :| code in errors && errors[code] == e;
      }
    }

    method Clear() returns (previousSize: nat)
      requires Valid()
      modifies this
      ensures Valid() && previousSize == |old(errors)| && errors == map[]
    {
      previousSize := |errors|;
      errors := map[];
    }
  }

  lemma RemovalShrinks(r: Contents, code: Code)
    requires Sound(r) && code in r.errors
    ensures Sound(r.(errors := r.errors - {code})) && |r.errors - {code}| == |r.errors| - 1
  {
    assert (r.errors - {code}).Keys == r.errors.Keys - {code};
  }

  /** A failure with the given code, in the category of the register. */
  predicate Refused(r: Contents, result: OperationResult, code: Code) {
    result.Failed? && result.error.category == r.category && result.error.code == code
  }

  /** An addition succeeds exactly for a new code of the right category while there
      is room; a refused operation changes nothing, and its code says why. */
  lemma AddOutcome(r: Contents, e: Error)
    requires Sound(r)
    ensures var (t, result) := Perform(r, Add(e));
            && Sound(t)
            && (result == Ok <==> e.category == r.category && e.code !in r.errors && |r.errors| < r.capacity)
            && (result != Ok ==> t == r)
            && (result == Ok ==> t.errors.Items == r.errors.Items + {(e.code, e)})
            && (Refused(r, result, REGISTER_CATEGORY) <==> e.category != r.category)
            && (Refused(r, result, DUPLICATE_ERROR) <==> e.category == r.category && e.code in r.errors)
            && (Refused(r, result, REGISTER_CAPACITY) <==>
                e.category == r.category && e.code !in r.errors && |r.errors| >= r.capacity)
  {
    var (t, result) := Perform(r, Add(e));
    if result == Ok {
      assert t.errors.Keys == r.errors.Keys + {e.code};
      forall i | i in r.errors.Items + {(e.code, e)} ensures i in t.errors.Items {
        assert i.0 in t.errors && t.errors[i.0] == i.1;
      }
      forall i | i in t.errors.Items ensures i in r.errors.Items + {(e.code, e)} {
        assert i.0 == e.code || (i.0 in r.errors && r.errors[i.0] == i.1);
      }
    }
  }

  /** A removal succeeds exactly for an equal stored error, and the code says why not. */
  lemma RemoveOutcome(r: Contents, e: Error)
    requires Sound(r)
    ensures var (t, result) := Perform(r, Remove(e));
            && Sound(t)
            && (result == Ok <==> e in r.errors.Values)
            && (result != Ok ==> t == r)
            && (result == Ok ==> e.code !in t.errors && |t.errors| == |r.errors| - 1)
            && (result == Ok ==> t.errors.Items == r.errors.Items - {(e.code, e)})
            && (Refused(r, result, REGISTER_CATEGORY) <==> e.category != r.category)
            && (Refused(r, result, MISSING_ERROR) <==> e.category == r.category && e !in r.errors.Values)
  {
    if e in r.errors.Values {
      var code :| code in r.errors && r.errors[code] == e;
      assert code == e.code;
      RemovalShrinks(r, code);
      var t := Perform(r, Remove(e)).0;
      forall i | i in r.errors.Items - {(code, e)} ensures i in t.errors.Items {
        assert i.0 != code ==> i.0 in t.errors && t.errors[i.0] == i.1;
      }
      forall i | i in t.errors.Items ensures i in r.errors.Items - {(code, e)} {
        assert i.0 in t.errors && i.0 != code && r.errors[i.0] == i.1;
      }
    }
  }

  /** Removing what was just added restores the register ... */
  lemma AddThenRemove(r: Contents, e: Error)
    requires Sound(r) && Perform(r, Add(e)).1 == Ok
    ensures Perform(Perform(r, Add(e)).0, Remove(e)) == (r, Ok)
  {
    assert r.errors[e.code := e] - {e.code} == r.errors;
  }

  /** ... and adding back what was just removed does too. */
  lemma RemoveThenAdd(r: Contents, e: Error)
    requires Sound(r) && Perform(r, Remove(e)).1 == Ok
    ensures Perform(Perform(r, Remove(e)).0, Add(e)) == (r, Ok)
  {
    RemovalShrinks(r, e.code);
    assert (r.errors - {e.code})[e.code := e] == r.errors;
  }

  lemma PerformKeepsSound(r: Contents, op: Operation)
    requires Sound(r)
    ensures Sound(Perform(r, op).0)
    ensures Perform(r, op).0.category == r.category && Perform(r, op).0.capacity == r.capacity
  {
    match op
    case Add(e) => AddOutcome(r, e);
    case Remove(e) => RemoveOutcome(r, e);
  }
}
