/** The lock of src/lock_execute.rs that runs a start function when the first holder locks
    it and a stop function when the last guard is dropped. The start and stop functions act
    on state outside the model; each call is an action appended to a log. Locking and
    dropping happen one at a time (the interrupt-free section serialises them). */
module LockExecution {

  datatype Action = Start | Stop

  /** The number of starts minus the number of stops. */
  function Balance(actions: seq<Action>): int
  {
    if actions == [] then 0
    else Balance(actions[..|actions| - 1]) + (if actions[|actions| - 1] == Start then 1 else -1)
  }

  /** A use of the lock: `lock`, or the drop of a guard. */
  datatype Op = LockOp | DropOp

  datatype State = State(count: nat, actions: seq<Action>)

  datatype Option<T> = None | Some(value: T)

  /** One use of the lock, on a count that a drop does not take below zero. */
  function Step(s: State, op: Op): State
    requires op == DropOp ==> s.count > 0
  {
    match op
    case LockOp => State(s.count + 1, s.actions + (if s.count + 1 == 1 then [Start] else []))
    case DropOp => State(s.count - 1, s.actions + (if s.count - 1 == 0 then [Stop] else []))
  }

  /** Locks and drops counted. */
  function Locks(ops: seq<Op>): nat
  {
    if ops == [] then 0 else Locks(ops[..|ops| - 1]) + (if ops[|ops| - 1] == LockOp then 1 else 0)
  }

  function Drops(ops: seq<Op>): nat
  {
    if ops == [] then 0 else Drops(ops[..|ops| - 1]) + (if ops[|ops| - 1] == DropOp then 1 else 0)
  }

  /** A run from a new lock; None once a drop finds no guard outstanding. */
  function Run(ops: seq<Op>): (r: Option<State>)
    ensures r.Some? ==> |r.value.actions| <= |ops|
    ensures r.Some? && r.value.actions == [] ==> r.value.count == 0
    ensures r.Some? && r.value.actions != [] ==> r.value.actions[0] == Start
  {
    if ops == [] then Some(State(0, []))
    else
      match Run(ops[..|ops| - 1])
      case None => None
      case Some(s) =>
        if ops[|ops| - 1] == DropOp && s.count == 0 then None else Some(Step(s, ops[|ops| - 1]))
  }

  /** A run is possible exactly when no prefix drops more guards than it locks; then the
      count is the locks minus the drops, and start has run once more than stop while any
      guard is outstanding and as often as stop otherwise. */
  lemma {:induction false} RunBalanced(ops: seq<Op>)
    ensures Run(ops).Some? <==> forall k :: 0 <= k <= |ops| ==> Drops(ops[..k]) <= Locks(ops[..k])
    ensures Run(ops).Some? ==> var s := Run(ops).value;
      && s.count == Locks(ops) - Drops(ops)
      && Balance(s.actions) == (if s.count > 0 then 1 else 0)
  {
    if ops != [] {
      var init := ops[..|ops| - 1];
      assert ops[..|ops|] == ops;
      RunBalanced(init);
      forall k | 0 <= k <= |init|
        ensures ops[..k] == init[..k]
      {
      }
      if Run(ops).Some? {
        var s := Run(init).value;
        BalanceAppend(s.actions, if ops[|ops| - 1] == LockOp then (if s.count == 0 then [Start] else [])
                                 else (if s.count == 1 then [Stop] else []));
      } else if Run(init).Some? {
        assert Drops(ops[..|ops|]) > Locks(ops[..|ops|]);
      }
    }
  }

  lemma BalanceAppend(s: seq<Action>, t: seq<Action>)
    requires |t| <= 1
    ensures Balance(s + t) == Balance(s) + (if t == [Start] then 1 else if t == [Stop] then -1 else 0)
  {
    if t == [] {
      assert s + t == s;
    } else {
      assert (s + t)[..|s + t| - 1] == s;
    }
  }

  /** `LockExecute`: the count of outstanding guards, and the start and stop calls made. */
  class LockExecute {
    var count: nat
    var actions: seq<Action>

    /** Start has run once more than stop while a guard is outstanding, as often otherwise. */
    predicate Valid()
      reads this
    {
      Balance(actions) == if count > 0 then 1 else 0
    }

    /** `new`: no guard outstanding, nothing run. */
    constructor()
      ensures Valid() && count == 0 && actions == []
    {
      count := 0;
      actions := [];
    }

    /** `lock`: one guard more; the first runs start. */
    method Lock()
      requires Valid()
      modifies this
      ensures Valid()
      ensures State(count, actions) == Step(old(State(count, actions)), LockOp)
    {
      count := count + 1;
      if count == 1 {
        BalanceAppend(actions, [Start]);
        actions := actions + [Start];
      }
    }

    /** `count`: the number of guards outstanding, which is positive exactly when start has
        run once more than stop. */
    method Count() returns (r: nat)
      requires Valid()
      ensures r == count
      ensures r > 0 <==> Balance(actions) == 1
    {
      r := count;
    }

    /** The drop of a `LockExecuteGuard`: one guard fewer; the last runs stop. */
    method Drop()
      requires Valid() && count > 0
      modifies this
      ensures Valid()
      ensures State(count, actions) == Step(old(State(count, actions)), DropOp)
    {
      count := count - 1;
      if count == 0 {
        BalanceAppend(actions, [Stop]);
        actions := actions + [Stop];
      }
    }
  }
}
