/** Programs run in place on the state and the subcall stack of the current thread: transactions as
    `CurrentState::with_transaction_opts` runs them (runtime-sdk/src/state.rs), subcalls as `call` does
    (runtime-sdk/src/subcall.rs) and calls as `dispatch_tx_call` does (runtime-sdk/src/dispatcher.rs). */
module Threads {
  import opened Basics
  import opened Storage
  import opened BlockState
  import opened Programs
  import opened StateCells

  class SubcallStack {
    var stack: seq<Validator>

    constructor ()
      ensures stack == []
    {
      stack := [];
    }

    method Push(validator: Validator)
      modifies this
      ensures stack == old(stack) + [validator]
    {
      stack := stack + [validator];
    }

    method Pop()
      requires stack != []
      modifies this
      ensures stack == old(stack)[..|old(stack)| - 1]
    {
      stack := stack[..|stack| - 1];
    }

    /** Run all stacked validators, stopping at the first rejection. */
    method RunValidators(info: SubcallInfo) returns (r: Option<int>)
      ensures r == FirstRejection(stack, info)
      ensures r.None? <==> forall i | 0 <= i < |stack| :: stack[i](info).None?
    {
      var i := 0;
      while i < |stack|
        invariant 0 <= i <= |stack|
        invariant FirstRejection(stack, info) == FirstRejection(stack[i..], info)
      {
        r := stack[i](info);
        if r.Some? {
          return;
        }
        assert stack[i..][1..] == stack[i + 1..];
        i := i + 1;
      }
      r := None;
    }

    /** The checks before a subcall, and the push that follows them. The guard's pop undoes it. */
    method Admit(info: SubcallInfo, validator: Validator) returns (refusal: Option<Resp>)
      requires |stack| < 0x1_0000
      modifies this
      ensures refusal.None? ==>
                && stack == old(stack) + [validator]
                && |stack| <= info.maxDepth
                && forall i | 0 <= i < |stack| :: stack[i](info).None?
      ensures refusal.Some? ==> stack == old(stack)
      ensures validator(info).Some? ==> refusal == Some(SubcallRejected(validator(info).value))
      ensures validator(info).None? && |old(stack)| >= info.maxDepth ==>
                refusal == Some(CallDepthExceeded((|old(stack)| + 1) % 0x1_0000, info.maxDepth))
      ensures validator(info).None? && |old(stack)| < info.maxDepth ==>
                refusal == match FirstRejection(old(stack),
                    info) case None => None case Some(e) => Some(SubcallRejected(e))
      ensures refusal.None? <==>
                validator(info).None? && |old(stack)| < info.maxDepth && FirstRejection(old(stack), info).None?
    {
      var own := validator(info);
      if own.Some? {
        return Some(SubcallRejected(own.value));
      }
      var depth: u16 := |stack| % 0x1_0000;
      if depth >= info.maxDepth {
        return Some(CallDepthExceeded((depth + 1) % 0x1_0000, info.maxDepth));
      }
      var stacked := RunValidators(info);
      if stacked.Some? {
        return Some(SubcallRejected(stacked.value));
      }
      Push(validator);
      refusal := None;
    }
  }

  /** The store of a valid state is valid all the way down. */
  lemma {:induction false} FittingStoreIsValid(s: State, store: Store)
    requires s.Fits(store)
    ensures store.Valid()
  {
    if s.parent.Some? {
      FittingStoreIsValid(s.parent.value, store.parent);
    }
  }

  /** A thread. Whatever program it runs, it does what `Exec` says, so everything proved of `Exec`
      holds of the objects updated in place. */
  class Thread {
    const state: StateCell
    const stack: SubcallStack

    ghost function Here(): Machine
      reads state, stack
    {
      Machine(state.Value(), stack.stack)
    }

    constructor (content: Content, mode: Mode)
      requires mode.Execute? || mode.Check?
      ensures Here() == Machine(Root(content, mode), []) && Here().Valid()
      ensures fresh(state) && fresh(stack)
    {
      state := new StateCell(content, mode);
      stack := new SubcallStack();
    }

    method Run(rt: Runtime, p: Prog) returns (outcome: Outcome)
      requires Here().Valid()
      modifies state, stack
      ensures (Here(), outcome) == Exec(rt, p, old(Here()))
      decreases 0x1_0000 - |stack.stack|, 1, p, 0
    {
      match p {
        case Return(o) => outcome := o;
        case Do(op, k) =>
          var resp := state.Perform(rt.maxMessages, op);
          if resp.Some? && resp.value in k {
            outcome := Run(rt, k[resp.value]);
          } else {
            outcome := Unwind;
          }
        case Nest(opts, body, k) =>
          outcome := WithTransaction(rt, opts, body);
          if !outcome.Unwind? {
            if Returned(outcome.val) in k {
              outcome := Run(rt, k[Returned(outcome.val)]);
            } else {
              outcome := Unwind;
            }
          }
        case Sub(info, validator, k) =>
          var resp := Subcall(rt, info, validator);
          if resp.Some? && resp.value in k {
            outcome := Run(rt, k[resp.value]);
          } else {
            outcome := Unwind;
          }
      }
    }

    /** Open a child state and configure it. */
    method Enter(opts: Option<Options>)
      requires Here().Valid()
      modifies state
      ensures Here() == old(Here()).(state := Entered(old(Here()).state, opts))
    {
      ghost var s := state.Value();
      OpenedIsValid(s, if opts.Some? then opts.value else NO_OPTIONS);
      state.Open();
      if opts.Some? {
        state.Init(opts.value);
      }
    }

    /** Close the child state as the closure ended; a panic leaves it to the guard. */
    method Leave(outcome: Outcome, guard: Option<nat>)
      requires Here().Valid() && state.parent.Some?
      modifies state
      ensures Here() == old(Here()).(state := Left(old(Here()).state, outcome, guard))
    {
      ClosedIsValid(state.Value());
      FittingStoreIsValid(state.Value(), state.store.value);
      match outcome {
        case Commit(_) => state.Commit();
        case Rollback(_) => state.Rollback();
        case Unwind =>
          if guard.Some? {
            state.DropGuard(guard.value);
          }
      }
    }

    /** Run a closure within a state transaction. */
    method WithTransaction(rt: Runtime, opts: Option<Options>, body: Prog) returns (outcome: Outcome)
      requires Here().Valid()
      modifies state, stack
      ensures (Here(), outcome) == Transact(rt, opts, body, old(Here()))
      decreases 0x1_0000 - |stack.stack|, 1, body, 1
    {
      ghost var m := Here();
      Enter(opts);
      var guard := if opts.Some? then Some(state.Value().Level()) else None;
      outcome := Run(rt, body);
      LeftIsFramed(m, opts, Here(), outcome);
      Leave(outcome, guard);
    }

    /** Dispatch a call inside a transaction context; no result means a panic. */
    method DispatchCall(rt: Runtime, call: Call) returns (result: Option<CallResult>)
      requires Here().Valid()
      modifies state, stack
      ensures (Here(), result) == Programs.DispatchCall(rt, call, old(Here()))
      decreases 0x1_0000 - |stack.stack|, 2
    {
      var outcome := Run(rt, rt.handleCall(call));
      if outcome.Unwind? {
        return None;
      }
      var handled := ToCallResult(outcome);
      outcome := Run(rt, rt.afterHandleCall(handled));
      match outcome {
        case Unwind => return None;
        case Rollback(_) => return Some(ToCallResult(outcome));
        case Commit(_) =>
      }
      if call.readOnly && state.store.value.dirty != {} {
        return Some(READ_ONLY_VIOLATION);
      }
      return Some(handled);
    }

    /** Perform a subcall; no response means a panic. The entry pushed on the stack is popped however
        the call ends. */
    method Subcall(rt: Runtime, info: SubcallInfo, validator: Validator) returns (resp: Option<Resp>)
      requires Here().Valid()
      modifies state, stack
      ensures (Here(), resp) == Programs.Subcall(rt, info, validator, old(Here()))
      decreases 0x1_0000 - |stack.stack|, 0
    {
      hide Programs.Performed;
      ghost var m := Here();
      resp := stack.Admit(info, validator);
      if resp.None? {
        assert stack.stack[..|stack.stack| - 1] == m.calls;
        resp := Admitted(rt, info, validator);
      }
    }

    /** The part of a subcall that follows its admission. */
    method Admitted(rt: Runtime, info: SubcallInfo, validator: Validator) returns (resp: Option<Resp>)
      requires state.Value().Valid() && 0 < |stack.stack| <= info.maxDepth && stack.stack[|stack.stack| - 1] ==
                validator
      modifies state, stack
      ensures (Here(), resp) ==
              Programs.Performed(rt, info, validator, old(Machine(state.Value(), stack.stack[..|stack.stack| - 1])))
      decreases 0x1_0000 - |stack.stack|, 3
    {
      hide Programs.DispatchCall, Entered, Left, Store.View;
      ghost var m := Machine(state.Value(), stack.stack[..|stack.stack| - 1]);
      assert stack.stack == m.calls + [validator];
      var opts := Some(SubcallOptions(info, state.Value().MessageMax(rt.maxMessages)));
      Enter(opts);
      var guard := Some(state.Value().Level());
      var result := DispatchCall(rt, info.call);
      var gas := rt.remainingTxGas(state.store.value.View(), state.blockValues, state.localValues, state.env);
      LeftIsFramed(m.(calls := m.calls + [validator]), opts, Here(), CallOutcome(result));
      Leave(CallOutcome(result), guard);
      stack.Pop();
      if result.None? {
        return None;
      }
      return Some(SubcallDone(result.value, if gas <= info.maxGas then info.maxGas - gas else 0));
    }
  }
}
