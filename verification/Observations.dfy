/** Safety over whole runs: everything that happens to the message count and the subcall stack while
    a program runs, at any nesting depth. */
module Observations {
  import opened Basics
  import opened Storage
  import opened BlockState
  import opened Programs
  import opened Transactions

  /** An observation during a run: the number of messages over the whole state stack, or a subcall
      that is about to be dispatched with the validators stacked at that moment (its own included),
      the message limit its caller has and the one it gets, the mode of its caller and the environment
      it runs in. */
  datatype Obs =
    | Emitted(total: nat)
    | Dispatching(info: SubcallInfo, stack: seq<Validator>, callerLimit: nat, ownLimit: nat,
                  callerMode: Mode, env: Environment)

  /** All observations of a run, in order. It follows `Exec` step by step. */
  ghost function Observed(rt: Runtime, p: Prog, m: Machine): seq<Obs>
    requires m.Valid()
    decreases 0x1_0000 - |m.calls|, 1, p, 0
  {
    match p
    case Return(_) => []
    case Do(op, k) =>
      var (s, resp) := Step(rt.maxMessages, op, m.state);
      [Emitted(s.MessageCount())] +
      if resp.Some? && resp.value in k then Observed(rt, k[resp.value], m.(state := s)) else []
    case Nest(opts, body, k) =>
      var (n, outcome) := Transact(rt, opts, body, m);
      Observed(rt, body, m.(state := Entered(m.state, opts))) +
      if !outcome.Unwind? && Returned(outcome.val) in k
      then [Emitted(n.state.MessageCount())] + Observed(rt, k[Returned(outcome.val)], n)
      else []
    case Sub(info, validator, k) =>
      var (n, resp) := Subcall(rt, info, validator, m);
      ObservedSubcall(rt, info, validator, m) +
      if resp.Some? && resp.value in k
      then [Emitted(n.state.MessageCount())] + Observed(rt, k[resp.value], n)
      else []
  }

  ghost function ObservedCall(rt: Runtime, call: Call, m: Machine): seq<Obs>
    requires m.Valid()
    decreases 0x1_0000 - |m.calls|, 2
  {
    var (m1, o1) := Exec(rt, rt.handleCall(call), m);
    Observed(rt, rt.handleCall(call), m) +
    if o1.Unwind? then [] else Observed(rt, rt.afterHandleCall(ToCallResult(o1)), m1)
  }

  ghost function ObservedSubcall(rt: Runtime, info: SubcallInfo, validator: Validator, m: Machine): seq<Obs>
    requires m.Valid()
    decreases 0x1_0000 - |m.calls|, 0
  {
    if validator(info).Some? || Depth(m.calls) >= info.maxDepth || FirstRejection(m.calls, info).Some? then []
    else
      var limit := m.state.MessageMax(rt.maxMessages);
      var inner := Machine(Entered(m.state, Some(SubcallOptions(info, limit))), m.calls + [validator]);
      [Dispatching(info, inner.calls, limit, inner.state.MessageMax(rt.maxMessages), m.state.env.mode,
                   inner.state.env)] +
      ObservedCall(rt, info.call, inner)
  }

  /** Transactions that a program opens by itself claim at most `cap` message slots. */
  ghost predicate Claims(p: Prog, cap: nat) {
    match p
    case Return(_) => true
    case Do(_, k) => forall r | r in k :: Claims(k[r], cap)
    case Nest(opts, body, k) =>
      && (opts.Some? && opts.value.tx.Some? ==> opts.value.tx.value.data.consensusMessages <= cap)
      && Claims(body, cap)
      && forall r | r in k :: Claims(k[r], cap)
    case Sub(_, _, k) => forall r | r in k :: Claims(k[r], cap)
  }

  ghost predicate RuntimeClaims(rt: Runtime) {
    && (forall call :: Claims(rt.handleCall(call), rt.maxMessages))
    && (forall result :: Claims(rt.afterHandleCall(result), rt.maxMessages))
  }

  /** The count and the limit in force are within the per-block maximum. */
  predicate Bounded(rt: Runtime, s: State) {
    s.MessageCount() <= rt.maxMessages && s.MessageMax(rt.maxMessages) <= rt.maxMessages
  }

  /** What must hold of every observation. */
  ghost predicate Fine(rt: Runtime, o: Obs) {
    match o
    case Emitted(total) => total <= rt.maxMessages
    case Dispatching(info, stack, callerLimit, ownLimit, callerMode, env) =>
      && |stack| <= info.maxDepth
      && (forall i | 0 <= i < |stack| :: stack[i](info).None?)
      && ownLimit == callerLimit
      && OnBehalf(info, callerLimit, callerMode, env)
  }

  /** The environment is internal, in the mode of the caller, and its transaction makes the call on the
      caller's behalf with the gas granted and the caller's message limit. */
  predicate OnBehalf(info: SubcallInfo, limit: nat, mode: Mode, env: Environment) {
    && env.internal && env.mode == mode && env.tx.Some?
    && var tx := env.tx.value;
    && tx.data.call == info.call && tx.data.caller == info.caller
    && tx.data.gas == info.maxGas && tx.data.consensusMessages == limit
    && tx.size == 0 && tx.index == 0 && |tx.hash| == 32 && forall i | 0 <= i < 32 :: tx.hash[i] == 0
  }

  ghost predicate AllFine(rt: Runtime, os: seq<Obs>) {
    forall i | 0 <= i < |os| :: Fine(rt, os[i])
  }

  /** A child state starts with the count of its parent, and leaving it never raises the count. */
  lemma NestingKeepsCount(s: State, opts: Option<Options>, t: State, outcome: Outcome)
    requires s.Valid() && t.Valid() && t.parent.Some?
    ensures Entered(s, opts).MessageCount() == s.MessageCount()
    ensures !outcome.Unwind? ==> Left(t, outcome, None).MessageCount() <= t.MessageCount()
  {
    EnteredChild(s, opts);
    var p := s.(store := None, blockValues := map[], rng := None);
    assert p.MessageCount() == s.MessageCount();
    ClosedIsValid(t);
    assert t.PutBack().MessageCount() == t.parent.value.MessageCount();
  }

  lemma EnteredLimit(rt: Runtime, s: State, opts: Option<Options>)
    requires s.Valid()
    ensures Entered(s, opts).env.tx == if opts.Some? && opts.value.tx.Some? then opts.value.tx else s.env.tx
  {
    if opts.Some? {
      EnteredEnvironment(s, opts.value);
    }
  }

  /** A message is only accepted while there is room for it. */
  lemma StepKeepsBound(rt: Runtime, op: Op, s: State)
    requires s.Valid() && Bounded(rt, s)
    ensures Bounded(rt, Step(rt.maxMessages, op, s).0)
  {
    var t := Step(rt.maxMessages, op, s).0;
    assert t.parent == s.parent;
    assert op.EmitMessage? || op.TakeMessages? || t.messages == s.messages;
  }

  /** Over every run, at every nesting depth: the message count never exceeds the per-block maximum;
      every dispatched subcall was accepted by its own and all stacked validators, is within its
      depth limit, has exactly its caller's message limit and is made on its caller's behalf. */
  lemma {:induction false} RunsAreFine(rt: Runtime, p: Prog, m: Machine)
    requires m.Valid() && RuntimeClaims(rt) && Claims(p, rt.maxMessages) && Bounded(rt, m.state)
    ensures AllFine(rt, Observed(rt, p, m))
    ensures !Exec(rt, p, m).1.Unwind? ==> Bounded(rt, Exec(rt, p, m).0.state)
    decreases 0x1_0000 - |m.calls|, 1, p, 0
  {
    hide Step, Transact, Subcall, ObservedSubcall, RuntimeClaims;
    match p
    case Return(_) =>
    case Do(op, k) =>
      var (s, resp) := Step(rt.maxMessages, op, m.state);
      StepKeepsBound(rt, op, m.state);
      if resp.Some? && resp.value in k {
        RunsAreFine(rt, k[resp.value], m.(state := s));
      }
    case Nest(opts, body, k) =>
      NestIsFine(rt, opts, body, m);
      var (n, outcome) := Transact(rt, opts, body, m);
      if !outcome.Unwind? && Returned(outcome.val) in k {
        RunsAreFine(rt, k[Returned(outcome.val)], n);
      }
    case Sub(info, validator, k) =>
      SubcallIsFine(rt, info, validator, m);
      var (n, resp) := Subcall(rt, info, validator, m);
      if resp.Some? && resp.value in k {
        RunsAreFine(rt, k[resp.value], n);
      }
  }

  lemma {:induction false} NestIsFine(rt: Runtime, opts: Option<Options>, body: Prog, m: Machine)
    requires m.Valid() && RuntimeClaims(rt) && Claims(body, rt.maxMessages) && Bounded(rt, m.state)
    requires opts.Some? && opts.value.tx.Some? ==> opts.value.tx.value.data.consensusMessages <= rt.maxMessages
    ensures AllFine(rt, Observed(rt, body, m.(state := Entered(m.state, opts))))
    ensures !Transact(rt, opts, body, m).1.Unwind? ==> Bounded(rt, Transact(rt, opts, body, m).0.state)
    decreases 0x1_0000 - |m.calls|, 1, body, 1
  {
    var t := Entered(m.state, opts);
    EnteredLimit(rt, m.state, opts);
    NestingKeepsCount(m.state, opts, t, Unwind);
    RunsAreFine(rt, body, m.(state := t));
    var (n, outcome) := Exec(rt, body, m.(state := t));
    if !outcome.Unwind? {
      LeftIsFramed(m, opts, n, outcome);
      NestingKeepsCount(m.state, opts, n.state, outcome);
    }
  }

  lemma {:induction false} CallIsFine(rt: Runtime, call: Call, m: Machine)
    requires m.Valid() && RuntimeClaims(rt) && Bounded(rt, m.state)
    ensures AllFine(rt, ObservedCall(rt, call, m))
    ensures DispatchCall(rt, call, m).1.Some? ==> Bounded(rt, DispatchCall(rt, call, m).0.state)
    decreases 0x1_0000 - |m.calls|, 2
  {
    RunsAreFine(rt, rt.handleCall(call), m);
    var (m1, o1) := Exec(rt, rt.handleCall(call), m);
    if !o1.Unwind? {
      RunsAreFine(rt, rt.afterHandleCall(ToCallResult(o1)), m1);
    }
  }

  lemma SubcallIsOnBehalf(rt: Runtime, info: SubcallInfo, s: State)
    requires s.Valid()
    ensures var limit := s.MessageMax(rt.maxMessages);
            OnBehalf(info, limit, s.env.mode, Entered(s, Some(SubcallOptions(info, limit))).env)
  {
    EnteredEnvironment(s, SubcallOptions(info, s.MessageMax(rt.maxMessages)));
  }

  lemma {:induction false} SubcallIsFine(rt: Runtime, info: SubcallInfo, validator: Validator, m: Machine)
    requires m.Valid() && RuntimeClaims(rt) && Bounded(rt, m.state)
    ensures AllFine(rt, ObservedSubcall(rt, info, validator, m))
    ensures Subcall(rt, info, validator, m).1.Some? ==> Bounded(rt, Subcall(rt, info, validator, m).0.state)
    decreases 0x1_0000 - |m.calls|, 0
  {
    hide DispatchCall, Performed, Entered, FirstRejection;
    if validator(info).None? && Depth(m.calls) < info.maxDepth && FirstRejection(m.calls, info).None? {
      var limit := m.state.MessageMax(rt.maxMessages);
      var opts := Some(SubcallOptions(info, limit));
      var inner := Machine(Entered(m.state, opts), m.calls + [validator]);
      EnteredLimit(rt, m.state, opts);
      NestingKeepsCount(m.state, opts, inner.state, Unwind);
      assert inner.state.MessageMax(rt.maxMessages) == limit;
      CallIsFine(rt, info.call, inner);
      assert forall i | 0 <= i < |inner.calls| :: inner.calls[i](info).None?;
      SubcallIsOnBehalf(rt, info, m.state);
      assert Fine(rt, Dispatching(info, inner.calls, limit, inner.state.MessageMax(rt.maxMessages), m.state.env.mode,
                                  inner.state.env));
      PerformedKeepsBound(rt, info, validator, m);
    }
  }

  lemma PerformedKeepsBound(rt: Runtime, info: SubcallInfo, validator: Validator, m: Machine)
    requires m.Valid() && |m.calls| < info.maxDepth && Bounded(rt, m.state)
    requires var opts := Some(SubcallOptions(info, m.state.MessageMax(rt.maxMessages)));
             var inner := Machine(Entered(m.state, opts), m.calls + [validator]);
             DispatchCall(rt, info.call, inner).1.Some? ==> Bounded(rt, DispatchCall(rt, info.call, inner).0.state)
    ensures Performed(rt, info, validator, m).1.Some? ==> Bounded(rt, Performed(rt, info, validator, m).0.state)
  {
    var opts := Some(SubcallOptions(info, m.state.MessageMax(rt.maxMessages)));
    var inner := Machine(Entered(m.state, opts), m.calls + [validator]);
    var (n, result) := DispatchCall(rt, info.call, inner);
    if result.Some? {
      LeftIsFramed(m.(calls := inner.calls), opts, n, CallOutcome(result));
      NestingKeepsCount(m.state, opts, n.state, CallOutcome(result));
    }
  }

  /** Claiming less is allowed wherever claiming more is. */
  lemma {:induction false} ClaimsGrow(p: Prog, cap: nat, more: nat)
    requires Claims(p, cap) && cap <= more
    ensures Claims(p, more)
    decreases p
  {
    match p
    case Return(_) =>
    case Do(_, k) => forall r | r in k ensures Claims(k[r], more) { ClaimsGrow(k[r], cap, more); }
    case Nest(_, body, k) =>
      ClaimsGrow(body, cap, more);
      forall r | r in k ensures Claims(k[r], more) { ClaimsGrow(k[r], cap, more); }
    case Sub(_, _, k) => forall r | r in k ensures Claims(k[r], more) { ClaimsGrow(k[r], cap, more); }
  }

  const MESSAGE := Message([], Hook("", []))

  /** Emit `n` messages. */
  function Emitting(n: nat): Prog {
    if n == 0 then Return(Commit(Num(0))) else Do(EmitMessage(MESSAGE), imap[Flag(true) := Emitting(n - 1)])
  }

  lemma {:induction false} EmittingClaims(n: nat, cap: nat)
    ensures Claims(Emitting(n), cap)
  {
    if n > 0 {
      EmittingClaims(n - 1, cap);
    }
  }

  /** Emitting messages within the limit in force succeeds and is observed. */
  lemma {:induction false} EmittingCounts(rt: Runtime, n: nat, m: Machine)
    requires m.Valid() && m.state.MessageCount() + n <= m.state.MessageMax(rt.maxMessages)
    ensures Exec(rt, Emitting(n), m).1 == Commit(Num(0))
    ensures Exec(rt, Emitting(n), m).0.state.MessageCount() == m.state.MessageCount() + n
    ensures n > 0 ==> Emitted(m.state.MessageCount() + n) in Observed(rt, Emitting(n), m)
  {
    if n > 0 {
      var s := Step(rt.maxMessages, EmitMessage(MESSAGE), m.state).0;
      assert s.MessageCount() == m.state.MessageCount() + 1;
      EmittingCounts(rt, n - 1, m.(state := s));
      assert Observed(rt, Emitting(n), m) ==
          [Emitted(s.MessageCount())] + Observed(rt, Emitting(n - 1), m.(state := s));
    }
  }

  /** A program that claims one slot more than a block has, and uses it. */
  function Overclaiming(rt: Runtime, m: Machine): Prog {
    var tx := TxMeta(Tx(Call("", [], false), [], 0, rt.maxMessages + 1), 0, 0, []);
    var n := rt.maxMessages + 1 - m.state.MessageCount();
    Nest(Some(NO_OPTIONS.(tx := Some(tx))), Emitting(if n >= 0 then n else 0), imap[])
  }

  lemma NestObserves(rt: Runtime, opts: Option<Options>, body: Prog, m: Machine, o: Obs)
    requires m.Valid() && o in Observed(rt, body, m.(state := Entered(m.state, opts)))
    ensures o in Observed(rt, Nest(opts, body, imap[]), m)
  {
    hide Exec, Transact, Entered;
    var inner := Observed(rt, body, m.(state := Entered(m.state, opts)));
    assert Observed(rt, Nest(opts, body, imap[]), m) == inner + [];
  }

  lemma OverclaimingOverflows(rt: Runtime, m: Machine)
    requires m.Valid() && Bounded(rt, m.state)
    ensures Claims(Overclaiming(rt, m), rt.maxMessages + 1)
    ensures Emitted(rt.maxMessages + 1) in Observed(rt, Overclaiming(rt, m), m)
  {
    hide Exec, Observed, Emitting, Entered;
    var p := Overclaiming(rt, m);
    var t := Entered(m.state, p.opts);
    EnteredLimit(rt, m.state, p.opts);
    NestingKeepsCount(m.state, p.opts, t, Unwind);
    var n := rt.maxMessages + 1 - m.state.MessageCount();
    EmittingCounts(rt, n, m.(state := t));
    EmittingClaims(n, rt.maxMessages + 1);
    NestObserves(rt, p.opts, Emitting(n), m, Emitted(rt.maxMessages + 1));
  }

  /** The bound is exact: from any state within it, all programs whose transactions claim at most `cap`
      slots stay within it exactly if a block has that many. */
  lemma ClaimsBoundIsExact(rt: Runtime, m: Machine, cap: nat)
    requires m.Valid() && RuntimeClaims(rt) && Bounded(rt, m.state)
    ensures (forall p | Claims(p, cap) :: AllFine(rt, Observed(rt, p, m))) <==> cap <= rt.maxMessages
  {
    hide RuntimeClaims, Observed, Bounded, Claims;
    if cap <= rt.maxMessages {
      forall p | Claims(p, cap) ensures AllFine(rt, Observed(rt, p, m)) {
        ClaimsGrow(p, cap, rt.maxMessages);
        RunsAreFine(rt, p, m);
      }
    } else {
      OverclaimingOverflows(rt, m);
      var p := Overclaiming(rt, m);
      ClaimsGrow(p, rt.maxMessages + 1, cap);
      assert !Fine(rt, Emitted(rt.maxMessages + 1));
      assert !AllFine(rt, Observed(rt, p, m));
    }
  }

  /** A subcall leaves the block values as they were, whether it commits or rolls back. */
  lemma SubcallKeepsBlockValues(rt: Runtime, info: SubcallInfo, validator: Validator, m: Machine)
    requires m.Valid()
    ensures var n := Subcall(rt, info, validator, m).0;
            n.state.Level() == m.state.Level() ==> n.state.blockValues == m.state.blockValues
  {
    if validator(info).None? && Depth(m.calls) < info.maxDepth && FirstRejection(m.calls, info).None? {
      var o := SubcallOptions(info, m.state.MessageMax(rt.maxMessages));
      var inner := Machine(Entered(m.state, Some(o)), m.calls + [validator]);
      EnteredEnvironment(m.state, o);
      var (n, result) := DispatchCall(rt, info.call, inner);
      LeftIsFramed(m.(calls := inner.calls), Some(o), n, CallOutcome(result));
      if n.state.Level() == inner.state.Level() {
        ClosedIsValid(n.state);
      }
    }
  }
}
