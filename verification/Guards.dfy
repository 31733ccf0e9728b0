/** Which levels a panic leaves open: the guard of a transaction (runtime-sdk/src/state.rs) rolls back
    only at its own level, and a bare transaction has no guard. */
module Guards {
  import opened Basics
  import opened BlockState
  import opened Programs

  /** A panic strikes while a bare transaction is open that the program has opened, by itself or in a
      subcall. */
  ghost predicate Leaks(rt: Runtime, p: Prog, m: Machine)
    requires m.Valid()
    decreases 0x1_0000 - |m.calls|, 1, p, 0
  {
    match p
    case Return(_) => false
    case Do(op, k) =>
      var (s, resp) := Step(rt.maxMessages, op, m.state);
      resp.Some? && resp.value in k && Leaks(rt, k[resp.value], m.(state := s))
    case Nest(opts, body, k) =>
      var (n, outcome) := Transact(rt, opts, body, m);
      if outcome.Unwind? then opts.None? || Leaks(rt, body, m.(state := Entered(m.state, opts)))
      else Returned(outcome.val) in k && Leaks(rt, k[Returned(outcome.val)], n)
    case Sub(info, validator, k) =>
      var (n, resp) := Subcall(rt, info, validator, m);
      if resp.None? then SubcallLeaks(rt, info, validator, m)
      else resp.value in k && Leaks(rt, k[resp.value], n)
  }

  ghost predicate CallLeaks(rt: Runtime, call: Call, m: Machine)
    requires m.Valid()
    decreases 0x1_0000 - |m.calls|, 2
  {
    var (m1, o1) := Exec(rt, rt.handleCall(call), m);
    if o1.Unwind? then Leaks(rt, rt.handleCall(call), m)
    else Leaks(rt, rt.afterHandleCall(ToCallResult(o1)), m1)
  }

  ghost predicate SubcallLeaks(rt: Runtime, info: SubcallInfo, validator: Validator, m: Machine)
    requires m.Valid()
    decreases 0x1_0000 - |m.calls|, 0
  {
    |m.calls| < info.maxDepth &&
    var opts := Some(SubcallOptions(info, m.state.MessageMax(rt.maxMessages)));
    CallLeaks(rt, info.call, Machine(Entered(m.state, opts), m.calls + [validator]))
  }

  /** A guarded transaction is back at its level exactly if its closure is. */
  lemma GuardCloses(m: Machine, opts: Options, n: Machine, outcome: Outcome)
    requires m.Valid() && Framed(m.(state := Entered(m.state, Some(opts))), n, outcome.Unwind?)
    ensures n.state.parent.Some?
    ensures var t := Entered(m.state, Some(opts));
            Left(n.state, outcome, Guard(Some(opts), t)).Level() == m.state.Level() <==> n.state.Level() == t.Level()
  {
    LeftIsFramed(m, Some(opts), n, outcome);
  }

  /** Every run ends at the level it started at, unless a panic strikes while a bare transaction is
      open; then it ends above it. */
  lemma {:induction false} LevelsAreRestored(rt: Runtime, p: Prog, m: Machine)
    requires m.Valid()
    ensures Exec(rt, p, m).0.state.Level() == m.state.Level() <==> !Leaks(rt, p, m)
    ensures Leaks(rt, p, m) ==> Exec(rt, p, m).1.Unwind?
    decreases 0x1_0000 - |m.calls|, 1, p, 0
  {
    hide Step, Subcall, SubcallLeaks, Transact;
    match p
    case Return(_) =>
    case Do(op, k) =>
      var (s, resp) := Step(rt.maxMessages, op, m.state);
      if resp.Some? && resp.value in k {
        LevelsAreRestored(rt, k[resp.value], m.(state := s));
      }
    case Nest(opts, body, k) =>
      NestRestores(rt, opts, body, m);
      var (n, outcome) := Transact(rt, opts, body, m);
      if !outcome.Unwind? && Returned(outcome.val) in k {
        LevelsAreRestored(rt, k[Returned(outcome.val)], n);
      }
    case Sub(info, validator, k) =>
      SubcallRestores(rt, info, validator, m);
      var (n, resp) := Subcall(rt, info, validator, m);
      if resp.Some? && resp.value in k {
        LevelsAreRestored(rt, k[resp.value], n);
      }
  }

  lemma {:induction false} NestRestores(rt: Runtime, opts: Option<Options>, body: Prog, m: Machine)
    requires m.Valid()
    ensures var (n, outcome) := Transact(rt, opts, body, m);
            n.state.Level() == m.state.Level() <==>
            !(outcome.Unwind? && (opts.None? || Leaks(rt, body, m.(state := Entered(m.state, opts)))))
    decreases 0x1_0000 - |m.calls|, 1, body, 1
  {
    hide Exec, Leaks, Entered;
    var t := m.(state := Entered(m.state, opts));
    LevelsAreRestored(rt, body, t);
    var (n, outcome) := Exec(rt, body, t);
    LeftIsFramed(m, opts, n, outcome);
    if opts.Some? {
      GuardCloses(m, opts.value, n, outcome);
    }
  }

  lemma {:induction false} CallRestores(rt: Runtime, call: Call, m: Machine)
    requires m.Valid()
    ensures DispatchCall(rt, call, m).0.state.Level() == m.state.Level() <==> !CallLeaks(rt, call, m)
    ensures CallLeaks(rt, call, m) ==> DispatchCall(rt, call, m).1.None?
    decreases 0x1_0000 - |m.calls|, 2
  {
    hide Exec, Leaks;
    LevelsAreRestored(rt, rt.handleCall(call), m);
    var (m1, o1) := Exec(rt, rt.handleCall(call), m);
    if !o1.Unwind? {
      LevelsAreRestored(rt, rt.afterHandleCall(ToCallResult(o1)), m1);
    }
  }

  lemma {:induction false} SubcallRestores(rt: Runtime, info: SubcallInfo, validator: Validator, m: Machine)
    requires m.Valid()
    ensures var (n, resp) := Subcall(rt, info, validator, m);
            n.state.Level() == m.state.Level() <==> !(resp.None? && SubcallLeaks(rt, info, validator, m))
    decreases 0x1_0000 - |m.calls|, 0
  {
    hide DispatchCall, CallLeaks, Entered, FirstRejection;
    if validator(info).None? && Depth(m.calls) < info.maxDepth && FirstRejection(m.calls, info).None? {
      var opts := SubcallOptions(info, m.state.MessageMax(rt.maxMessages));
      var inner := Machine(Entered(m.state, Some(opts)), m.calls + [validator]);
      CallRestores(rt, info.call, inner);
      var (n, result) := DispatchCall(rt, info.call, inner);
      GuardCloses(m.(calls := inner.calls), opts, n, CallOutcome(result));
    }
  }

  /** The program opens no bare transaction. */
  ghost predicate Guarded(p: Prog) {
    match p
    case Return(_) => true
    case Do(_, k) => forall r | r in k :: Guarded(k[r])
    case Nest(opts, body, k) => opts.Some? && Guarded(body) && forall r | r in k :: Guarded(k[r])
    case Sub(_, _, k) => forall r | r in k :: Guarded(k[r])
  }

  ghost predicate RuntimeGuarded(rt: Runtime) {
    && (forall call :: Guarded(rt.handleCall(call)))
    && (forall result :: Guarded(rt.afterHandleCall(result)))
  }

  /** Code without bare transactions never leaves a level open, however it ends. */
  lemma {:induction false} GuardedNeverLeaks(rt: Runtime, p: Prog, m: Machine)
    requires m.Valid() && RuntimeGuarded(rt) && Guarded(p)
    ensures !Leaks(rt, p, m)
    decreases 0x1_0000 - |m.calls|, 1, p, 0
  {
    hide Step, Transact, Subcall, RuntimeGuarded, Entered;
    match p
    case Return(_) =>
    case Do(op, k) =>
      var (s, resp) := Step(rt.maxMessages, op, m.state);
      if resp.Some? && resp.value in k {
        GuardedNeverLeaks(rt, k[resp.value], m.(state := s));
      }
    case Nest(opts, body, k) =>
      var (n, outcome) := Transact(rt, opts, body, m);
      GuardedNeverLeaks(rt, body, m.(state := Entered(m.state, opts)));
      if !outcome.Unwind? && Returned(outcome.val) in k {
        GuardedNeverLeaks(rt, k[Returned(outcome.val)], n);
      }
    case Sub(info, validator, k) =>
      var (n, resp) := Subcall(rt, info, validator, m);
      if |m.calls| < info.maxDepth {
        var opts := Some(SubcallOptions(info, m.state.MessageMax(rt.maxMessages)));
        GuardedCall(rt, info.call, Machine(Entered(m.state, opts), m.calls + [validator]));
      }
      if resp.Some? && resp.value in k {
        GuardedNeverLeaks(rt, k[resp.value], n);
      }
  }

  lemma {:induction false} GuardedCall(rt: Runtime, call: Call, m: Machine)
    requires m.Valid() && RuntimeGuarded(rt)
    ensures !CallLeaks(rt, call, m)
    decreases 0x1_0000 - |m.calls|, 2
  {
    hide Exec, Leaks;
    GuardedNeverLeaks(rt, rt.handleCall(call), m);
    var (m1, o1) := Exec(rt, rt.handleCall(call), m);
    if !o1.Unwind? {
      GuardedNeverLeaks(rt, rt.afterHandleCall(ToCallResult(o1)), m1);
    }
  }

  /** A bare transaction that panics. */
  const BARE_PANIC := Nest(None, Do(GetEnv, imap[]), imap[])

  /** Around it even a guarded transaction is left open: both levels stay. */
  lemma BarePanicLeaks(rt: Runtime, opts: Options, m: Machine)
    requires m.Valid()
    ensures Transact(rt, Some(opts), BARE_PANIC, m).1 == Unwind
    ensures Transact(rt, Some(opts), BARE_PANIC, m).0.state.Level() == m.state.Level() + 2
    ensures Exec(rt, BARE_PANIC, m).0.state.Level() == m.state.Level() + 1
  {
    BareIsLeft(rt, m);
    BareIsLeft(rt, m.(state := Entered(m.state, Some(opts))));
  }

  lemma BareIsLeft(rt: Runtime, m: Machine)
    requires m.Valid()
    ensures Exec(rt, BARE_PANIC, m) == (m.(state := Entered(m.state, None)), Unwind)
  {
    hide Entered;
    var t := m.(state := Entered(m.state, None));
    assert Exec(rt, BARE_PANIC.body, t) == (t, Unwind);
  }

  /** Over all programs: levels are restored, panics included, exactly if bare transactions are not
      used. */
  lemma GuardsAreExact(rt: Runtime, m: Machine, bare: bool)
    requires m.Valid() && RuntimeGuarded(rt)
    ensures (forall p | bare || Guarded(p) :: Exec(rt, p, m).0.state.Level() == m.state.Level()) <==> !bare
  {
    hide Exec, RuntimeGuarded, Guarded, Leaks;
    if bare {
      BarePanicLeaks(rt, NO_OPTIONS, m);
      assert Exec(rt, BARE_PANIC, m).0.state.Level() != m.state.Level();
    } else {
      forall p | Guarded(p) ensures Exec(rt, p, m).0.state.Level() == m.state.Level() {
        GuardedNeverLeaks(rt, p, m);
        LevelsAreRestored(rt, p, m);
      }
    }
  }
}
