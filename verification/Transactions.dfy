/** What a state transaction leaves behind, for every program run inside it. */
module Transactions {
  import opened Basics
  import opened BlockState
  import opened Programs
  import opened Guards

  /** The RNG after initialisation has recorded the transaction and the local entropy in it. */
  function Noted(rng: Rng, opts: Options): Rng {
    var rng := if opts.tx.Some? then rng.Append(TxSeen(opts.tx.value.hash)) else rng;
    if opts.entropy.Some? then rng.Append(LocalEntropy(opts.entropy.value)) else rng
  }

  predicate Discards(opts: Options) {
    opts.mode == Some(PreSchedule) || opts.mode == Some(Simulate)
  }

  /** What initialisation makes of the environment, the RNG and the block values: pre-schedule and
      simulation hide the block values and doom the state, and the RNG is set aside only for
      pre-schedule and only after it has been written to. */
  lemma EnteredEnvironment(s: State, o: Options)
    requires s.Valid()
    ensures var t := Entered(s, Some(o));
            var env := Environment(
              if o.mode.Some? then o.mode.value else s.env.mode,
              if o.tx.Some? then o.tx else s.env.tx,
              if o.internal.Some? then o.internal.value else s.env.internal);
            var noted := Noted(s.rng.value, o);
            var hides := Discards(o) || o.internal == Some(true);
            && t.env == env
            && t.alwaysRollback == Discards(o)
            && t.rng == Some(if env.mode.PreSchedule? then INVALID_RNG else noted.Append(SubContext))
            && t.hiddenRng == (if env.mode.PreSchedule? then Some(noted) else None)
            && t.blockValues == (if hides then map[] else s.blockValues)
            && t.hiddenBlockValues == (if hides then Some(s.blockValues) else None)
  {
    Configured(s.Opened(), o);
  }

  lemma Configured(q: State, o: Options)
    requires q.parent.Some? && q.rng.Some? && q.hiddenBlockValues.None? && !q.alwaysRollback
    ensures var hides := Discards(o) || o.internal == Some(true);
            q.WithMode(o.mode).WithTx(o.tx).WithInternal(o.internal).WithEntropy(o.entropy) ==
            q.(env := Environment(
                 if o.mode.Some? then o.mode.value else q.env.mode,
                 if o.tx.Some? then o.tx else q.env.tx,
                 if o.internal.Some? then o.internal.value else q.env.internal),
               alwaysRollback := Discards(o),
               rng := Some(Noted(q.rng.value, o)),
               blockValues := if hides then map[] else q.blockValues,
               hiddenBlockValues := if hides then Some(q.blockValues) else None)
  {
    hide State.WithMode, State.WithTx, State.WithInternal, State.WithEntropy, Rng.Append;
    ModeChanges(q, o.mode);
    var a := q.WithMode(o.mode);
    TxChanges(a, o.tx);
    var b := a.WithTx(o.tx);
    InternalChanges(b, o.internal);
    EntropyChanges(b.WithInternal(o.internal), o.entropy);
  }

  lemma ModeChanges(s: State, mode: Option<Mode>)
    requires s.parent.Some? && s.hiddenBlockValues.None? && !s.alwaysRollback
    ensures var hides := mode == Some(PreSchedule) || mode == Some(Simulate);
            s.WithMode(mode) ==
            s.(env := s.env.(mode := if mode.Some? then mode.value else s.env.mode), alwaysRollback := hides,
               blockValues := if hides then map[] else s.blockValues,
               hiddenBlockValues := if hides then Some(s.blockValues) else None)
  {
  }

  lemma TxChanges(s: State, tx: Option<TxMeta>)
    requires s.rng.Some?
    ensures s.WithTx(tx) ==
            s.(env := s.env.(tx := if tx.Some? then tx else s.env.tx),
               rng := Some(if tx.Some? then s.rng.value.Append(TxSeen(tx.value.hash)) else s.rng.value))
  {
  }

  lemma EntropyChanges(s: State, entropy: Option<Bytes>)
    requires s.rng.Some?
    ensures s.WithEntropy(entropy) ==
            s.(rng := Some(if entropy.Some? then s.rng.value.Append(LocalEntropy(entropy.value)) else s.rng.value))
  {
  }

  lemma InternalChanges(s: State, internal: Option<bool>)
    requires s.parent.Some?
    ensures var hides := internal == Some(true) && s.hiddenBlockValues.None?;
            s.WithInternal(internal) ==
            s.(env := s.env.(internal := if internal.Some? then internal.value else s.env.internal),
               blockValues := if hides then map[] else s.blockValues,
               hiddenBlockValues := if hides then Some(s.blockValues) else s.hiddenBlockValues)
  {
  }

  /** Leaving a discarding transaction restores everything but the RNG, whatever ran inside. */
  lemma DiscardRestores(m: Machine, opts: Options, n: Machine, outcome: Outcome)
    requires m.Valid() && Discards(opts)
    requires Framed(m.(state := Entered(m.state, Some(opts))), n, outcome.Unwind?)
    requires n.state.Level() == m.state.Level() + 1
    ensures n.state.parent.Some?
    ensures var u := Left(n.state, outcome, Some(n.state.Level()));
            && u == m.state.(rng := u.rng)
            && (opts.mode.value.PreSchedule? ==> u.rng == Some(Noted(m.state.rng.value, opts)))
  {
    EnteredEnvironment(m.state, opts);
    EnteredChild(m.state, Some(opts));
    ClosedIsValid(n.state);
  }

  /** A discarding transaction, however its closure ends, leaves everything but the RNG as it was,
      unless a panic strikes inside a bare transaction that is still open; then levels stay open. */
  lemma DiscardingTransaction(rt: Runtime, opts: Options, body: Prog, m: Machine)
    requires m.Valid() && Discards(opts)
    ensures var (n, outcome) := Transact(rt, Some(opts), body, m);
            if Leaks(rt, body, m.(state := Entered(m.state, Some(opts))))
            then outcome.Unwind? && n.state.Level() > m.state.Level()
            else n == m.(state := m.state.(rng := n.state.rng)) &&
                 (opts.mode.value.PreSchedule? ==> n.state.rng == Some(Noted(m.state.rng.value, opts)))
  {
    hide Leaks;
    var t := m.(state := Entered(m.state, Some(opts)));
    LevelsAreRestored(rt, body, t);
    var (n, outcome) := Exec(rt, body, t);
    if n.state.Level() == m.state.Level() + 1 {
      DiscardRestores(m, opts, n, outcome);
    }
  }

  /** Pre-scheduling leaves no trace at all, panics included, exactly when no panic strikes inside an
      open bare transaction and the options name neither a transaction nor local entropy, or the RNG
      was disabled already: `init` writes to the RNG before setting it aside. */
  lemma PreScheduleLeavesNoTrace(rt: Runtime, opts: Options, body: Prog, m: Machine)
    requires m.Valid() && opts.mode == Some(PreSchedule)
    ensures Transact(rt, Some(opts), body, m).0 == m <==>
            && !Leaks(rt, body, m.(state := Entered(m.state, Some(opts))))
            && ((opts.tx.None? && opts.entropy.None?) || !m.state.rng.value.valid)
  {
    hide Leaks, Transact;
    DiscardingTransaction(rt, opts, body, m);
    var rng := m.state.rng.value;
    assert Noted(rng, opts) == rng <==> (opts.tx.None? && opts.entropy.None?) || !rng.valid by {
      assert |Noted(rng, opts).transcript| == |rng.transcript| +
        (if opts.tx.Some? && rng.valid then 1 else 0) + (if opts.entropy.Some? && rng.valid then 1 else 0);
    }
  }

  /** Of code without bare transactions nothing but the RNG is left, and nothing at all if the options
      carry neither a transaction nor entropy, even when it panics. */
  lemma GuardedCodeIsDiscarded(rt: Runtime, opts: Options, body: Prog, m: Machine)
    requires m.Valid() && Discards(opts) && RuntimeGuarded(rt) && Guarded(body)
    ensures var n := Transact(rt, Some(opts), body, m).0;
            && n == m.(state := m.state.(rng := n.state.rng))
            && (opts.mode == Some(PreSchedule) && opts.tx.None? && opts.entropy.None? ==> n == m)
  {
    hide Leaks, Guarded, RuntimeGuarded, Transact;
    GuardedNeverLeaks(rt, body, m.(state := Entered(m.state, Some(opts))));
    DiscardingTransaction(rt, opts, body, m);
  }

  lemma ReturnsItsOutcome(rt: Runtime, opts: Options, o: Outcome, m: Machine)
    requires m.Valid()
    ensures Transact(rt, Some(opts), Return(o), m).1 == o
  {
  }

  /** The trace a transaction hash leaves: a concrete pre-schedule transaction that changes the RNG. */
  lemma PreScheduleTraceExample()
    ensures exists rt: Runtime, opts: Options, body: Prog, m: Machine ::
              && m.Valid() && opts.mode == Some(PreSchedule)
              && Transact(rt, Some(opts), body, m).1 == Commit(Num(0))
              && Transact(rt, Some(opts), body, m).0 != m
  {
    hide Transact;
    var body := Return(Commit(Num(0)));
    var rt := Runtime(0, _ => body, _ => body, (_, _, _, _) => 0);
    var tx := TxMeta(Tx(Call("", [], false), [], 0, 0), 0, 0, []);
    var opts := NO_OPTIONS.(mode := Some(PreSchedule), tx := Some(tx));
    var m := Machine(Root(map[], Execute), []);
    ReturnsItsOutcome(rt, opts, Commit(Num(0)), m);
    PreScheduleLeavesNoTrace(rt, opts, body, m);
    assert m.state.rng.value.valid;
  }

  /** Raw use of the state, one call at a time and in any order. */
  datatype ApiCall = Open | OpenWith(opts: Options) | CommitTop | RollbackTop | Use(op: Op)

  /** The reasons for which the state code can panic or misbehave. */
  datatype Fault = CloseRoot | HideOnRoot | NoStore | NoRng | BadCast

  datatype Attempt = Done(state: State) | Fault(fault: Fault)

  /** One call, with every unwrap and the unchecked cast made explicit. */
  function Attempted(maxMessages: nat, call: ApiCall, s: State): Attempt {
    match call
    case Open => Done(s.Opened())
    case OpenWith(opts) =>
      var t := s.Opened();
      if t.rng.None? then Fault(NoRng) else Done(t.Init(opts))
    case CommitTop =>
      if s.parent.None? then Fault(CloseRoot) else if !s.CastIsSafe() then Fault(BadCast) else Done(s.Committed())
    case RollbackTop =>
      if s.parent.None? then Fault(CloseRoot) else if !s.CastIsSafe() then Fault(BadCast) else Done(s.RolledBack())
    case Use(HideValues) => if s.parent.None? then Fault(HideOnRoot) else Done(s.HideBlockValues())
    case Use(op) =>
      if s.store.None? then Fault(NoStore)
      else if s.rng.None? then Fault(NoRng)
      else if !s.Fits(s.store.value) then Fault(BadCast)
      else Done(Step(maxMessages, op, s).0)
  }

  function Attempts(maxMessages: nat, calls: seq<ApiCall>, s: State): Attempt {
    if calls == [] then Done(s)
    else
      var a := Attempted(maxMessages, calls[0], s);
      if a.Fault? then a else Attempts(maxMessages, calls[1..], a.state)
  }

  /** In every state reachable from an entered root, by calls in any order, only the top state holds
      the store and the RNG and every overlay wraps its parent's overlay; so the only possible
      faults are closing the root and hiding on the root. */
  lemma {:induction false} ReachableStatesAreValid(maxMessages: nat, calls: seq<ApiCall>, s: State)
    requires s.Valid()
    ensures var a := Attempts(maxMessages, calls, s);
            if a.Done? then a.state.Valid() else a.fault.CloseRoot? || a.fault.HideOnRoot?
  {
    if calls != [] {
      match calls[0] {
      case Open => OpenedIsValid(s, NO_OPTIONS);
      case CommitTop => if s.parent.Some? { ClosedIsValid(s); }
      case RollbackTop => if s.parent.Some? { ClosedIsValid(s); }
      case OpenWith(opts) => OpenedIsValid(s, opts);
      case Use(op) =>
      }
      var a := Attempted(maxMessages, calls[0], s);
      if a.Done? {
        ReachableStatesAreValid(maxMessages, calls[1..], a.state);
      }
    }
  }
}
