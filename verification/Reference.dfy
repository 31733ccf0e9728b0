/** A simple interpreter for the same programs: it copies everything on open and restores the copy
    on rollback, keeps one chronological event log and has no overlays, no hidden fields to move
    around and no links to parents. `RunRefines` shows that the block state behaves like it. */
module Reference {
  import opened Basics
  import opened Storage
  import opened BlockState
  import opened Programs
  import opened Transactions

  datatype Entry = Entry(unconditional: bool, key: Bytes, value: Bytes)

  datatype Snapshot = Snapshot(
    content: Content, touched: set<Bytes>,
    log: seq<Entry>,
    messages: seq<Message>, below: nat,
    blockValues: Values, hidden: Option<Values>, localValues: Values,
    rng: Rng, env: Environment, origin: Environment, level: nat)

  /** The values logged under a key, in emission order. */
  function ValuesOf(log: seq<Entry>, unconditional: bool, key: Bytes): seq<Bytes> {
    if log == [] then []
    else
      var last := log[|log| - 1];
      ValuesOf(log[..|log| - 1], unconditional, key) +
      if last.unconditional == unconditional && last.key == key then [last.value] else []
  }

  /** The tags of a log: its values grouped by key. */
  function TagsOf(log: seq<Entry>, unconditional: bool): EventTags {
    if log == [] then map[]
    else
      var tags, last := TagsOf(log[..|log| - 1], unconditional), log[|log| - 1];
      if last.unconditional == unconditional then Merged(tags, map[last.key := [last.value]]) else tags
  }

  function Without(log: seq<Entry>, unconditional: bool): seq<Entry> {
    if log == [] then []
    else
      var last := log[|log| - 1];
      Without(log[..|log| - 1], unconditional) + if last.unconditional == unconditional then [] else [last]
  }

  /** Grouping loses nothing and invents nothing: under every key stand exactly the values logged
      there, in emission order. */
  lemma {:induction false} TagsHoldValues(log: seq<Entry>, unconditional: bool, key: Bytes)
    ensures TagsAt(TagsOf(log, unconditional), key) == ValuesOf(log, unconditional, key)
    ensures key in TagsOf(log, unconditional) <==> ValuesOf(log, unconditional, key) != []
  {
    if log != [] {
      TagsHoldValues(log[..|log| - 1], unconditional, key);
    }
  }

  lemma MergedAt(a: EventTags, b: EventTags, key: Bytes)
    ensures TagsAt(Merged(a, b), key) == TagsAt(a, key) + TagsAt(b, key)
  {
  }

  lemma SameTags(a: EventTags, b: EventTags)
    requires a.Keys == b.Keys && forall key :: TagsAt(a, key) == TagsAt(b, key)
    ensures a == b
  {
    forall key | key in a ensures a[key] == b[key] {
      assert TagsAt(a, key) == TagsAt(b, key);
    }
  }

  lemma AssociatesAt(a: EventTags, b: EventTags, c: EventTags, key: Bytes)
    ensures TagsAt(Merged(Merged(a, b), c), key) == TagsAt(Merged(a, Merged(b, c)), key)
  {
    var x, y, z := TagsAt(a, key), TagsAt(b, key), TagsAt(c, key);
    calc {
      TagsAt(Merged(Merged(a, b), c), key);
      { MergedAt(Merged(a, b), c, key); MergedAt(a, b, key); }
      (x + y) + z;
      x + (y + z);
      { MergedAt(a, Merged(b, c), key); MergedAt(b, c, key); }
      TagsAt(Merged(a, Merged(b, c)), key);
    }
  }

  lemma MergedAssociates(a: EventTags, b: EventTags, c: EventTags)
    ensures Merged(Merged(a, b), c) == Merged(a, Merged(b, c))
  {
    forall key ensures TagsAt(Merged(Merged(a, b), c), key) == TagsAt(Merged(a, Merged(b, c)), key) {
      AssociatesAt(a, b, c, key);
    }
    SameTags(Merged(Merged(a, b), c), Merged(a, Merged(b, c)));
  }

  lemma MergedEmpty(a: EventTags)
    ensures Merged(a, map[]) == a
  {
    forall key | key in a ensures Merged(a, map[])[key] == a[key] {
      assert TagsAt(map[], key) == [];
    }
  }

  /** Merging tags key by key is the same as concatenating the logs. */
  lemma {:induction false} TagsOfConcat(a: seq<Entry>, b: seq<Entry>, unconditional: bool)
    ensures TagsOf(a + b, unconditional) == Merged(TagsOf(a, unconditional), TagsOf(b, unconditional))
  {
    if b == [] {
      assert a + b == a;
      MergedEmpty(TagsOf(a, unconditional));
    } else {
      var init, last := b[..|b| - 1], b[|b| - 1];
      TagsOfConcat(a, init, unconditional);
      assert (a + b)[..|a + b| - 1] == a + init;
      MergedAssociates(TagsOf(a, unconditional), TagsOf(init, unconditional), map[last.key := [last.value]]);
    }
  }

  lemma {:induction false} TagsOfWithout(log: seq<Entry>, unconditional: bool)
    ensures TagsOf(Without(log, unconditional), unconditional) == map[]
    ensures TagsOf(Without(log, unconditional), !unconditional) == TagsOf(log, !unconditional)
  {
    hide Merged;
    if log != [] {
      var init, last := log[..|log| - 1], log[|log| - 1];
      TagsOfWithout(init, unconditional);
      if last.unconditional != unconditional {
        assert (Without(init, unconditional) + [last])[..|Without(init, unconditional)|] ==
            Without(init, unconditional);
      } else {
        assert Without(init, unconditional) + [] == Without(init, unconditional);
      }
    }
  }

  function Limit(maxMessages: nat, r: Snapshot): nat {
    if r.env.tx.Some? && r.env.tx.value.data.consensusMessages > 0
    then r.env.tx.value.data.consensusMessages
    else maxMessages
  }

  function StepRef(maxMessages: nat, op: Op, r: Snapshot): (Snapshot, Option<Resp>) {
    match op
    case StoreGet(key) => (r, Some(Stored(Lookup(r.content, key))))
    case StoreInsert(key, value) =>
      (r.(content := r.content[key := value], touched := r.touched + {key}), Some(Unit))
    case StoreRemove(key) => (r.(content := r.content - {key}, touched := r.touched + {key}), Some(Unit))
    case HasPendingUpdates => (r, Some(Flag(r.touched != {})))
    case EmitEvent(key, event) => (r.(log := r.log + [Entry(false, key, event)]), Some(Unit))
    case EmitUnconditionalEvent(key, event) => (r.(log := r.log + [Entry(true, key, event)]), Some(Unit))
    case TakeEvents => (r.(log := Without(r.log, false)), Some(Tags(TagsOf(r.log, false))))
    case TakeUnconditionalEvents => (r.(log := Without(r.log, true)), Some(Tags(TagsOf(r.log, true))))
    case EmitMessage(message) =>
      if r.below + |r.messages| >= Limit(maxMessages, r) then (r, Some(Flag(false)))
      else (r.(messages := r.messages + [message]), Some(Flag(true)))
    case TakeMessages => (r.(messages := []), Some(Messages(r.messages)))
    case CountMessages => (r, Some(Count(r.below + |r.messages|)))
    case MaxMessages => (r, Some(Count(Limit(maxMessages, r))))
    case BlockGet(name) => (r, Some(Held(Lookup(r.blockValues, name))))
    case BlockSet(name, n) => (r.(blockValues := r.blockValues[name := n]), Some(Unit))
    case BlockTake(name) => (r.(blockValues := r.blockValues - {name}), Some(Held(Lookup(r.blockValues, name))))
    case LocalGet(name) => (r, Some(Held(Lookup(r.localValues, name))))
    case LocalSet(name, n) => (r.(localValues := r.localValues[name := n]), Some(Unit))
    case LocalTake(name) => (r.(localValues := r.localValues - {name}), Some(Held(Lookup(r.localValues, name))))
    case HideValues => if r.level == 0 then (r, None) else (Hide(r), Some(Unit))
    case RngFork(pers) =>
      if !r.rng.valid then (r, Some(Leaf(None)))
      else (r.(rng := r.rng.Append(Fork(pers))), Some(Leaf(Some(r.rng.transcript + [Fork(pers)]))))
    case GetEnv => (r, Some(Env(r.env)))
    case GetOriginEnv => (r, Some(Env(r.origin)))
    case GetLevel => (r, Some(Count(r.level)))
  }

  function Hide(r: Snapshot): Snapshot {
    if r.hidden.Some? then r else r.(hidden := Some(r.blockValues), blockValues := map[])
  }

  /** The copy a transaction starts from. */
  function Copy(r: Snapshot, opts: Option<Options>): Snapshot {
    var c := r.(touched := {}, log := [], messages := [], below := r.below + |r.messages|,
                hidden := None, localValues := map[], level := r.level + 1);
    if opts.None? then c
    else
      var o := opts.value;
      var env := Environment(
        if o.mode.Some? then o.mode.value else r.env.mode,
        if o.tx.Some? then o.tx else r.env.tx,
        if o.internal.Some? then o.internal.value else r.env.internal);
      var noted := Noted(r.rng, o);
      var c := c.(env := env, origin := if env.internal then r.origin else env,
                  rng := if env.mode.PreSchedule? then INVALID_RNG else noted.Append(SubContext));
      if Discards(o) || o.internal == Some(true) then Hide(c) else c
  }

  /** The RNG to put back instead of the one the transaction has been using. */
  function KeptRng(r: Snapshot, opts: Option<Options>): Option<Rng> {
    if opts.Some? && Copy(r, opts).env.mode.PreSchedule? then Some(Noted(r.rng, opts.value)) else None
  }

  /** Back to the copy, or on to the result. Block values and the RNG survive either way, unless
      they were hidden at this level. */
  function Joined(r: Snapshot, c: Snapshot, commit: bool, kept: Option<Rng>): Snapshot {
    var base := if commit
      then r.(content := c.content, touched := r.touched + c.touched, log := r.log + c.log,
              messages := r.messages + c.messages)
      else r;
    base.(blockValues := if c.hidden.Some? then c.hidden.value else c.blockValues,
          rng := if kept.Some? then kept.value else c.rng)
  }

  function Run(rt: Runtime, p: Prog, r: Snapshot, calls: seq<Validator>): (Snapshot, Outcome)
    requires |calls| < 0x1_0000
    decreases 0x1_0000 - |calls|, 1, p, 0
  {
    match p
    case Return(outcome) => (r, outcome)
    case Do(op, k) =>
      var (c, resp) := StepRef(rt.maxMessages, op, r);
      if resp.Some? && resp.value in k then Run(rt, k[resp.value], c, calls) else (c, Unwind)
    case Nest(opts, body, k) =>
      var (c, outcome) := RunNested(rt, opts, body, r, calls);
      if outcome.Unwind? then (c, Unwind)
      else if Returned(outcome.val) in k then Run(rt, k[Returned(outcome.val)], c, calls)
      else (c, Unwind)
    case Sub(info, validator, k) =>
      var (c, resp) := RunSubcall(rt, info, validator, r, calls);
      if resp.Some? && resp.value in k then Run(rt, k[resp.value], c, calls) else (c, Unwind)
  }

  function RunNested(rt: Runtime, opts: Option<Options>, body: Prog, r: Snapshot, calls: seq<Validator>): (Snapshot,
                     Outcome)
    requires |calls| < 0x1_0000
    decreases 0x1_0000 - |calls|, 1, body, 1
  {
    var (c, outcome) := Run(rt, body, Copy(r, opts), calls);
    if outcome.Unwind? then (r, Unwind)
    else (Joined(r, c, outcome.Commit? && !(opts.Some? && Discards(opts.value)), KeptRng(r, opts)), outcome)
  }

  /** The result of a call that has failed: an abort of the whole batch if the error asks for one. */
  function Refused(error: Val): CallResult {
    if error.Abort? then Aborted(error.code) else Failed(error)
  }

  function RunCall(rt: Runtime, call: Call, r: Snapshot, calls: seq<Validator>): (Snapshot, Option<CallResult>)
    requires |calls| < 0x1_0000
    decreases 0x1_0000 - |calls|, 2
  {
    var (r1, o1) := Run(rt, rt.handleCall(call), r, calls);
    if o1.Unwind? then (r1, None)
    else
      var result := if o1.Commit? then Ok(o1.val) else Refused(o1.val);
      var (r2, o2) := Run(rt, rt.afterHandleCall(result), r1, calls);
      match o2
      case Unwind => (r2, None)
      case Rollback(error) => (r2, Some(Refused(error)))
      case Commit(_) =>
        (r2, Some(if call.readOnly && r2.touched != {} then READ_ONLY_VIOLATION else result))
  }

  function RunSubcall(rt: Runtime, info: SubcallInfo, validator: Validator, r: Snapshot,
                      calls: seq<Validator>): (Snapshot, Option<Resp>)
    requires |calls| < 0x1_0000
    decreases 0x1_0000 - |calls|, 0
  {
    if validator(info).Some? then (r, Some(SubcallRejected(validator(info).value)))
    else if |calls| >= info.maxDepth then
      (r, Some(CallDepthExceeded((|calls| + 1) % 0x1_0000, info.maxDepth)))
    else if FirstRejection(calls, info).Some? then (r, Some(SubcallRejected(FirstRejection(calls, info).value)))
    else RunPerformed(rt, info, validator, r, calls)
  }

  function RunPerformed(rt: Runtime, info: SubcallInfo, validator: Validator, r: Snapshot,
                        calls: seq<Validator>): (Snapshot, Option<Resp>)
    requires |calls| < info.maxDepth
    decreases 0x1_0000 - |calls|, 0, 0
  {
    var opts := Some(SubcallOptions(info, Limit(rt.maxMessages, r)));
    var (c, result) := RunCall(rt, info.call, Copy(r, opts), calls + [validator]);
    if result.None? then (r, None)
    else
      var gas := rt.remainingTxGas(c.content, c.blockValues, c.localValues, c.env);
      (Joined(r, c, result.value.Ok?, KeptRng(r, opts)),
       Some(SubcallDone(result.value, if gas <= info.maxGas then info.maxGas - gas else 0)))
  }

  /** `r` is what the state `s` stands for. */
  predicate Stands(s: State, r: Snapshot) {
    && s.Valid() && s.store.value.Valid()
    && s.store.value.View() == r.content && s.store.value.dirty == r.touched
    && s.events == TagsOf(r.log, false) && s.unconditionalEvents == TagsOf(r.log, true)
    && s.messages == r.messages && s.MessageCount() == r.below + |r.messages|
    && s.blockValues == r.blockValues && s.hiddenBlockValues == r.hidden && s.localValues == r.localValues
    && s.rng.value == r.rng && s.env == r.env && s.OriginEnv() == r.origin && s.Level() == r.level
  }

  predicate OnStore(op: Op) {
    op.StoreGet? || op.StoreInsert? || op.StoreRemove? || op.HasPendingUpdates?
  }

  predicate OnEvents(op: Op) {
    op.EmitEvent? || op.EmitUnconditionalEvent? || op.TakeEvents? || op.TakeUnconditionalEvents?
  }

  /** Every single operation gives the same response and keeps the correspondence. */
  lemma StepRefines(maxMessages: nat, op: Op, s: State, r: Snapshot)
    requires Stands(s, r)
    ensures Step(maxMessages, op, s).1 == StepRef(maxMessages, op, r).1
    ensures Stands(Step(maxMessages, op, s).0, StepRef(maxMessages, op, r).0)
  {
    hide TagsOf, Merged, Store.View;
    if OnStore(op) {
      StoreStepRefines(maxMessages, op, s, r);
    } else if OnEvents(op) {
      EventStepRefines(maxMessages, op, s, r);
    }
  }

  lemma StoreStepRefines(maxMessages: nat, op: Op, s: State, r: Snapshot)
    requires Stands(s, r) && OnStore(op)
    ensures Step(maxMessages, op, s).1 == StepRef(maxMessages, op, r).1
    ensures Stands(Step(maxMessages, op, s).0, StepRef(maxMessages, op, r).0)
  {
    if op.StoreGet? {
      GetReadsView(s.store.value, op.key);
    } else if op.StoreInsert? || op.StoreRemove? {
      UpdatesChangeView(s.store.value, op.key, if op.StoreInsert? then op.value else Raw([]));
    }
  }

  lemma EventStepRefines(maxMessages: nat, op: Op, s: State, r: Snapshot)
    requires Stands(s, r) && OnEvents(op)
    ensures Step(maxMessages, op, s).1 == StepRef(maxMessages, op, r).1
    ensures Stands(Step(maxMessages, op, s).0, StepRef(maxMessages, op, r).0)
  {
    hide Merged, TagsOf, Without;
    match op
    case EmitEvent(key, event) => LogGrows(r.log, Entry(false, key, event));
    case EmitUnconditionalEvent(key, event) => LogGrows(r.log, Entry(true, key, event));
    case TakeEvents => TagsOfWithout(r.log, false);
    case TakeUnconditionalEvents => TagsOfWithout(r.log, true);
  }

  lemma LogGrows(log: seq<Entry>, e: Entry)
    ensures TagsOf(log + [e], e.unconditional) == Merged(TagsOf(log, e.unconditional), map[e.key := [e.value]])
    ensures TagsOf(log + [e], !e.unconditional) == TagsOf(log, !e.unconditional)
  {
    assert (log + [e])[..|log|] == log;
  }

  /** Opening moves the state's belongings up; to the interpreter it is a copy. */
  lemma EnterRefines(s: State, r: Snapshot, opts: Option<Options>)
    requires Stands(s, r)
    ensures Stands(Entered(s, opts), Copy(r, opts))
    ensures Entered(s, opts).hiddenRng == KeptRng(r, opts)
    ensures Entered(s, opts).alwaysRollback == (opts.Some? && Discards(opts.value))
  {
    EnteredBelow(s, opts);
    if opts.Some? {
      EnteredEnvironment(s, opts.value);
      OptionsRefine(s, r, opts.value);
    }
  }

  /** What the child state sees of the states and stores below it. */
  lemma EnteredBelow(s: State, opts: Option<Options>)
    requires s.Valid() && s.store.value.Valid()
    ensures var t := Entered(s, opts);
            && t.store.value.Valid() && t.store.value.View() == s.store.value.View() && t.store.value.dirty == {}
            && t.events == map[] && t.unconditionalEvents == map[] && t.messages == [] && t.localValues == map[]
            && t.MessageCount() == s.MessageCount()
            && t.OriginEnv() == (if t.env.internal then s.OriginEnv() else t.env)
  {
    EnteredChild(s, opts);
    var p := s.(store := None, blockValues := map[], rng := None);
    assert p.MessageCount() == s.MessageCount() && p.OriginEnv() == s.OriginEnv();
    assert Overlay(s.store.value, map[], {}).View() == s.store.value.View();
  }

  lemma OptionsRefine(s: State, r: Snapshot, o: Options)
    requires s.Valid() && s.rng.value == r.rng && s.env == r.env && s.blockValues == r.blockValues
    ensures var t, c := Entered(s, Some(o)), Copy(r, Some(o));
            && t.env == c.env && t.rng == Some(c.rng) && t.hiddenRng == KeptRng(r, Some(o))
            && t.blockValues == c.blockValues && t.hiddenBlockValues == c.hidden
  {
    EnteredEnvironment(s, o);
  }

  /** Closing either way is joining the copy back. */
  lemma LeaveRefines(s: State, r: Snapshot, opts: Option<Options>, t: State, c: Snapshot, outcome: Outcome)
    requires Stands(s, r) && Stands(t, c) && SameFrame(Entered(s, opts), t) && !outcome.Unwind?
    ensures t.parent.Some?
    ensures Stands(Left(t, outcome, Guard(opts, Entered(s, opts))),
                   Joined(r, c, outcome.Commit? && !(opts.Some? && Discards(opts.value)), KeptRng(r, opts)))
  {
    hide TagsOf, Merged, Copy, Entered;
    EnteredChild(s, opts);
    EnterRefines(s, r, opts);
    ClosedIsValid(t);
    CommitKeepsView(t.store.value);
    TagsOfConcat(r.log, c.log, false);
    TagsOfConcat(r.log, c.log, true);
  }

  /** Refinement: for every program, started anywhere in a run, the block state gives the same
      outcome and afterwards stands for exactly what the simple interpreter computes. */
  lemma {:induction false} RunRefines(rt: Runtime, p: Prog, m: Machine, r: Snapshot)
    requires m.Valid() && Stands(m.state, r)
    ensures var (n, outcome) := Exec(rt, p, m);
            var (c, outcome') := Run(rt, p, r, m.calls);
            outcome == outcome' && (!outcome.Unwind? ==> Stands(n.state, c))
    decreases 0x1_0000 - |m.calls|, 1, p, 0
  {
    match p
    case Return(_) =>
    case Do(op, k) =>
      StepRefines(rt.maxMessages, op, m.state, r);
      var (s, resp) := Step(rt.maxMessages, op, m.state);
      if resp.Some? && resp.value in k {
        RunRefines(rt, k[resp.value], m.(state := s), StepRef(rt.maxMessages, op, r).0);
      }
    case Nest(opts, body, k) =>
      NestRefines(rt, opts, body, m, r);
      var (n, outcome) := Transact(rt, opts, body, m);
      if !outcome.Unwind? && Returned(outcome.val) in k {
        RunRefines(rt, k[Returned(outcome.val)], n, RunNested(rt, opts, body, r, m.calls).0);
      }
    case Sub(info, validator, k) =>
      SubcallRefines(rt, info, validator, m, r);
      var (n, resp) := Subcall(rt, info, validator, m);
      if resp.Some? && resp.value in k {
        RunRefines(rt, k[resp.value], n, RunSubcall(rt, info, validator, r, m.calls).0);
      }
  }

  lemma {:induction false} NestRefines(rt: Runtime, opts: Option<Options>, body: Prog, m: Machine, r: Snapshot)
    requires m.Valid() && Stands(m.state, r)
    ensures var (n, outcome) := Transact(rt, opts, body, m);
            var (c, outcome') := RunNested(rt, opts, body, r, m.calls);
            outcome == outcome' && (!outcome.Unwind? ==> Stands(n.state, c))
    decreases 0x1_0000 - |m.calls|, 1, body, 1
  {
    var t := Entered(m.state, opts);
    EnterRefines(m.state, r, opts);
    RunRefines(rt, body, m.(state := t), Copy(r, opts));
    var (n, outcome) := Exec(rt, body, m.(state := t));
    if !outcome.Unwind? {
      LeaveRefines(m.state, r, opts, n.state, Run(rt, body, Copy(r, opts), m.calls).0, outcome);
    }
  }

  lemma {:induction false} CallRefines(rt: Runtime, call: Call, m: Machine, r: Snapshot)
    requires m.Valid() && Stands(m.state, r)
    ensures var (n, result) := DispatchCall(rt, call, m);
            var (c, result') := RunCall(rt, call, r, m.calls);
            result == result' && (result.Some? ==> Stands(n.state, c))
    decreases 0x1_0000 - |m.calls|, 2
  {
    RunRefines(rt, rt.handleCall(call), m, r);
    var (m1, o1) := Exec(rt, rt.handleCall(call), m);
    if !o1.Unwind? {
      RunRefines(rt, rt.afterHandleCall(ToCallResult(o1)), m1, Run(rt, rt.handleCall(call), r, m.calls).0);
    }
  }

  lemma {:induction false} SubcallRefines(rt: Runtime, info: SubcallInfo, validator: Validator, m: Machine, r: Snapshot)
    requires m.Valid() && Stands(m.state, r)
    ensures var (n, resp) := Subcall(rt, info, validator, m);
            var (c, resp') := RunSubcall(rt, info, validator, r, m.calls);
            resp == resp' && (resp.Some? ==> Stands(n.state, c))
    decreases 0x1_0000 - |m.calls|, 0
  {
    if validator(info).None? && Depth(m.calls) < info.maxDepth && FirstRejection(m.calls, info).None? {
      PerformedRefines(rt, info, validator, m, r);
    }
  }

  lemma {:induction false} PerformedRefines(rt: Runtime, info: SubcallInfo, validator: Validator, m: Machine,
                                            r: Snapshot)
    requires m.Valid() && Stands(m.state, r) && |m.calls| < info.maxDepth
    ensures var (n, resp) := Performed(rt, info, validator, m);
            var (c, resp') := RunPerformed(rt, info, validator, r, m.calls);
            resp == resp' && (resp.Some? ==> Stands(n.state, c))
    decreases 0x1_0000 - |m.calls|, 0, 0
  {
    hide DispatchCall, RunCall;
    var opts := Some(SubcallOptions(info, m.state.MessageMax(rt.maxMessages)));
    var t := Entered(m.state, opts);
    EnterRefines(m.state, r, opts);
    CallRefines(rt, info.call, Machine(t, m.calls + [validator]), Copy(r, opts));
    var (n, result) := DispatchCall(rt, info.call, Machine(t, m.calls + [validator]));
    if result.Some? {
      var c := RunCall(rt, info.call, Copy(r, opts), m.calls + [validator]).0;
      LeaveRefines(m.state, r, opts, n.state, c, CallOutcome(result));
    }
  }

  /** The interpreter's starting point stands for a freshly entered root state. */
  function RootSnapshot(content: Content, mode: Mode): Snapshot {
    var env := Environment(mode, None, false);
    Snapshot(content, {}, [], [], 0, map[], None, map[], Rng(true, mode, [SubContext]), env, env, 0)
  }

  lemma RootStands(content: Content, mode: Mode)
    requires mode.Execute? || mode.Check?
    ensures Stands(Root(content, mode), RootSnapshot(content, mode))
  {
    assert Rng(true, mode, []).Append(SubContext).transcript == [SubContext];
  }
}
