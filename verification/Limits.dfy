/** Resource limits over whole scheduling runs and whole blocks: consensus message slots and batch gas. */
module Limits {
  import opened Basics
  import opened Storage
  import opened BlockState
  import opened Programs
  import opened Observations
  import opened Dispatching
  import opened Batches
  import opened Blocks

  /** No program of the runtime opens a transaction that claims more slots than a block has. */
  ghost predicate DispatcherClaims(d: Dispatcher) {
    var cap := d.rt.maxMessages;
    && RuntimeClaims(d.rt)
    && (forall tx :: Claims(d.authenticate(tx), cap))
    && (forall tx, result :: Claims(d.afterDispatch(tx, result), cap))
  }

  ghost function ObservedRunTx(d: Dispatcher, meta: TxMeta, m: Machine): seq<Obs>
    requires m.Valid()
  {
    ObservedCall(d.rt, meta.data.call, m.(state := Entered(m.state, Some(TxOptions(meta)))))
  }

  /** All observations while a transaction is dispatched. */
  ghost function ObservedTx(d: Dispatcher, meta: TxMeta, skipAuthentication: bool, m: Machine): seq<Obs>
    requires m.Valid()
  {
    var (m1, auth) := if skipAuthentication then (m, Commit(Num(0))) else Exec(d.rt, d.authenticate(meta.data), m);
    var before := if skipAuthentication then [] else Observed(d.rt, d.authenticate(meta.data), m);
    if !auth.Commit? then before
    else
      var (m2, result) := RunTx(d, meta, m1);
      before + ObservedRunTx(d, meta, m1) +
      if result.None? then [] else Observed(d.rt, d.afterDispatch(meta.data, result.value.result), m2)
  }

  lemma ConcludedKeeps(s: State, call: Call, result: CallResult)
    requires s.Valid()
    ensures var t := Concluded(s, call, result).0; t.parent == s.parent && t.messages == s.messages && t.env == s.env
  {
  }

  lemma RunTxIsFine(d: Dispatcher, meta: TxMeta, m: Machine)
    requires m.Valid() && DispatcherClaims(d) && Bounded(d.rt, m.state)
    requires meta.data.consensusMessages <= d.rt.maxMessages
    ensures AllFine(d.rt, ObservedRunTx(d, meta, m))
    ensures RunTx(d, meta, m).1.Some? ==> Bounded(d.rt, RunTx(d, meta, m).0.state)
  {
    hide DispatchCall, Entered, Concluded, Claims, RuntimeClaims;
    var opts := Some(TxOptions(meta));
    var t := Entered(m.state, opts);
    EnteredLimit(d.rt, m.state, opts);
    NestingKeepsCount(m.state, opts, t, Unwind);
    CallIsFine(d.rt, meta.data.call, m.(state := t));
    var (n, result) := DispatchCall(d.rt, meta.data.call, m.(state := t));
    if result.Some? {
      var (s, tags, outcome) := Concluded(n.state, meta.data.call, result.value);
      assert s.parent == n.state.parent && s.messages == n.state.messages && s.env == n.state.env by {
        ConcludedKeeps(n.state, meta.data.call, result.value);
      }
      StillFramed(m.(state := t), n, s);
      LeftIsFramed(m, opts, n.(state := s), outcome);
      NestingKeepsCount(m.state, opts, s, outcome);
    }
  }

  lemma DispatchIsFine(d: Dispatcher, meta: TxMeta, skipAuthentication: bool, m: Machine)
    requires m.Valid() && DispatcherClaims(d) && Bounded(d.rt, m.state)
    requires meta.data.consensusMessages <= d.rt.maxMessages
    ensures AllFine(d.rt, ObservedTx(d, meta, skipAuthentication, m))
    ensures var (n, ending) := DispatchTx(d, meta, skipAuthentication, m);
            !ending.Panicked? ==> Bounded(d.rt, n.state)
  {
    hide Exec, Observed, RunTx, ObservedRunTx;
    if !skipAuthentication {
      RunsAreFine(d.rt, d.authenticate(meta.data), m);
    }
    var (m1, auth) := if skipAuthentication then (m, Commit(Num(0))) else Exec(d.rt, d.authenticate(meta.data), m);
    if auth.Commit? {
      RunTxIsFine(d, meta, m1);
      var (m2, result) := RunTx(d, meta, m1);
      if result.Some? {
        RunsAreFine(d.rt, d.afterDispatch(meta.data, result.value.result), m2);
      }
    }
  }

  /** All observations of the pre-schedule check. */
  ghost function ObservedCheck(d: Dispatcher, meta: TxMeta, m: Machine): seq<Obs>
    requires m.Valid()
  {
    var t := m.(state := Entered(m.state, Some(PRE_SCHEDULE)));
    var (m1, auth) := Exec(d.rt, d.authenticate(meta.data), t);
    Observed(d.rt, d.authenticate(meta.data), t) + if auth.Commit? then ObservedTx(d, meta, true, m1) else []
  }

  lemma CheckIsFine(d: Dispatcher, meta: TxMeta, m: Machine)
    requires m.Valid() && DispatcherClaims(d) && Bounded(d.rt, m.state)
    requires meta.data.consensusMessages <= d.rt.maxMessages
    ensures AllFine(d.rt, ObservedCheck(d, meta, m))
  {
    hide Exec, Observed, ObservedTx;
    var opts := Some(PRE_SCHEDULE);
    var t := m.(state := Entered(m.state, opts));
    EnteredLimit(d.rt, m.state, opts);
    NestingKeepsCount(m.state, opts, t.state, Unwind);
    RunsAreFine(d.rt, d.authenticate(meta.data), t);
    var (m1, auth) := Exec(d.rt, d.authenticate(meta.data), t);
    if auth.Commit? {
      DispatchIsFine(d, meta, true, m1);
    }
  }

  /** All observations while a transaction is considered. */
  ghost function ObservedConsider(d: Dispatcher, cfg: Config, st: Sched, raw: Bytes): seq<Obs>
    requires st.m.Valid()
  {
    match Screened(d, cfg, st, raw)
    case Fits(item) =>
      var meta := Meta(d, item, |st.batch|);
      var (m1, verdict) := PreScheduled(d, meta, st.m);
      ObservedCheck(d, meta, st.m) + if verdict.Accept? then ObservedTx(d, meta, false, m1) else []
    case _ => []
  }

  lemma ConsiderIsFine(d: Dispatcher, cfg: Config, st: Sched, raw: Bytes)
    requires st.m.Valid() && st.status.Going? && Bounded(d.rt, st.m.state)
    requires DispatcherClaims(d) && d.rt.maxMessages < U32
    ensures AllFine(d.rt, ObservedConsider(d, cfg, st, raw))
    ensures Live(Consider(d, cfg, st, raw)) ==> Bounded(d.rt, Consider(d, cfg, st, raw).m.state)
  {
    hide PreScheduled, DispatchTx, ObservedCheck, ObservedTx, DispatcherClaims, AllFine;
    match Screened(d, cfg, st, raw)
    case Fits(item) =>
      var meta := Meta(d, item, |st.batch|);
      CheckIsFine(d, meta, st.m);
      if !PreScheduled(d, meta, st.m).1.Panic? {
        PreScheduleIsInvisible(d, meta, st.m);
        DispatchIsFine(d, meta, false, st.m);
        FineTogether(d.rt, ObservedCheck(d, meta, st.m), ObservedTx(d, meta, false, st.m));
      }
      FineTogether(d.rt, ObservedCheck(d, meta, st.m), []);
    case _ => FineTogether(d.rt, [], []);
  }

  lemma FineTogether(rt: Runtime, a: seq<Obs>, b: seq<Obs>)
    ensures AllFine(rt, a) && AllFine(rt, b) ==> AllFine(rt, a + b)
    ensures a == [] ==> AllFine(rt, a)
    ensures a + [] == a
  {
  }

  ghost function ObservedDrain(d: Dispatcher, cfg: Config, st: Sched, batch: seq<Bytes>): seq<Obs>
    requires st.m.Valid()
    decreases |batch|
  {
    if batch == [] || !st.status.Going? then []
    else ObservedConsider(d, cfg, st, batch[0]) + ObservedDrain(d, cfg, Consider(d, cfg, st, batch[0]), batch[1..])
  }

  /** All observations of a scheduling run. */
  ghost function ObservedSchedule(d: Dispatcher, cfg: Config, st: Sched, batch: seq<Bytes>, requested: nat,
                                  answers: seq<Fetched>): seq<Obs>
    requires st.m.Valid()
    decreases |answers|
  {
    var st1 := Drained(d, cfg, st, batch);
    ObservedDrain(d, cfg, st, batch) +
    if st1.status.Going? && batch != [] && |batch| >= requested && answers != [] && answers[0].More?
    then ObservedSchedule(d, cfg, st1, answers[0].batch, cfg.batchSize, answers[1..])
    else []
  }

  lemma {:induction false} DrainIsFine(d: Dispatcher, cfg: Config, st: Sched, batch: seq<Bytes>)
    requires st.m.Valid() && DispatcherClaims(d) && d.rt.maxMessages < U32
    requires Live(st) ==> Bounded(d.rt, st.m.state)
    ensures AllFine(d.rt, ObservedDrain(d, cfg, st, batch))
    ensures Live(Drained(d, cfg, st, batch)) ==> Bounded(d.rt, Drained(d, cfg, st, batch).m.state)
    decreases |batch|
  {
    hide Consider, ObservedConsider, DispatcherClaims;
    if batch != [] && st.status.Going? {
      ConsiderIsFine(d, cfg, st, batch[0]);
      DrainIsFine(d, cfg, Consider(d, cfg, st, batch[0]), batch[1..]);
    } else if batch != [] && st.status.Full? {
      DrainIsFine(d, cfg, st.Fated(batch[0], LeftInQueue), batch[1..]);
    }
  }

  /** Throughout any scheduling run, pre-schedule checks included, the messages counted over the whole
      state stack never exceed the block's maximum, and the subcalls are as they should be. */
  lemma {:induction false} ScheduleIsFine(d: Dispatcher, cfg: Config, st: Sched, batch: seq<Bytes>, requested: nat,
                                          answers: seq<Fetched>)
    requires st.m.Valid() && DispatcherClaims(d) && d.rt.maxMessages < U32
    requires Live(st) ==> Bounded(d.rt, st.m.state)
    ensures AllFine(d.rt, ObservedSchedule(d, cfg, st, batch, requested, answers))
    ensures var r := Scheduled(d, cfg, st, batch, requested, answers); Live(r) ==> Bounded(d.rt, r.m.state)
    decreases |answers|
  {
    hide Drained, ObservedDrain, DispatcherClaims;
    DrainIsFine(d, cfg, st, batch);
    var st1 := Drained(d, cfg, st, batch);
    if answers != [] && answers[0].More? {
      ScheduleIsFine(d, cfg, st1, answers[0].batch, cfg.batchSize, answers[1..]);
    }
  }

  /** The batch gas in use is within the limit. */
  predicate Solvent(d: Dispatcher, m: Machine)
    requires m.Valid()
  {
    d.usedBatchGas(m.state.blockValues) <= d.maxBatchGas(m.Content())
  }

  /** Executing a transaction uses at most the gas it paid for and does not lower the limit. */
  ghost predicate GasHonest(d: Dispatcher) {
    forall item: Decoded, index: nat, m: Machine | m.Valid() ::
      var n := ExecuteTx(d, item, index, m).0;
      && d.usedBatchGas(n.state.blockValues) <= d.usedBatchGas(m.state.blockValues) + item.tx.gas
      && d.maxBatchGas(m.Content()) <= d.maxBatchGas(n.Content())
  }

  lemma ConsiderStaysSolvent(d: Dispatcher, cfg: Config, st: Sched, raw: Bytes)
    requires st.m.Valid() && st.status.Going? && GasHonest(d) && Solvent(d, st.m)
    ensures Live(Consider(d, cfg, st, raw)) ==> Solvent(d, Consider(d, cfg, st, raw).m)
  {
    hide PreScheduled, ExecuteTx;
    match Screened(d, cfg, st, raw)
    case Fits(item) =>
      var meta := Meta(d, item, |st.batch|);
      if !PreScheduled(d, meta, st.m).1.Panic? {
        PreScheduleIsInvisible(d, meta, st.m);
        var n := ExecuteTx(d, item, |st.batch|, st.m).0;
        assert Solvent(d, n);
      }
    case _ =>
  }

  lemma {:induction false} DrainStaysSolvent(d: Dispatcher, cfg: Config, st: Sched, batch: seq<Bytes>)
    requires st.m.Valid() && GasHonest(d) && (Live(st) ==> Solvent(d, st.m))
    ensures Live(Drained(d, cfg, st, batch)) ==> Solvent(d, Drained(d, cfg, st, batch).m)
    decreases |batch|
  {
    hide Consider, GasHonest;
    if batch != [] && st.status.Going? {
      ConsiderStaysSolvent(d, cfg, st, batch[0]);
      DrainStaysSolvent(d, cfg, Consider(d, cfg, st, batch[0]), batch[1..]);
    } else if batch != [] && st.status.Full? {
      DrainStaysSolvent(d, cfg, st.Fated(batch[0], LeftInQueue), batch[1..]);
    }
  }

  /** If transactions use at most the gas they paid for, the batch is never overdrawn. */
  lemma {:induction false} ScheduleStaysSolvent(d: Dispatcher, cfg: Config, st: Sched, batch: seq<Bytes>,
                                                requested: nat,
                                                answers: seq<Fetched>)
    requires st.m.Valid() && GasHonest(d) && (Live(st) ==> Solvent(d, st.m))
    ensures var r := Scheduled(d, cfg, st, batch, requested, answers); Live(r) ==> Solvent(d, r.m)
    decreases |answers|
  {
    hide Drained, GasHonest;
    DrainStaysSolvent(d, cfg, st, batch);
    if answers != [] && answers[0].More? {
      ScheduleStaysSolvent(d, cfg, Drained(d, cfg, st, batch), answers[0].batch, cfg.batchSize, answers[1..]);
    }
  }

  /** No program that runs in a block opens a transaction that claims more slots than a block has. */
  ghost predicate BlockClaims(d: Dispatcher) {
    var cap := d.rt.maxMessages;
    && DispatcherClaims(d)
    && Claims(d.migrate, cap) && Claims(d.beginBlock, cap) && Claims(d.endBlock, cap)
    && (forall hook, event :: d.onMessage(hook, event).Some? ==> Claims(d.onMessage(hook, event).value, cap))
  }

  /** All observations while last round's results are handled. */
  ghost function ObservedHandled(d: Dispatcher, events: seq<MessageEvent>, handlers: HandlerMap, m: Machine): seq<Obs>
    requires m.Valid()
    decreases |events|
  {
    if events == [] || events[0].index !in handlers then []
    else
      var prog := d.onMessage(handlers[events[0].index], events[0]);
      if prog.None? then []
      else
        var (n, outcome) := Exec(d.rt, prog.value, m);
        Observed(d.rt, prog.value, m) +
        if outcome.Unwind? then [] else ObservedHandled(d, events[1..], handlers - {events[0].index}, n)
  }

  lemma {:induction false} HandledIsFine(d: Dispatcher, events: seq<MessageEvent>, handlers: HandlerMap, m: Machine)
    requires m.Valid() && BlockClaims(d) && Bounded(d.rt, m.state)
    ensures AllFine(d.rt, ObservedHandled(d, events, handlers, m))
    ensures var (n, ending) := Handled(d, events, handlers, m); !ending.Panicked? ==> Bounded(d.rt, n.state)
    decreases |events|
  {
    hide Exec, Observed;
    if events != [] && events[0].index in handlers {
      var prog := d.onMessage(handlers[events[0].index], events[0]);
      if prog.Some? {
        RunsAreFine(d.rt, prog.value, m);
        var (n, outcome) := Exec(d.rt, prog.value, m);
        if !outcome.Unwind? {
          HandledIsFine(d, events[1..], handlers - {events[0].index}, n);
        }
      }
    }
  }

  /** The handlers that last round's results are matched with, unless the store holds something else. */
  function SavedHandlers(content: Content): Option<HandlerMap> {
    var stored: Option<Value> := Lookup(content, MESSAGE_HANDLERS);
    if stored.None? then Some(map[])
    else if stored.value.Handlers? then Some(stored.value.hooks)
    else None
  }

  /** All observations before the batch. */
  ghost function ObservedBegun(d: Dispatcher, root: Content, events: seq<MessageEvent>): seq<Obs> {
    var m := Machine(Root(root, Execute), []);
    var (m1, migrated) := Exec(d.rt, d.migrate, m);
    Observed(d.rt, d.migrate, m) +
    if migrated.Unwind? then []
    else
      var handlers := SavedHandlers(m1.Content());
      if handlers.None? then []
      else
        var (m2, handled) := Handled(d, events, handlers.value, m1);
        ObservedHandled(d, events, handlers.value, m1) +
        if handled.Success? then Observed(d.rt, d.beginBlock, m2) else []
  }

  lemma RootIsBounded(d: Dispatcher, root: Content)
    requires DispatcherClaims(d)
    ensures Bounded(d.rt, Root(root, Execute)) && RuntimeClaims(d.rt)
  {
  }

  lemma BegunIsFine(d: Dispatcher, root: Content, events: seq<MessageEvent>)
    requires BlockClaims(d)
    ensures AllFine(d.rt, ObservedBegun(d, root, events))
    ensures var (m, begun) := Begun(d, root, events); begun.Success? ==> Bounded(d.rt, m.state)
  {
    hide Exec, Observed, Handled, ObservedHandled, Bounded, DispatcherClaims, Root;
    var m := Machine(Root(root, Execute), []);
    assert Bounded(d.rt, m.state) && RuntimeClaims(d.rt) by { RootIsBounded(d, root); }
    RunsAreFine(d.rt, d.migrate, m);
    var (m1, migrated) := Exec(d.rt, d.migrate, m);
    if !migrated.Unwind? {
      var handlers := SavedHandlers(m1.Content());
      if handlers.Some? {
        HandledIsFine(d, events, handlers.value, m1);
        var (m2, handled) := Handled(d, events, handlers.value, m1);
        if handled.Success? {
          RunsAreFine(d.rt, d.beginBlock, m2);
        }
      }
    }
  }

  /** All observations while decoded transactions are executed in order. */
  ghost function ObservedExecuteAll(d: Dispatcher, items: seq<Decoded>, m: Machine): seq<Obs>
    requires m.Valid()
  {
    if items == [] then []
    else
      var last := |items| - 1;
      var (n, results) := ExecuteAll(d, items[..last], m);
      ObservedExecuteAll(d, items[..last], m) +
      if results.Success? then ObservedTx(d, Meta(d, items[last], last), false, n) else []
  }

  /** No transaction claims more slots than `cap`. */
  predicate ClaimAtMost(items: seq<Decoded>, cap: nat) {
    forall i | 0 <= i < |items| :: items[i].tx.consensusMessages <= cap
  }

  lemma {:induction false} ExecuteAllIsFine(d: Dispatcher, items: seq<Decoded>, m: Machine)
    requires m.Valid() && DispatcherClaims(d) && Bounded(d.rt, m.state) && ClaimAtMost(items, d.rt.maxMessages)
    ensures AllFine(d.rt, ObservedExecuteAll(d, items, m))
    ensures var (n, results) := ExecuteAll(d, items, m); !results.Panicked? ==> Bounded(d.rt, n.state)
  {
    hide DispatchTx, ObservedTx, DispatcherClaims, Bounded;
    if items != [] {
      var last := |items| - 1;
      ExecuteAllIsFine(d, items[..last], m);
      var (n, results) := ExecuteAll(d, items[..last], m);
      if results.Success? {
        DispatchIsFine(d, Meta(d, items[last], last), false, n);
      }
    }
  }

  /** All observations of a proposer's block. */
  ghost function ObservedProposal(d: Dispatcher, cfg: Config, root: Content, events: seq<MessageEvent>,
                                  batch: seq<Bytes>,
                                  answers: seq<Fetched>): seq<Obs> {
    var (m, begun) := Begun(d, root, events);
    ObservedBegun(d, root, events) +
    if !begun.Success? then []
    else
      var st := Scheduled(d, cfg, Fresh(m), batch, cfg.initialBatchSize, answers);
      ObservedSchedule(d, cfg, Fresh(m), batch, cfg.initialBatchSize, answers) +
      if Live(st) then Observed(d.rt, d.endBlock, st.m) else []
  }

  /** All observations of a validator's block. */
  ghost function ObservedValidation(d: Dispatcher, root: Content, events: seq<MessageEvent>,
                                    batch: seq<Bytes>): seq<Obs> {
    var (m, begun) := Begun(d, root, events);
    ObservedBegun(d, root, events) +
    if !begun.Success? then []
    else
      var decoded := DecodeAll(d, m.Content(), batch);
      if !decoded.Success? then []
      else
        var (n, results) := ExecuteAll(d, decoded.value, m);
        ObservedExecuteAll(d, decoded.value, m) +
        if results.Success? then Observed(d.rt, d.endBlock, n) else []
  }

  /** At no point of a proposer's block, from its migrations to its end, do the messages over the whole
      stack exceed the maximum, and all subcalls are as they should be. */
  lemma ProposalIsFine(d: Dispatcher, cfg: Config, root: Content, events: seq<MessageEvent>, batch: seq<Bytes>,
                       answers: seq<Fetched>)
    requires BlockClaims(d) && d.rt.maxMessages < U32
    ensures AllFine(d.rt, ObservedProposal(d, cfg, root, events, batch, answers))
  {
    hide Begun, ObservedBegun, Scheduled, ObservedSchedule, Exec, Observed, Bounded, DispatcherClaims;
    BegunIsFine(d, root, events);
    var (m, begun) := Begun(d, root, events);
    if begun.Success? {
      ScheduleIsFine(d, cfg, Fresh(m), batch, cfg.initialBatchSize, answers);
      var st := Scheduled(d, cfg, Fresh(m), batch, cfg.initialBatchSize, answers);
      if Live(st) {
        assert RuntimeClaims(d.rt) by { RootIsBounded(d, root); }
        RunsAreFine(d.rt, d.endBlock, st.m);
      }
    }
  }

  /** The same of a validator's block, if no transaction that it executes claims more slots than a
      block has: unlike the proposer's, its dispatcher does not look at the claims and leaves it to the
      modules to refuse such a transaction. */
  lemma ValidationIsFine(d: Dispatcher, root: Content, events: seq<MessageEvent>, batch: seq<Bytes>)
    requires BlockClaims(d)
    requires ClaimAtMost(ExecuteBatch(d, root, events, batch).1, d.rt.maxMessages)
    ensures AllFine(d.rt, ObservedValidation(d, root, events, batch))
  {
    hide Begun, ObservedBegun, ExecuteAll, ObservedExecuteAll, Exec, Observed, Bounded, DispatcherClaims, DecodeAll;
    BegunIsFine(d, root, events);
    var (m, begun) := Begun(d, root, events);
    if begun.Success? {
      var decoded := DecodeAll(d, m.Content(), batch);
      if decoded.Success? {
        ExecuteAllIsFine(d, decoded.value, m);
        var (n, results) := ExecuteAll(d, decoded.value, m);
        if results.Success? {
          assert RuntimeClaims(d.rt) by { RootIsBounded(d, root); }
          RunsAreFine(d.rt, d.endBlock, n);
        }
      }
    }
  }

  const DONE := Return(Commit(Num(0)))

  /** A runtime whose only transaction claims one slot more than a block has, and uses it. */
  function Overfilling(max: nat): Dispatcher {
    Dispatcher(
      Runtime(max, (call: Call) => Emitting(max + 1), (result: CallResult) => DONE, (c, b, l, e) => 0),
      DONE, DONE, DONE, (tx: Tx) => DONE, (tx: Tx, result: CallResult) => DONE,
      (hook: Hook, event: MessageEvent) => None,
      (content: Content, raw: Bytes) => Some(Tx(Call("", [], false), [], 0, max + 1)),
      (raw: Bytes) => raw, (content: Content) => 0, (values: Values) => 0, false, (tx: Tx) => true)
  }

  lemma OverfillingClaims(max: nat)
    ensures BlockClaims(Overfilling(max))
  {
    var d := Overfilling(max);
    assert Claims(DONE, max);
    forall call ensures Claims(d.rt.handleCall(call), max) {
      EmittingClaims(max + 1, max);
    }
  }

  lemma OverfillingBegins(max: nat)
    ensures Begun(Overfilling(max), map[], []) == (Machine(Root(map[], Execute), []), Success(()))
  {
  }

  lemma OverfillingIsObserved(max: nat, item: Decoded)
    requires item.tx == Tx(Call("", [], false), [], 0, max + 1)
    ensures Emitted(max + 1) in ObservedExecuteAll(Overfilling(max), [item], Machine(Root(map[], Execute), []))
  {
    hide Emitting, Observed, Entered;
    var d, m := Overfilling(max), Machine(Root(map[], Execute), []);
    assert Exec(d.rt, DONE, m) == (m, Commit(Num(0)));
    var meta := Meta(d, item, 0);
    var t := Entered(m.state, Some(TxOptions(meta)));
    EnteredLimit(d.rt, m.state, Some(TxOptions(meta)));
    NestingKeepsCount(m.state, Some(TxOptions(meta)), t, Unwind);
    EmittingCounts(d.rt, max + 1, m.(state := t));
    assert Emitted(max + 1) in ObservedRunTx(d, meta, m);
    assert Emitted(max + 1) in ObservedTx(d, meta, false, m);
    assert [item][..0] == [];
  }

  /** The condition on the batch is exact: validators of all runtimes stay within the bound on
      transactions that claim at most `cap` slots exactly if a block has that many. */
  lemma ValidatorClaimsAreExact(max: nat, cap: nat)
    ensures (forall d: Dispatcher, root, events, batch |
               d.rt.maxMessages == max && BlockClaims(d) && ClaimAtMost(ExecuteBatch(d, root, events, batch).1, cap) ::
               AllFine(d.rt, ObservedValidation(d, root, events, batch))) <==> cap <= max
  {
    hide BlockClaims, ObservedValidation, ExecuteBatch;
    if cap <= max {
      forall d: Dispatcher, root, events, batch |
        d.rt.maxMessages == max && BlockClaims(d) && ClaimAtMost(ExecuteBatch(d, root, events, batch).1, cap)
        ensures AllFine(d.rt, ObservedValidation(d, root, events, batch))
      {
        ValidationIsFine(d, root, events, batch);
      }
    } else {
      OverfillingClaims(max);
      OverfillingFails(max);
    }
  }

  lemma OverfillingFails(max: nat)
    ensures ClaimAtMost(ExecuteBatch(Overfilling(max), map[], [], [[]]).1, max + 1)
    ensures !AllFine(Overfilling(max).rt, ObservedValidation(Overfilling(max), map[], [], [[]]))
  {
    hide Begun, ExecuteAll, ObservedExecuteAll, DecodeAll, Finished, ObservedBegun;
    var d := Overfilling(max);
    OverfillingBegins(max);
    var decoded := DecodeAll(d, map[], [[]]);
    assert Acceptable(d, map[], []);
    assert Raws(decoded.value) == [[]];
    assert |decoded.value| == 1 && DecodesTo(d, map[], decoded.value[0]);
    assert decoded.value == [decoded.value[0]];
    OverfillingIsObserved(max, decoded.value[0]);
    assert Emitted(max + 1) in ObservedValidation(d, map[], [], [[]]);
    assert !Fine(d.rt, Emitted(max + 1));
  }
}
