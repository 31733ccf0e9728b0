/** Transactions, batches and blocks run by the interpreter that copies on open and restores on
    rollback. The dispatcher refines it, so that the log of the interpreter tells where every event
    ends up: in the tags of its transaction, in the tags of the block, or nowhere. */
module Conservation {
  import opened Basics
  import opened Storage
  import opened BlockState
  import opened Programs
  import opened Transactions
  import opened Reference
  import opened Dispatching
  import opened Batches
  import opened Blocks

  /** The tags of a log: regular events, then unconditional ones. */
  function AllTags(log: seq<Entry>): EventTags {
    Merged(TagsOf(log, false), TagsOf(log, true))
  }

  /** The call of a transaction. Whatever it logs, it leaves no entry in the log around it. */
  function RefRunTx(d: Dispatcher, meta: TxMeta, r: Snapshot, calls: seq<Validator>): (res: (Snapshot,
                    Option<TxResult>))
    requires |calls| < 0x1_0000
    ensures res.0.log == r.log
  {
    var opts := Some(NO_OPTIONS.(tx := Some(meta)));
    var (c, result) := RunCall(d.rt, meta.data.call, Copy(r, opts), calls);
    if result.None? then (r, None)
    else if !result.value.Ok? || meta.data.call.readOnly then
      (Joined(r, c, false, KeptRng(r, opts)), Some(TxResult(result.value, TagsOf(c.log, true))))
    else
      var s := c.(blockValues := c.blockValues - {PRIORITY, SENDER_META});
      if s.env.mode.Check? || s.env.mode.PreSchedule? then
        (Joined(r, s, false, KeptRng(r, opts)), Some(TxResult(result.value, map[])))
      else (Joined(r, s.(log := []), true, KeptRng(r, opts)), Some(TxResult(result.value, AllTags(s.log))))
  }

  function RefDispatch(d: Dispatcher, meta: TxMeta, skipAuthentication: bool, r: Snapshot, calls: seq<Validator>):
      (Snapshot, Ending<TxResult>)
    requires |calls| < 0x1_0000
  {
    var (r1, auth) := if skipAuthentication then (r, Commit(Num(0)))
        else Run(d.rt, d.authenticate(meta.data), r, calls);
    match auth
    case Unwind => (r1, Panicked)
    case Rollback(error) => (r1, Success(TxResult(Refused(error), map[])))
    case Commit(_) =>
      var (r2, result) := RefRunTx(d, meta, r1, calls);
      if result.None? then (r2, Panicked)
      else
        var (r3, hook) := Run(d.rt, d.afterDispatch(meta.data, result.value.result), r2, calls);
        if hook.Unwind? then (r3, Panicked)
        else if result.value.result.Aborted? then (r3, Failure(result.value.result.code))
        else (r3, Success(result.value))
  }

  function RefExecuteAll(d: Dispatcher, items: seq<Decoded>, r: Snapshot, calls: seq<Validator>):
      (Snapshot, Ending<seq<TxResult>>)
    requires |calls| < 0x1_0000
  {
    if items == [] then (r, Success([]))
    else
      var last := |items| - 1;
      var (c, results) := RefExecuteAll(d, items[..last], r, calls);
      if !results.Success? then (c, results)
      else
        var Decoded(raw, tx) := items[last];
        var (c, result) := RefDispatch(d, TxMeta(tx, |raw|, last, d.hash(raw)), false, c, calls);
        match result
        case Success(value) => (c, Success(results.value + [value]))
        case Failure(code) => (c, Failure(code))
        case Panicked => (c, Panicked)
  }

  /** Taking the events before the end of a transaction empties its log. */
  lemma TakenStands(s: State, c: Snapshot)
    requires Stands(s, c)
    ensures Stands(s.(events := map[], unconditionalEvents := map[]), c.(log := []))
    ensures Stands(s.(unconditionalEvents := map[]), c.(log := Without(c.log, true)))
  {
    hide Merged;
    TagsOfWithout(c.log, true);
  }

  lemma TakingValuesStands(s: State, c: Snapshot, names: set<string>)
    requires Stands(s, c)
    ensures Stands(s.(blockValues := s.blockValues - names), c.(blockValues := c.blockValues - names))
  {
    hide TagsOf;
  }

  lemma ConcludedRefines(m: Machine, r: Snapshot, opts: Options, call: Call, t: State, c: Snapshot, result: CallResult)
    requires m.Valid() && Stands(m.state, r) && Stands(t, c) && SameFrame(Entered(m.state, Some(opts)), t)
    requires opts.mode.None?
    ensures var (s, tags, outcome) := Concluded(t, call, result);
            var taken := c.(blockValues := c.blockValues - {PRIORITY, SENDER_META});
            var discarded := !result.Ok? || call.readOnly;
            && s.parent.Some?
            && tags == (if discarded then TagsOf(c.log, true) else if c.env.CheckOnly() then map[] else AllTags(c.log))
            && Stands(Left(s, outcome, Guard(Some(opts), Entered(m.state, Some(opts)))),
                      if discarded then Joined(r, c, false, KeptRng(r, Some(opts)))
                      else if c.env.CheckOnly() then Joined(r, taken, false, KeptRng(r, Some(opts)))
                      else Joined(r, taken.(log := []), true, KeptRng(r, Some(opts))))
  {
    hide Stands, Joined, Left, TagsOf, Merged, SameFrame;
    StandsFor(t, c);
    var (s, tags, outcome) := Concluded(t, call, result);
    assert SameFrame(Entered(m.state, Some(opts)), s) by { FramesChain(Entered(m.state, Some(opts)), t, s); }
    TakenStands(t, c);
    TakingValuesStands(t, c, {PRIORITY, SENDER_META});
    var taken := t.(blockValues := t.blockValues - {PRIORITY, SENDER_META});
    TakenStands(taken, c.(blockValues := c.blockValues - {PRIORITY, SENDER_META}));
    if !result.Ok? || call.readOnly {
      LeaveRefines(m.state, r, Some(opts), s, c.(log := Without(c.log, true)), outcome);
      RolledBackLog(r, c, KeptRng(r, Some(opts)));
    } else if c.env.CheckOnly() {
      LeaveRefines(m.state, r, Some(opts), s, c.(blockValues := c.blockValues - {PRIORITY, SENDER_META}), outcome);
    } else {
      var empty := c.(blockValues := c.blockValues - {PRIORITY, SENDER_META}, log := []);
      LeaveRefines(m.state, r, Some(opts), s, empty, outcome);
    }
  }

  lemma StandsFor(s: State, c: Snapshot)
    requires Stands(s, c)
    ensures s.Valid() && s.env == c.env
    ensures s.events == TagsOf(c.log, false) && s.unconditionalEvents == TagsOf(c.log, true)
  {
  }

  lemma FramesChain(a: State, b: State, c: State)
    requires a.Valid() && b.Valid() && c.Valid() && SameFrame(a, b) && SameFrame(b, c)
    ensures SameFrame(a, c)
  {
  }

  /** On rollback the log of the transaction does not matter. */
  lemma RolledBackLog(r: Snapshot, c: Snapshot, kept: Option<Rng>)
    ensures Joined(r, c.(log := Without(c.log, true)), false, kept) == Joined(r, c, false, kept)
  {
  }

  /** A transaction gives the interpreter's result and leaves a state that stands for the
      interpreter's. */
  lemma TxRefines(d: Dispatcher, meta: TxMeta, m: Machine, r: Snapshot)
    requires m.Valid() && Stands(m.state, r)
    ensures var (n, result) := RunTx(d, meta, m);
            var (c, result') := RefRunTx(d, meta, r, m.calls);
            result == result' && (result.Some? ==> Stands(n.state, c))
  {
    hide DispatchCall, RunCall, Entered, Copy, Joined, Left, Stands, TagsOf, Merged, Concluded, SameFrame;
    var opts := TxOptions(meta);
    var t := m.(state := Entered(m.state, Some(opts)));
    EnterRefines(m.state, r, Some(opts));
    CallRefines(d.rt, meta.data.call, t, Copy(r, Some(opts)));
    var (n, result) := DispatchCall(d.rt, meta.data.call, t);
    if result.Some? {
      var c := RunCall(d.rt, meta.data.call, Copy(r, Some(opts)), m.calls).0;
      ConcludedRefines(m, r, opts, meta.data.call, n.state, c, result.value);
    }
  }

  lemma DispatchRefines(d: Dispatcher, meta: TxMeta, skipAuthentication: bool, m: Machine, r: Snapshot)
    requires m.Valid() && Stands(m.state, r)
    ensures var (n, ending) := DispatchTx(d, meta, skipAuthentication, m);
            var (c, ending') := RefDispatch(d, meta, skipAuthentication, r, m.calls);
            ending == ending' && (!ending.Panicked? ==> Stands(n.state, c))
  {
    hide Exec, Run, RunTx, RefRunTx, Stands;
    if !skipAuthentication {
      RunRefines(d.rt, d.authenticate(meta.data), m, r);
    }
    var (m1, auth) := if skipAuthentication then (m, Commit(Num(0))) else Exec(d.rt, d.authenticate(meta.data), m);
    var r1 := if skipAuthentication then r else Run(d.rt, d.authenticate(meta.data), r, m.calls).0;
    if auth.Commit? {
      TxRefines(d, meta, m1, r1);
      var (m2, result) := RunTx(d, meta, m1);
      if result.Some? {
        RunRefines(d.rt, d.afterDispatch(meta.data, result.value.result), m2, RefRunTx(d, meta, r1, m.calls).0);
      }
    }
  }

  /** So does a whole batch: every transaction of it starts in a state that stands for a snapshot. */
  lemma {:induction false} BatchRefines(d: Dispatcher, items: seq<Decoded>, m: Machine, r: Snapshot)
    requires m.Valid() && Stands(m.state, r)
    ensures var (n, ending) := ExecuteAll(d, items, m);
            var (c, ending') := RefExecuteAll(d, items, r, m.calls);
            ending == ending' && (!ending.Panicked? ==> Stands(n.state, c))
  {
    hide DispatchTx, RefDispatch, Stands;
    if items != [] {
      var last := |items| - 1;
      BatchRefines(d, items[..last], m, r);
      var (n, ending) := ExecuteAll(d, items[..last], m);
      if ending.Success? {
        DispatchRefines(d, Meta(d, items[last], last), false, n, RefExecuteAll(d, items[..last], r, m.calls).0);
      }
    }
  }

  /** The events a transaction reports under a key, from the log of its call: all of them when it is
      executed and succeeds, regular before unconditional; the unconditional ones when it fails or is
      read-only; none when it is only checked. */
  function Reported(log: seq<Entry>, call: Call, result: CallResult, env: Environment, key: Bytes): seq<Bytes> {
    if !result.Ok? || call.readOnly then ValuesOf(log, true, key)
    else if env.mode.Check? || env.mode.PreSchedule? then []
    else ValuesOf(log, false, key) + ValuesOf(log, true, key)
  }

  lemma AllTagsAt(log: seq<Entry>, key: Bytes)
    ensures TagsAt(AllTags(log), key) == ValuesOf(log, false, key) + ValuesOf(log, true, key)
  {
    TagsHoldValues(log, false, key);
    TagsHoldValues(log, true, key);
    MergedAt(TagsOf(log, false), TagsOf(log, true), key);
  }

  lemma ReportsItsLog(d: Dispatcher, meta: TxMeta, r: Snapshot, calls: seq<Validator>, key: Bytes)
    requires |calls| < 0x1_0000 && RefRunTx(d, meta, r, calls).1.Some?
    ensures var (c, result) := RunCall(d.rt, meta.data.call, Copy(r, Some(TxOptions(meta))), calls);
            && result.Some?
            && TagsAt(RefRunTx(d, meta, r, calls).1.value.tags, key) ==
               Reported(c.log, meta.data.call, result.value, c.env, key)
  {
    hide RunCall, Merged;
    var c := RunCall(d.rt, meta.data.call, Copy(r, Some(TxOptions(meta))), calls).0;
    TagsHoldValues(c.log, true, key);
    AllTagsAt(c.log, key);
  }

  lemma {:induction false} ResultsArePrefixes(d: Dispatcher, items: seq<Decoded>, r: Snapshot, calls: seq<Validator>,
                                              k: nat)
    requires |calls| < 0x1_0000 && k < |items| && RefExecuteAll(d, items, r, calls).1.Success?
    ensures var (c, before) := RefExecuteAll(d, items[..k], r, calls);
            var result := RefDispatch(d, Meta(d, items[k], k), false, c, calls).1;
            && before.Success? && result.Success?
            && |RefExecuteAll(d, items, r, calls).1.value| == |items|
            && RefExecuteAll(d, items, r, calls).1.value[k] == result.value
  {
    hide RefDispatch;
    var last := |items| - 1;
    if k < last {
      ResultsArePrefixes(d, items[..last], r, calls, k);
      assert items[..last][..k] == items[..k];
    } else if last > 0 {
      ResultsArePrefixes(d, items[..last], r, calls, 0);
    }
  }

  /** Event conservation, for every transaction of a batch executed from a state that stands for a
      snapshot: if its authentication succeeds it reports, under every key, exactly what the log of
      its call says, and otherwise nothing. */
  lemma EventsAreConserved(d: Dispatcher, items: seq<Decoded>, m: Machine, r: Snapshot, k: nat, key: Bytes)
    requires m.Valid() && Stands(m.state, r) && k < |items| && ExecuteAll(d, items, m).1.Success?
    ensures var tags := ExecuteAll(d, items, m).1.value[k].tags;
            var meta := TxMeta(items[k].tx, |items[k].raw|, k, d.hash(items[k].raw));
            var before := RefExecuteAll(d, items[..k], r, m.calls).0;
            var (c, auth) := Run(d.rt, d.authenticate(items[k].tx), before, m.calls);
            if !auth.Commit? then TagsAt(tags, key) == []
            else
              var opts := Some(NO_OPTIONS.(tx := Some(meta)));
              var (call, result) := RunCall(d.rt, items[k].tx.call, Copy(c, opts), m.calls);
              result.Some? && TagsAt(tags, key) == Reported(call.log, items[k].tx.call, result.value, call.env, key)
  {
    hide ExecuteAll, RefExecuteAll, RefRunTx, Run, Stands;
    BatchRefines(d, items, m, r);
    ResultsArePrefixes(d, items, r, m.calls, k);
    var meta := Meta(d, items[k], k);
    var (c, auth) := Run(d.rt, d.authenticate(items[k].tx), RefExecuteAll(d, items[..k], r, m.calls).0, m.calls);
    if auth.Commit? {
      ReportsItsLog(d, meta, c, m.calls, key);
    }
  }

  function RefHandled(d: Dispatcher, events: seq<MessageEvent>, handlers: HandlerMap, r: Snapshot): (Snapshot,
                      Ending<()>)
    decreases |events|
  {
    if events == [] then (r, if handlers == map[] then Success(()) else Failure(HANDLER_NOT_INVOKED))
    else if events[0].index !in handlers then (r, Failure(HANDLER_MISSING))
    else
      var prog := d.onMessage(handlers[events[0].index], events[0]);
      if prog.None? then (r, Failure(INVALID_METHOD))
      else
        var (c, outcome) := Run(d.rt, prog.value, r, []);
        if outcome.Unwind? then (c, Panicked) else RefHandled(d, events[1..], handlers - {events[0].index}, c)
  }

  function RefBegun(d: Dispatcher, root: Content, events: seq<MessageEvent>): (Snapshot, Ending<()>) {
    var (r1, migrated) := Run(d.rt, d.migrate, RootSnapshot(root, Execute), []);
    if migrated.Unwind? then (r1, Panicked)
    else
      var stored: Option<Value> := Lookup(r1.content, MESSAGE_HANDLERS);
      if stored.Some? && !stored.value.Handlers? then (r1, Panicked)
      else
        var (r2, handled) := RefHandled(d, events, if stored.Some? then stored.value.hooks else map[], r1);
        if !handled.Success? then (r2, handled)
        else
          var (r3, begun) := Run(d.rt, d.beginBlock, r2, []);
          (r3, if begun.Unwind? then Panicked else Success(()))
  }

  /** The end of a block: the block's tags are those of the log at the end of it. */
  function RefFinished(d: Dispatcher, r: Snapshot, results: seq<TxResult>): Ending<BlockResult> {
    var (c, ended) := Run(d.rt, d.endBlock, r, []);
    if ended.Unwind? then Panicked
    else
      Success(BlockResult(results, BodiesOf(c.messages), AllTags(c.log), [],
                          c.content[MESSAGE_HANDLERS := Handlers(ByPosition(HooksOf(c.messages)))],
                          c.blockValues, c.rng))
  }

  /** A whole block over decoded transactions. No transaction leaves an entry in the log, which
      therefore holds exactly the events of the programs that run outside them. */
  function RefBlock(d: Dispatcher, root: Content, events: seq<MessageEvent>, items: seq<Decoded>): Ending<BlockResult> {
    var (r, begun) := RefBegun(d, root, events);
    if !begun.Success? then Fail(begun)
    else
      var (c, results) := RefExecuteAll(d, items, r, []);
      if results.Success? then RefFinished(d, c, results.value) else Fail(results)
  }

  lemma {:induction false} HandledRefines(d: Dispatcher, events: seq<MessageEvent>, handlers: HandlerMap, m: Machine,
                                          r: Snapshot)
    requires m.Valid() && m.calls == [] && Stands(m.state, r)
    ensures var (n, ending) := Handled(d, events, handlers, m);
            var (c, ending') := RefHandled(d, events, handlers, r);
            && (ending.Success? <==> ending'.Success?) && (ending.Success? ==> Stands(n.state, c))
    decreases |events|
  {
    hide Exec, Run, Stands;
    if events != [] && events[0].index in handlers {
      var prog := d.onMessage(handlers[events[0].index], events[0]);
      if prog.Some? {
        RunRefines(d.rt, prog.value, m, r);
        var (n, outcome) := Exec(d.rt, prog.value, m);
        if !outcome.Unwind? {
          HandledRefines(d, events[1..], handlers - {events[0].index}, n, Run(d.rt, prog.value, r, []).0);
        }
      }
    }
  }

  lemma BegunRefines(d: Dispatcher, root: Content, events: seq<MessageEvent>)
    ensures var (m, begun) := Begun(d, root, events);
            var (r, begun') := RefBegun(d, root, events);
            && (begun.Success? <==> begun'.Success?)
            && (begun.Success? ==> Stands(m.state, r) && m.calls == [])
  {
    hide Exec, Run, Handled, RefHandled;
    var m, r := Machine(Root(root, Execute), []), RootSnapshot(root, Execute);
    RootStands(root, Execute);
    RunRefines(d.rt, d.migrate, m, r);
    var (m1, migrated) := Exec(d.rt, d.migrate, m);
    var r1 := Run(d.rt, d.migrate, r, []).0;
    if !migrated.Unwind? {
      var stored: Option<Value> := Lookup(m1.Content(), MESSAGE_HANDLERS);
      var handlers := if stored.Some? && stored.value.Handlers? then stored.value.hooks else map[];
      HandledRefines(d, events, handlers, m1, r1);
      var (m2, handled) := Handled(d, events, handlers, m1);
      if handled.Success? {
        RunRefines(d.rt, d.beginBlock, m2, RefHandled(d, events, handlers, r1).0);
      }
    }
  }

  lemma FinishedRefines(d: Dispatcher, m: Machine, r: Snapshot, results: seq<TxResult>, rejected: seq<Bytes>)
    requires m.Valid() && m.calls == [] && m.state.Level() == 0 && Stands(m.state, r)
    ensures var ending, ending' := Finished(d, m, results, rejected), RefFinished(d, r, results);
            && (ending.Success? <==> ending'.Success?)
            && (ending.Success? ==> ending'.value == ending.value.(rejected := []))
  {
    hide Exec, Run, TagsOf, ByPosition;
    RunRefines(d.rt, d.endBlock, m, r);
    var (n, ended) := Exec(d.rt, d.endBlock, m);
    if !ended.Unwind? {
      var store, value := n.state.store.value, Handlers(ByPosition(HooksOf(n.state.messages)));
      UpdatesChangeView(store, MESSAGE_HANDLERS, value);
      CommitKeepsView(store.Insert(MESSAGE_HANDLERS, value));
    }
  }

  /** A validator's block is the interpreter's block over what it executes. */
  lemma ValidatedBlockRefines(d: Dispatcher, root: Content, events: seq<MessageEvent>, batch: seq<Bytes>)
    requires ExecuteBatch(d, root, events, batch).0.Success?
    ensures var (block, items) := ExecuteBatch(d, root, events, batch);
            RefBlock(d, root, events, items) == Success(block.value.(rejected := []))
  {
    hide Begun, RefBegun, ExecuteAll, RefExecuteAll, Finished, RefFinished, Stands;
    BegunRefines(d, root, events);
    var m, items := Begun(d, root, events).0, ExecuteBatch(d, root, events, batch).1;
    var r := RefBegun(d, root, events).0;
    BatchRefines(d, items, m, r);
    var (n, results) := ExecuteAll(d, items, m);
    FinishedRefines(d, n, RefExecuteAll(d, items, r, []).0, results.value, []);
  }

  /** So is a proposer's. */
  lemma ProposedBlockRefines(d: Dispatcher, cfg: Config, root: Content, events: seq<MessageEvent>, batch: seq<Bytes>,
                             answers: seq<Fetched>)
    requires ScheduleAndExecute(d, cfg, root, events, batch, answers).0.Success?
    ensures var (block, items) := ScheduleAndExecute(d, cfg, root, events, batch, answers);
            RefBlock(d, root, events, items) == Success(block.value.(rejected := []))
  {
    hide Begun, RefBegun, ExecuteAll, RefExecuteAll, Finished, RefFinished, Stands, Scheduled;
    BegunRefines(d, root, events);
    var m, r := Begun(d, root, events).0, RefBegun(d, root, events).0;
    var st := Scheduled(d, cfg, Fresh(m), batch, cfg.initialBatchSize, answers);
    NothingExecuted(d, m);
    ScheduleReplays(d, cfg, m, Fresh(m), batch, cfg.initialBatchSize, answers);
    BatchRefines(d, st.batch, m, r);
    FinishedRefines(d, st.m, RefExecuteAll(d, st.batch, r, []).0, st.results, st.rejected);
  }

  /** A program run outside transactions, and the snapshot it starts from. */
  datatype HookRun = HookRun(prog: Prog, at: Snapshot)

  /** The log is handed from one run to the next and by nothing else: every run starts with the log the
      one before it left, from `start` to `end`. */
  ghost predicate Chained(rt: Runtime, start: seq<Entry>, runs: seq<HookRun>, end: seq<Entry>) {
    if runs == [] then start == end
    else
      var last := runs[|runs| - 1];
      Chained(rt, start, runs[..|runs| - 1], last.at.log) && Run(rt, last.prog, last.at, []).0.log == end
  }

  lemma ChainedOne(rt: Runtime, start: seq<Entry>, runs: seq<HookRun>, run: HookRun)
    requires Chained(rt, start, runs, run.at.log)
    ensures Chained(rt, start, runs + [run], Run(rt, run.prog, run.at, []).0.log)
  {
    assert (runs + [run])[..|runs|] == runs;
  }

  lemma {:induction false} ChainedMore(rt: Runtime, start: seq<Entry>, runs: seq<HookRun>, mid: seq<Entry>,
                                       more: seq<HookRun>, end: seq<Entry>)
    requires Chained(rt, start, runs, mid) && Chained(rt, mid, more, end)
    ensures Chained(rt, start, runs + more, end)
  {
    hide Run;
    if more == [] {
      assert runs + more == runs;
    } else {
      var last := more[|more| - 1];
      ChainedMore(rt, start, runs, mid, more[..|more| - 1], last.at.log);
      assert (runs + more)[..|runs + more| - 1] == runs + more[..|more| - 1];
    }
  }

  /** What runs outside the transaction when one is dispatched. */
  function DispatchHooks(d: Dispatcher, meta: TxMeta, r: Snapshot): seq<HookRun> {
    var (r1, auth) := Run(d.rt, d.authenticate(meta.data), r, []);
    [HookRun(d.authenticate(meta.data), r)] +
    if !auth.Commit? then []
    else
      var (r2, result) := RefRunTx(d, meta, r1, []);
      if result.None? then [] else [HookRun(d.afterDispatch(meta.data, result.value.result), r2)]
  }

  function BatchHooks(d: Dispatcher, items: seq<Decoded>, r: Snapshot): seq<HookRun> {
    if items == [] then []
    else
      var last := |items| - 1;
      BatchHooks(d, items[..last], r) +
      DispatchHooks(d, Meta(d, items[last], last), RefExecuteAll(d, items[..last], r, []).0)
  }

  /** Dispatching a transaction changes the log by its hooks alone. */
  lemma DispatchIsChained(d: Dispatcher, meta: TxMeta, r: Snapshot)
    requires RefDispatch(d, meta, false, r, []).1.Success?
    ensures Chained(d.rt, r.log, DispatchHooks(d, meta, r), RefDispatch(d, meta, false, r, []).0.log)
  {
    hide Run, RefRunTx;
    var first := HookRun(d.authenticate(meta.data), r);
    ChainedOne(d.rt, r.log, [], first);
    assert [] + [first] == [first];
    var (r1, auth) := Run(d.rt, first.prog, r, []);
    if auth.Commit? {
      var (r2, result) := RefRunTx(d, meta, r1, []);
      ChainedOne(d.rt, r.log, [first], HookRun(d.afterDispatch(meta.data, result.value.result), r2));
    } else {
      assert [first] + [] == [first];
    }
  }

  lemma {:induction false} BatchIsChained(d: Dispatcher, items: seq<Decoded>, r: Snapshot)
    requires RefExecuteAll(d, items, r, []).1.Success?
    ensures Chained(d.rt, r.log, BatchHooks(d, items, r), RefExecuteAll(d, items, r, []).0.log)
  {
    hide RefDispatch, DispatchHooks;
    if items != [] {
      hide Chained;
      var last := |items| - 1;
      BatchIsChained(d, items[..last], r);
      var c := RefExecuteAll(d, items[..last], r, []).0;
      var meta := Meta(d, items[last], last);
      DispatchIsChained(d, meta, c);
      ChainedMore(d.rt, r.log, BatchHooks(d, items[..last], r), c.log, DispatchHooks(d, meta, c),
                  RefDispatch(d, meta, false, c, []).0.log);
    }
  }

  function HandlerRuns(d: Dispatcher, events: seq<MessageEvent>, handlers: HandlerMap, r: Snapshot): seq<HookRun>
    decreases |events|
  {
    if events == [] || events[0].index !in handlers then []
    else
      var prog := d.onMessage(handlers[events[0].index], events[0]);
      if prog.None? then []
      else
        [HookRun(prog.value, r)] +
        HandlerRuns(d, events[1..], handlers - {events[0].index}, Run(d.rt, prog.value, r, []).0)
  }

  lemma {:induction false} HandlersAreChained(d: Dispatcher, events: seq<MessageEvent>, handlers: HandlerMap,
                                              r: Snapshot)
    requires RefHandled(d, events, handlers, r).1.Success?
    ensures Chained(d.rt, r.log, HandlerRuns(d, events, handlers, r), RefHandled(d, events, handlers, r).0.log)
    decreases |events|
  {
    hide Run;
    if events != [] {
      var prog := d.onMessage(handlers[events[0].index], events[0]).value;
      var c, left := Run(d.rt, prog, r, []).0, handlers - {events[0].index};
      ChainedOne(d.rt, r.log, [], HookRun(prog, r));
      assert [] + [HookRun(prog, r)] == [HookRun(prog, r)];
      HandlersAreChained(d, events[1..], left, c);
      ChainedMore(d.rt, r.log, [HookRun(prog, r)], c.log, HandlerRuns(d, events[1..], left, c),
                  RefHandled(d, events[1..], left, c).0.log);
    }
  }

  /** What runs before the batch. */
  function BeginRuns(d: Dispatcher, root: Content, events: seq<MessageEvent>): seq<HookRun> {
    var r := RootSnapshot(root, Execute);
    var r1 := Run(d.rt, d.migrate, r, []).0;
    var stored: Option<Value> := Lookup(r1.content, MESSAGE_HANDLERS);
    var handlers := if stored.Some? && stored.value.Handlers? then stored.value.hooks else map[];
    [HookRun(d.migrate, r)] + HandlerRuns(d, events, handlers, r1) +
    [HookRun(d.beginBlock, RefHandled(d, events, handlers, r1).0)]
  }

  lemma BeginIsChained(d: Dispatcher, root: Content, events: seq<MessageEvent>)
    requires RefBegun(d, root, events).1.Success?
    ensures Chained(d.rt, [], BeginRuns(d, root, events), RefBegun(d, root, events).0.log)
  {
    hide Run, RefHandled, HandlerRuns, Chained;
    var r := RootSnapshot(root, Execute);
    var r1 := Run(d.rt, d.migrate, r, []).0;
    var stored: Option<Value> := Lookup(r1.content, MESSAGE_HANDLERS);
    var handlers := if stored.Some? && stored.value.Handlers? then stored.value.hooks else map[];
    var r2 := RefHandled(d, events, handlers, r1).0;
    var first, middle := [HookRun(d.migrate, r)], HandlerRuns(d, events, handlers, r1);
    assert Chained(d.rt, [], first, r1.log) by { ChainedStart(d.rt, HookRun(d.migrate, r)); }
    HandlersAreChained(d, events, handlers, r1);
    ChainedMore(d.rt, [], first, r1.log, middle, r2.log);
    ChainedOne(d.rt, [], first + middle, HookRun(d.beginBlock, r2));
  }

  lemma ChainedStart(rt: Runtime, run: HookRun)
    ensures Chained(rt, run.at.log, [run], Run(rt, run.prog, run.at, []).0.log)
  {
    hide Run;
    assert [run][..0] == [];
  }

  /** Everything that runs outside transactions in a block, and the log at the end of it. */
  function BlockHooks(d: Dispatcher, root: Content, events: seq<MessageEvent>, items: seq<Decoded>): seq<HookRun> {
    var r := RefBegun(d, root, events).0;
    BeginRuns(d, root, events) + BatchHooks(d, items, r) + [HookRun(d.endBlock, RefExecuteAll(d, items, r, []).0)]
  }

  function BlockLog(d: Dispatcher, root: Content, events: seq<MessageEvent>, items: seq<Decoded>): seq<Entry> {
    Run(d.rt, d.endBlock, RefExecuteAll(d, items, RefBegun(d, root, events).0, []).0, []).0.log
  }

  lemma BlockIsChained(d: Dispatcher, root: Content, events: seq<MessageEvent>, items: seq<Decoded>)
    requires RefBlock(d, root, events, items).Success?
    ensures Chained(d.rt, [], BlockHooks(d, root, events, items), BlockLog(d, root, events, items))
  {
    hide Run, RefBegun, RefExecuteAll, BeginRuns, BatchHooks, Chained;
    var r := RefBegun(d, root, events).0;
    var c := RefExecuteAll(d, items, r, []).0;
    var begin, batch := BeginRuns(d, root, events), BatchHooks(d, items, r);
    BeginIsChained(d, root, events);
    BatchIsChained(d, items, r);
    ChainedMore(d.rt, [], begin, r.log, batch, c.log);
    ChainedOne(d.rt, [], begin + batch, HookRun(d.endBlock, c));
  }

  /** The program takes no events away from the state it runs in; transactions and subcalls of its own
      may take theirs. */
  ghost predicate OnlyAdds(p: Prog) {
    match p
    case Return(_) => true
    case Do(op, k) => !op.TakeEvents? && !op.TakeUnconditionalEvents? && forall r | r in k :: OnlyAdds(k[r])
    case Nest(_, _, k) => forall r | r in k :: OnlyAdds(k[r])
    case Sub(_, _, k) => forall r | r in k :: OnlyAdds(k[r])
  }

  /** What a program logs by itself. */
  function OwnLog(rt: Runtime, p: Prog, r: Snapshot, calls: seq<Validator>): seq<Entry>
    requires |calls| < 0x1_0000
  {
    Run(rt, p, r.(log := []), calls).0.log
  }

  lemma StepIsAdditive(max: nat, op: Op, r: Snapshot)
    requires !op.TakeEvents? && !op.TakeUnconditionalEvents?
    ensures var (c, resp) := StepRef(max, op, r);
            var (e, resp') := StepRef(max, op, r.(log := []));
            resp == resp' && c == e.(log := r.log + e.log)
  {
    assert r.log + [] == r.log;
  }

  /** A program that takes no events does the same whatever was logged before, and adds its own log. */
  lemma {:induction false} LogIsAdditive(rt: Runtime, p: Prog, r: Snapshot, calls: seq<Validator>)
    requires |calls| < 0x1_0000 && OnlyAdds(p)
    ensures var (c, outcome) := Run(rt, p, r.(log := []), calls);
            Run(rt, p, r, calls) == (c.(log := r.log + c.log), outcome)
    decreases p, 0
  {
    hide StepRef, RunNested, RunSubcall;
    var e := r.(log := []);
    match p
    case Return(_) => assert r.log + [] == r.log;
    case Do(op, k) =>
      StepIsAdditive(rt.maxMessages, op, r);
      var (c, resp) := StepRef(rt.maxMessages, op, r);
      var e' := StepRef(rt.maxMessages, op, e).0;
      if resp.Some? && resp.value in k {
        Continues(rt, k[resp.value], r.log, c, e', calls);
      }
    case Nest(opts, body, k) =>
      NestIsAdditive(rt, opts, body, r, calls);
      var (c, outcome) := RunNested(rt, opts, body, r, calls);
      if !outcome.Unwind? && Returned(outcome.val) in k {
        Continues(rt, k[Returned(outcome.val)], r.log, c, RunNested(rt, opts, body, e, calls).0, calls);
      }
    case Sub(info, validator, k) =>
      SubcallIsAdditive(rt, info, validator, r, calls);
      var (c, resp) := RunSubcall(rt, info, validator, r, calls);
      if resp.Some? && resp.value in k {
        Continues(rt, k[resp.value], r.log, c, RunSubcall(rt, info, validator, e, calls).0, calls);
      }
  }

  lemma {:induction false} Continues(rt: Runtime, p: Prog, before: seq<Entry>, c: Snapshot, e: Snapshot,
                                     calls: seq<Validator>)
    requires |calls| < 0x1_0000 && OnlyAdds(p) && c == e.(log := before + e.log)
    ensures var (c', outcome) := Run(rt, p, e, calls);
            Run(rt, p, c, calls) == (c'.(log := before + c'.log), outcome)
    decreases p, 1
  {
    hide Run, OnlyAdds;
    LogIsAdditive(rt, p, c, calls);
    LogIsAdditive(rt, p, e, calls);
    assert c.(log := []) == e.(log := []);
    var own := Run(rt, p, e.(log := []), calls).0.log;
    assert before + e.log + own == before + (e.log + own);
  }

  lemma CopyIgnoresLog(r: Snapshot, opts: Option<Options>)
    ensures Copy(r.(log := []), opts) == Copy(r, opts) && KeptRng(r.(log := []), opts) == KeptRng(r, opts)
  {
    hide Noted, Discards, Hide;
  }

  lemma JoiningIsAdditive(r: Snapshot, c: Snapshot, commit: bool, kept: Option<Rng>)
    ensures var e := Joined(r.(log := []), c, commit, kept);
            Joined(r, c, commit, kept) == e.(log := r.log + e.log)
  {
    assert r.log + [] == r.log && [] + c.log == c.log;
  }

  lemma NestIsAdditive(rt: Runtime, opts: Option<Options>, body: Prog, r: Snapshot, calls: seq<Validator>)
    requires |calls| < 0x1_0000
    ensures var (c, outcome) := RunNested(rt, opts, body, r.(log := []), calls);
            RunNested(rt, opts, body, r, calls) == (c.(log := r.log + c.log), outcome)
  {
    hide Run, Copy, Joined, KeptRng;
    CopyIgnoresLog(r, opts);
    var (c, outcome) := Run(rt, body, Copy(r, opts), calls);
    JoiningIsAdditive(r, c, outcome.Commit? && !(opts.Some? && Discards(opts.value)), KeptRng(r, opts));
    assert r.log + [] == r.log;
  }

  lemma SubcallIsAdditive(rt: Runtime, info: SubcallInfo, validator: Validator, r: Snapshot, calls: seq<Validator>)
    requires |calls| < 0x1_0000
    ensures var (c, resp) := RunSubcall(rt, info, validator, r.(log := []), calls);
            RunSubcall(rt, info, validator, r, calls) == (c.(log := r.log + c.log), resp)
  {
    hide RunCall, Copy, Joined, KeptRng;
    var opts := Some(SubcallOptions(info, Limit(rt.maxMessages, r)));
    CopyIgnoresLog(r, opts);
    assert r.log + [] == r.log;
    if |calls| < info.maxDepth {
      var (c, result) := RunCall(rt, info.call, Copy(r, opts), calls + [validator]);
      JoiningIsAdditive(r, c, result.Some? && result.value.Ok?, KeptRng(r, opts));
    }
  }

  /** The logs of the runs, each on its own, one after the other. */
  function Contributions(rt: Runtime, runs: seq<HookRun>): seq<Entry> {
    if runs == [] then []
    else
      var last := runs[|runs| - 1];
      Contributions(rt, runs[..|runs| - 1]) + OwnLog(rt, last.prog, last.at, [])
  }

  lemma {:induction false} ChainedContributions(rt: Runtime, start: seq<Entry>, runs: seq<HookRun>, end: seq<Entry>)
    requires Chained(rt, start, runs, end) && forall i | 0 <= i < |runs| :: OnlyAdds(runs[i].prog)
    ensures end == start + Contributions(rt, runs)
  {
    hide Run, OnlyAdds;
    if runs == [] {
      assert start + [] == start;
    } else {
      var init, last := runs[..|runs| - 1], runs[|runs| - 1];
      ChainedContributions(rt, start, init, last.at.log);
      LogIsAdditive(rt, last.prog, last.at, []);
      assert start + Contributions(rt, init) + OwnLog(rt, last.prog, last.at, []) ==
             start + (Contributions(rt, init) + OwnLog(rt, last.prog, last.at, []));
    }
  }

  /** What is to be said of a block's tags: no transaction has left anything in the log, which every
      program outside of them gets as the one before left it; the tags are, under every key, what that
      log holds at the end, regular events before unconditional ones; and if no such program takes
      events away, it holds exactly what each of them has logged. */
  ghost predicate TagsOfHooks(d: Dispatcher, root: Content, events: seq<MessageEvent>, items: seq<Decoded>,
                              tags: EventTags) {
    var runs, log := BlockHooks(d, root, events, items), BlockLog(d, root, events, items);
    && Chained(d.rt, [], runs, log)
    && (forall key :: TagsAt(tags, key) == ValuesOf(log, false, key) + ValuesOf(log, true, key))
    && ((forall i | 0 <= i < |runs| :: OnlyAdds(runs[i].prog)) ==> log == Contributions(d.rt, runs))
  }

  lemma RefTagsAreHookEvents(d: Dispatcher, root: Content, events: seq<MessageEvent>, items: seq<Decoded>)
    requires RefBlock(d, root, events, items).Success?
    ensures TagsOfHooks(d, root, events, items, RefBlock(d, root, events, items).value.blockTags)
  {
    hide Run, RefBegun, RefExecuteAll, BlockHooks, Chained, OnlyAdds, AllTags;
    var runs, log := BlockHooks(d, root, events, items), BlockLog(d, root, events, items);
    BlockIsChained(d, root, events, items);
    forall key ensures TagsAt(AllTags(log), key) == ValuesOf(log, false, key) + ValuesOf(log, true, key) {
      AllTagsAt(log, key);
    }
    if forall i | 0 <= i < |runs| :: OnlyAdds(runs[i].prog) {
      ChainedContributions(d.rt, [], runs, log);
      assert [] + Contributions(d.rt, runs) == Contributions(d.rt, runs);
    }
  }

  /** The tags of a validator's block are the events of what runs outside its transactions. */
  lemma ValidatedTagsAreHookEvents(d: Dispatcher, root: Content, events: seq<MessageEvent>, batch: seq<Bytes>)
    requires ExecuteBatch(d, root, events, batch).0.Success?
    ensures var (block, items) := ExecuteBatch(d, root, events, batch);
            TagsOfHooks(d, root, events, items, block.value.blockTags)
  {
    hide ExecuteBatch, RefBlock, TagsOfHooks;
    ValidatedBlockRefines(d, root, events, batch);
    RefTagsAreHookEvents(d, root, events, ExecuteBatch(d, root, events, batch).1);
  }

  /** So are those of a proposer's block. */
  lemma ProposedTagsAreHookEvents(d: Dispatcher, cfg: Config, root: Content, events: seq<MessageEvent>,
                                  batch: seq<Bytes>, answers: seq<Fetched>)
    requires ScheduleAndExecute(d, cfg, root, events, batch, answers).0.Success?
    ensures var (block, items) := ScheduleAndExecute(d, cfg, root, events, batch, answers);
            TagsOfHooks(d, root, events, items, block.value.blockTags)
  {
    hide ScheduleAndExecute, RefBlock, TagsOfHooks;
    ProposedBlockRefines(d, cfg, root, events, batch, answers);
    RefTagsAreHookEvents(d, root, events, ScheduleAndExecute(d, cfg, root, events, batch, answers).1);
  }
}
