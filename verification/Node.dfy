/** The dispatcher as the source writes it (runtime-sdk/src/dispatcher.rs): loops and transactions that
    update the state and the subcall stack of the current thread in place, composed to whole blocks. */
module Nodes {
  import opened Basics
  import opened Storage
  import opened BlockState
  import opened Programs
  import opened Threads
  import opened Dispatching
  import opened Batches
  import opened Blocks

  class Node {
    const thread: Thread

    constructor (root: Content)
      ensures fresh(thread) && fresh(thread.state) && fresh(thread.stack)
      ensures Here() == Machine(Root(root, Execute), []) && Here().Valid()
    {
      thread := new Thread(root, Execute);
    }

    ghost function Here(): Machine
      reads thread.state, thread.stack
    {
      thread.Here()
    }

    /** The closing part of the transaction closure. */
    method Conclude(call: Call, result: CallResult) returns (tags: EventTags, outcome: Outcome)
      requires Here().Valid()
      modifies thread.state
      ensures (Here().state, tags, outcome) == Concluded(old(Here()).state, call, result)
      ensures Here().calls == old(Here()).calls
    {
      var state := thread.state;
      if !result.Ok? || call.readOnly {
        tags, state.unconditionalEvents := state.unconditionalEvents, map[];
        return tags, Rollback(Num(0));
      }
      state.blockValues := state.blockValues - {PRIORITY, SENDER_META};
      if state.env.CheckOnly() {
        return map[], Rollback(Num(0));
      }
      tags := state.TakeAllEvents();
      outcome := Commit(Num(0));
    }

    /** Run the call of a transaction in a transaction context of its own. */
    method RunTx(d: Dispatcher, meta: TxMeta) returns (r: Option<TxResult>)
      requires Here().Valid()
      modifies thread.state, thread.stack
      ensures (Here(), r) == Dispatching.RunTx(d, meta, old(Here()))
    {
      hide DispatchCall, Entered, Left, Concluded;
      ghost var m := Here();
      var opts := Some(TxOptions(meta));
      thread.Enter(opts);
      ghost var t := Here();
      var guard := Some(thread.state.Value().Level());
      var result := thread.DispatchCall(d.rt, meta.data.call);
      ghost var n := Here();
      if result.None? {
        LeftIsFramed(m, opts, n, Unwind);
        thread.Leave(Unwind, guard);
        return None;
      }
      var tags, outcome := Conclude(meta.data.call, result.value);
      StillFramed(t, n, Here().state);
      LeftIsFramed(m, opts, Here(), outcome);
      thread.Leave(outcome, guard);
      return Some(TxResult(result.value, tags));
    }

    /** Dispatch a transaction: authenticate, run, call the after-dispatch hook, propagate aborts. */
    method DispatchTx(d: Dispatcher, meta: TxMeta, skipAuthentication: bool) returns (ending: Ending<TxResult>)
      requires Here().Valid()
      modifies thread.state, thread.stack
      ensures (Here(), ending) == Dispatching.DispatchTx(d, meta, skipAuthentication, old(Here()))
    {
      hide Exec, Dispatching.RunTx;
      if !skipAuthentication {
        var auth := thread.Run(d.rt, d.authenticate(meta.data));
        match auth {
          case Unwind => return Panicked;
          case Rollback(_) => return Success(TxResult(ToCallResult(auth), map[]));
          case Commit(_) =>
        }
      }
      var result := RunTx(d, meta);
      if result.None? {
        return Panicked;
      }
      var hook := thread.Run(d.rt, d.afterDispatch(meta.data, result.value.result));
      if hook.Unwind? {
        return Panicked;
      }
      return match result.value.result case Aborted(code) => Failure(code) case _ => Success(result.value);
    }

    /** The closure run in pre-schedule mode. */
    method PreCheck(d: Dispatcher, meta: TxMeta) returns (verdict: Verdict)
      requires Here().Valid()
      modifies thread.state, thread.stack
      ensures (Here(), verdict) == PreChecked(d, meta, old(Here()))
    {
      hide Exec, Dispatching.DispatchTx;
      var auth := thread.Run(d.rt, d.authenticate(meta.data));
      match auth {
        case Unwind => return Panic;
        case Rollback(error) => return if error.FutureNonce? then Skip else Reject;
        case Commit(_) =>
      }
      var check := DispatchTx(d, meta, true);
      match check {
        case Panicked => return Panic;
        case Failure(code) => return AbortBatch(code);
        case Success(value) => return if value.result.Ok? then Accept else Reject;
      }
    }

    /** Check a candidate in a pre-schedule transaction: nothing of it is left. */
    method PreSchedule(d: Dispatcher, meta: TxMeta) returns (verdict: Verdict)
      requires Here().Valid()
      modifies thread.state, thread.stack
      ensures (Here(), verdict) == PreScheduled(d, meta, old(Here()))
      ensures !verdict.Panic? ==> Here() == old(Here())
    {
      hide PreChecked, Entered, Left;
      ghost var m := Here();
      var opts := Some(PRE_SCHEDULE);
      thread.Enter(opts);
      var guard := Some(thread.state.Value().Level());
      verdict := PreCheck(d, meta);
      var outcome := match verdict
        case Panic => Unwind
        case AbortBatch(_) => Rollback(Num(0))
        case _ => Commit(Num(0));
      LeftIsFramed(m, opts, Here(), outcome);
      thread.Leave(outcome, guard);
      if !verdict.Panic? {
        PreScheduleIsInvisible(d, meta, m);
      }
    }

    /** Handle last round's message results: remove each event's handler from the map and invoke it. */
    method HandleLastRound(d: Dispatcher, events: seq<MessageEvent>) returns (ending: Ending<seq<Invocation>>)
      requires Here().Valid()
      modifies thread.state, thread.stack
      ensures (Here(), ending) == LastRound(d, events, old(Here()))
    {
      hide Exec, Store.View, Store.Get;
      FittingStoreIsValid(Here().state, thread.state.store.value);
      GetReadsView(thread.state.store.value, MESSAGE_HANDLERS);
      var stored := thread.state.store.value.Get(MESSAGE_HANDLERS);
      var handlers: HandlerMap := map[];
      if stored.Some? {
        match stored.value {
          case Raw(_) => return Panicked;
          case Handlers(saved) => handlers := saved;
        }
      }
      ghost var goal := Handled(d, events, handlers, Here());
      var invoked, i := [], 0;
      assert events[0..] == events;
      assert goal.1.Success? ==> invoked + goal.1.value == goal.1.value;
      while i < |events|
        invariant 0 <= i <= |events| && Here().Valid()
        invariant var (n, rest) := Handled(d, events[i..], handlers, Here());
                  goal == (n, if rest.Success? then Success(invoked + rest.value) else rest)
      {
        var event := events[i];
        assert events[i..][1..] == events[i + 1..];
        if event.index !in handlers {
          return Failure(HANDLER_MISSING);
        }
        var hook := handlers[event.index];
        handlers := handlers - {event.index};
        var prog := d.onMessage(hook, event);
        if prog.None? {
          return Failure(INVALID_METHOD);
        }
        var outcome := thread.Run(d.rt, prog.value);
        if outcome.Unwind? {
          return Panicked;
        }
        ghost var rest := Handled(d, events[i + 1..], handlers, Here()).1;
        var call := Invocation(hook, event);
        assert rest.Success? ==> invoked + ([call] + rest.value) == invoked + [call] + rest.value;
        invoked := invoked + [call];
        i := i + 1;
      }
      assert events[i..] == [];
      if handlers != map[] {
        return Failure(HANDLER_NOT_INVOKED);
      }
      assert invoked + [] == invoked;
      return Success(invoked);
    }

    /** Save the handlers of emitted messages under their positions. */
    method SaveHandlers(hooks: seq<Hook>)
      requires Here().Valid()
      modifies thread.state
      ensures Here() == old(Here()).(state := old(Here()).state.(store :=
                Some(old(Here()).state.store.value.Insert(MESSAGE_HANDLERS, Handlers(ByPosition(hooks))))))
    {
      var handlers: HandlerMap, idx := map[], 0;
      while idx < |hooks|
        invariant 0 <= idx <= |hooks| && handlers == ByPosition(hooks[..idx])
      {
        assert hooks[..idx + 1][..idx] == hooks[..idx];
        handlers := handlers[idx % U32 := hooks[idx]];
        idx := idx + 1;
      }
      assert hooks[..idx] == hooks;
      thread.state.store := Some(thread.state.store.value.Insert(MESSAGE_HANDLERS, Handlers(handlers)));
    }

    /** Everything that precedes the batch. */
    method Begin(d: Dispatcher, ghost root: Content, events: seq<MessageEvent>) returns (ending: Ending<()>)
      requires Here() == Machine(Root(root, Execute), [])
      modifies thread.state, thread.stack
      ensures (Here(), ending) == Begun(d, root, events)
    {
      hide Exec, LastRound, Root;
      var outcome := thread.Run(d.rt, d.migrate);
      if outcome.Unwind? {
        return Panicked;
      }
      var handled := HandleLastRound(d, events);
      match handled {
        case Panicked => return Panicked;
        case Failure(code) => return Failure(code);
        case Success(_) =>
      }
      outcome := thread.Run(d.rt, d.beginBlock);
      return if outcome.Unwind? then Panicked else Success(());
    }

    /** Everything that follows the batch: the end-of-block hooks, the messages, handlers and events,
        and the commit of the root store. */
    method Finish(d: Dispatcher, results: seq<TxResult>, rejected: seq<Bytes>) returns (ending: Ending<BlockResult>)
      requires Here().Valid()
      modifies thread.state, thread.stack
      ensures ending == Finished(d, old(Here()), results, rejected)
    {
      hide Exec, ByPosition, Store.Committed;
      var outcome := thread.Run(d.rt, d.endBlock);
      if outcome.Unwind? {
        return Panicked;
      }
      ghost var s := Here().state;
      var messages := thread.state.messages;
      thread.state.messages := [];
      var tags := thread.state.TakeAllEvents();
      SaveHandlers(HooksOf(messages));
      FittingStoreIsValid(Here().state, thread.state.store.value);
      var committed := CommitOverlay(thread.state.store.value);
      return Success(BlockResult(results, BodiesOf(messages), tags, rejected, committed.View(),
                                 thread.state.blockValues, thread.state.rng.value));
    }

    /** Decode a whole batch before any of it is executed. */
    method DecodeBatch(d: Dispatcher, batch: seq<Bytes>) returns (ending: Ending<seq<Decoded>>)
      requires Here().Valid()
      ensures ending == DecodeAll(d, Here().Content(), batch)
    {
      var content := thread.state.store.value.View();
      var items: seq<Decoded>, i := [], 0;
      while i < |batch|
        invariant 0 <= i <= |batch| && DecodeAll(d, content, batch[..i]) == Success(items)
      {
        assert batch[..i + 1][..i] == batch[..i];
        var raw := batch[i];
        var tx := d.decode(content, raw);
        if |raw| >= U32 || tx.None? {
          DecodingStops(d, content, batch, i + 1);
          return Failure(MALFORMED);
        }
        if d.prefetchEnabled && !d.prefetches(tx.value) {
          DecodingStops(d, content, batch, i + 1);
          return Failure(PREFETCH_FAILED);
        }
        items := items + [Decoded(raw, tx.value)];
        i := i + 1;
      }
      assert batch[..i] == batch;
      return Success(items);
    }

    /** Execute decoded transactions in order. */
    method ExecuteItems(d: Dispatcher, items: seq<Decoded>) returns (ending: Ending<seq<TxResult>>)
      requires Here().Valid()
      modifies thread.state, thread.stack
      ensures (Here(), ending) == ExecuteAll(d, items, old(Here()))
    {
      hide Dispatching.DispatchTx;
      var results, index := [], 0;
      while index < |items|
        invariant 0 <= index <= |items| && Here().Valid()
        invariant ExecuteAll(d, items[..index], old(Here())) == (Here(), Success(results))
      {
        assert items[..index + 1][..index] == items[..index];
        var result := DispatchTx(d, Meta(d, items[index], index), false);
        match result {
          case Success(value) => results := results + [value];
          case Failure(code) =>
            ExecutionStops(d, items, index + 1, old(Here()));
            return Failure(code);
          case Panicked =>
            ExecutionStops(d, items, index + 1, old(Here()));
            return Panicked;
        }
        index := index + 1;
      }
      assert items[..index] == items;
      return Success(results);
    }
  }

  lemma {:induction false} DecodingStops(d: Dispatcher, content: Content, batch: seq<Bytes>, i: nat)
    requires i <= |batch| && !DecodeAll(d, content, batch[..i]).Success?
    ensures DecodeAll(d, content, batch) == DecodeAll(d, content, batch[..i])
    decreases |batch|
  {
    if i == |batch| {
      assert batch[..i] == batch;
    } else {
      assert batch[..|batch| - 1][..i] == batch[..i];
      DecodingStops(d, content, batch[..|batch| - 1], i);
    }
  }

  lemma {:induction false} ExecutionStops(d: Dispatcher, items: seq<Decoded>, i: nat, m: Machine)
    requires m.Valid() && i <= |items| && !ExecuteAll(d, items[..i], m).1.Success?
    ensures ExecuteAll(d, items, m) == ExecuteAll(d, items[..i], m)
    decreases |items|
  {
    if i == |items| {
      assert items[..i] == items;
    } else {
      assert items[..|items| - 1][..i] == items[..i];
      ExecutionStops(d, items[..|items| - 1], i, m);
    }
  }

  /** The scheduling closure and its local variables. */
  class Proposer {
    const node: Node
    var newBatch: seq<Decoded>
    var results: seq<TxResult>
    var rejected: seq<Bytes>
    var status: Status

    ghost predicate At(st: Sched)
      reads this, node.thread.state, node.thread.stack
    {
      && st.m == node.Here() && st.batch == newBatch && st.results == results
      && st.rejected == rejected && st.status == status
    }

    constructor (node: Node)
      ensures this.node == node && At(Fresh(node.Here()))
    {
      this.node, newBatch, results, rejected, status := node, [], [], [], Going;
    }

    /** One iteration of the drain loop. */
    method ConsiderOne(d: Dispatcher, cfg: Config, raw: Bytes, ghost st: Sched)
      requires At(st) && st.m.Valid()
      modifies this, node.thread.state, node.thread.stack
      ensures At(Consider(d, cfg, st, raw))
    {
      hide PreScheduled, Dispatching.DispatchTx, Store.View;
      var content := node.thread.state.store.value.View();
      var limit, used := d.maxBatchGas(content), d.usedBatchGas(node.thread.state.blockValues);
      var remaining := if used <= limit then limit - used else 0;
      if remaining < cfg.minRemainingGas || |newBatch| >= cfg.maxTxCount {
        status := Full;
        return;
      }
      var tx := d.decode(content, raw);
      if tx.None? {
        rejected := rejected + [d.hash(raw)];
        return;
      }
      if |raw| >= U32 {
        status := Crashed;
        return;
      }
      if tx.value.gas > remaining {
        return;
      }
      var count := node.thread.state.Value().MessageCount() % U32;
      var slots := if count <= d.rt.maxMessages then d.rt.maxMessages - count else 0;
      if tx.value.consensusMessages > slots {
        return;
      }
      TryOne(d, Decoded(raw, tx.value), st);
    }

    /** Pre-check a transaction that fits, and execute it if the check passes. */
    method TryOne(d: Dispatcher, item: Decoded, ghost st: Sched)
      requires At(st) && st.m.Valid()
      modifies this, node.thread.state, node.thread.stack
      ensures At(Tried(d, st, item))
    {
      hide PreScheduled, Dispatching.DispatchTx;
      var index := |newBatch|;
      var verdict := node.PreSchedule(d, Meta(d, item, index));
      match verdict {
        case Panic => status := Crashed;
        case AbortBatch(code) => status := Broken(code);
        case Skip =>
        case Reject => rejected := rejected + [d.hash(item.raw)];
        case Accept =>
          newBatch := newBatch + [item];
          var result := node.DispatchTx(d, Meta(d, item, index), false);
          match result {
            case Panicked => status := Crashed;
            case Failure(code) => status := Broken(code);
            case Success(value) => results := results + [value];
          }
      }
    }

    /** Drain a batch until the block is full or something fails. */
    method Drain(d: Dispatcher, cfg: Config, batch: seq<Bytes>, ghost st: Sched) returns (ghost r: Sched)
      requires At(st) && st.m.Valid() && st.status.Going?
      modifies this, node.thread.state, node.thread.stack
      ensures r == Drained(d, cfg, st, batch) && At(r)
    {
      hide Consider;
      r := st;
      var i := 0;
      assert batch[i..] == batch;
      while i < |batch| && status.Going?
        invariant 0 <= i <= |batch| && At(r) && r.m.Valid()
        invariant Drained(d, cfg, r, batch[i..]) == Drained(d, cfg, st, batch)
      {
        assert batch[i..][1..] == batch[i + 1..];
        ConsiderOne(d, cfg, batch[i], r);
        r := Consider(d, cfg, r, batch[i]);
        i := i + 1;
      }
      if !status.Going? {
        DrainedIsDone(d, cfg, r, batch[i..]);
      } else {
        assert batch[i..] == [];
      }
      r := Drained(d, cfg, st, batch);
    }

    /** The scheduling loop, for whatever the host answers to the first requests for more. */
    method Schedule(d: Dispatcher, cfg: Config, initial: seq<Bytes>, answers: seq<Fetched>)
      requires At(Fresh(node.Here())) && node.Here().Valid()
      modifies this, node.thread.state, node.thread.stack
      ensures At(Scheduled(d, cfg, Fresh(old(node.Here())), initial, cfg.initialBatchSize, answers))
    {
      hide Drained;
      var batch, requested, host := initial, cfg.initialBatchSize, answers;
      ghost var st := Fresh(node.Here());
      ghost var goal := Scheduled(d, cfg, st, batch, requested, host);
      while true
        invariant At(st) && st.m.Valid() && st.status.Going?
        invariant Scheduled(d, cfg, st, batch, requested, host) == goal
        decreases |host|
      {
        ghost var drained := Drain(d, cfg, batch, st);
        if !status.Going? || batch == [] || |batch| < requested || host == [] {
          return;
        }
        match host[0] {
          case NoMore => return;
          case FetchFailed =>
            status := Broken(FETCH_FAILED);
            return;
          case More(fetched) =>
            st := drained;
            batch, requested, host := fetched, cfg.batchSize, host[1..];
        }
      }
    }
  }

  /** Once the loop has stopped, draining the rest changes nothing but the record of fates. */
  lemma {:induction false} DrainedIsDone(d: Dispatcher, cfg: Config, st: Sched, batch: seq<Bytes>)
    requires st.m.Valid() && !st.status.Going?
    ensures var r := Drained(d, cfg, st, batch);
            r == st.(offered := r.offered, fates := r.fates)
    decreases |batch|
  {
    if batch != [] && st.status.Full? {
      DrainedIsDone(d, cfg, st.Fated(batch[0], LeftInQueue), batch[1..]);
    }
  }

  /** A validator's block, from the root store to the result. */
  method ExecuteBatch(d: Dispatcher, root: Content, events: seq<MessageEvent>, batch: seq<Bytes>)
    returns (ending: Ending<BlockResult>, executed: seq<Decoded>)
    ensures (ending, executed) == Blocks.ExecuteBatch(d, root, events, batch)
  {
    hide Begun, DecodeAll, ExecuteAll, Finished;
    executed := [];
    var node := new Node(root);
    var begun := node.Begin(d, root, events);
    match begun {
      case Failure(code) => return Failure(code), [];
      case Panicked => return Panicked, [];
      case Success(_) =>
    }
    var decoded := node.DecodeBatch(d, batch);
    match decoded {
      case Failure(code) => return Failure(code), [];
      case Panicked => return Panicked, [];
      case Success(items) => executed := items;
    }
    var results := node.ExecuteItems(d, executed);
    match results {
      case Failure(code) => ending := Failure(code);
      case Panicked => ending := Panicked;
      case Success(values) => ending := node.Finish(d, values, []);
    }
  }

  /** A proposer's block, from the root store to the result. */
  method ScheduleAndExecuteBatch(d: Dispatcher, cfg: Config, root: Content, events: seq<MessageEvent>,
                                 batch: seq<Bytes>, answers: seq<Fetched>)
    returns (ending: Ending<BlockResult>, included: seq<Decoded>)
    ensures (ending, included) == ScheduleAndExecute(d, cfg, root, events, batch, answers)
  {
    hide Begun, Scheduled, Finished;
    included := [];
    var node := new Node(root);
    var begun := node.Begin(d, root, events);
    match begun {
      case Failure(code) => return Failure(code), [];
      case Panicked => return Panicked, [];
      case Success(_) =>
    }
    var proposer := new Proposer(node);
    proposer.Schedule(d, cfg, batch, answers);
    included := proposer.newBatch;
    match proposer.status {
      case Broken(code) => ending := Failure(code);
      case Crashed => ending := Panicked;
      case _ => ending := node.Finish(d, proposer.results, proposer.rejected);
    }
  }
}
