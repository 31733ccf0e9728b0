/** A whole block: last round's message results, begin and end of block, the batch in between, and
    the handlers saved for the next round (runtime-sdk/src/dispatcher.rs). */
module Blocks {
  import opened Basics
  import opened Storage
  import opened BlockState
  import opened Programs
  import opened Dispatching
  import opened Batches

  /** Where the core module keeps the handlers of the messages emitted in the previous round. */
  const MESSAGE_HANDLERS: Bytes := [99, 111, 114, 101, 1]

  const HANDLER_MISSING := 27
  const INVALID_METHOD := 6
  const HANDLER_NOT_INVOKED := 28

  type HandlerMap = map<nat, Hook>

  /** A handler invocation: what was saved, and the event it is invoked with. */
  datatype Invocation = Invocation(hook: Hook, event: MessageEvent)

  /** Match the reported message events with the saved handlers, one after the other. The value is
      the list of invocations made. */
  function Handled(d: Dispatcher, events: seq<MessageEvent>, handlers: HandlerMap, m: Machine): (r: (Machine,
                   Ending<seq<Invocation>>))
    requires m.Valid()
    ensures Framed(m, r.0, r.1.Panicked?)
    decreases |events|
  {
    if events == [] then
      (m, if handlers == map[] then Success([]) else Failure(HANDLER_NOT_INVOKED))
    else
      var event := events[0];
      if event.index !in handlers then (m, Failure(HANDLER_MISSING))
      else
        var hook := handlers[event.index];
        var prog := d.onMessage(hook, event);
        if prog.None? then (m, Failure(INVALID_METHOD))
        else
          var (n, outcome) := Exec(d.rt, prog.value, m);
          if outcome.Unwind? then (n, Panicked)
          else
            var (n, rest) := Handled(d, events[1..], handlers - {event.index}, n);
            (n, if rest.Success? then Success([Invocation(hook, event)] + rest.value) else rest)
  }

  /** The handlers found in the store. A value of another type is a panic. */
  function LastRound(d: Dispatcher, events: seq<MessageEvent>, m: Machine): (r: (Machine, Ending<seq<Invocation>>))
    requires m.Valid()
    ensures Framed(m, r.0, r.1.Panicked?)
  {
    var stored: Option<Value> := Lookup(m.Content(), MESSAGE_HANDLERS);
    if stored.None? then Handled(d, events, map[], m)
    else
      match stored.value
      case Handlers(handlers) => Handled(d, events, handlers, m)
      case Raw(_) => (m, Panicked)
  }

  predicate AllDifferent(events: seq<MessageEvent>) {
    forall i, j | 0 <= i < j < |events| :: events[i].index != events[j].index
  }

  /** The reported indices are the saved positions in some order, each exactly once. */
  predicate Permutes(events: seq<MessageEvent>, positions: set<nat>) {
    AllDifferent(events) && (set e | e in events :: e.index) == positions
  }

  /** The reported indices are some of the saved positions, each at most once and not all of them. */
  predicate FallsShort(events: seq<MessageEvent>, positions: set<nat>) {
    AllDifferent(events) && (set e | e in events :: e.index) < positions
  }

  /** All hook names are known to the modules. */
  predicate AllKnown(d: Dispatcher, events: seq<MessageEvent>, handlers: HandlerMap) {
    forall e | e in events && e.index in handlers :: d.onMessage(handlers[e.index], e).Some?
  }

  /** Every event met its own handler, in the order of the events. */
  predicate Served(invoked: seq<Invocation>, events: seq<MessageEvent>, handlers: HandlerMap) {
    && |invoked| == |events|
    && forall i | 0 <= i < |events| ::
         events[i].index in handlers && invoked[i] == Invocation(handlers[events[i].index], events[i])
  }

  /** With all hooks known and unless one of them panics, handling the last round succeeds exactly
      when the reported indices are a permutation of the saved positions; then every saved handler
      has been invoked once, with its own payload and the event reported for it. Otherwise it fails:
      for a handler that was not invoked exactly when the reports fall short, and in all other cases
      for a report without a handler. */
  lemma {:induction false} HandlingNeedsAPermutation(d: Dispatcher, events: seq<MessageEvent>, handlers: HandlerMap,
                                                     m: Machine)
    requires m.Valid() && AllKnown(d, events, handlers)
    requires !Handled(d, events, handlers, m).1.Panicked?
    ensures var ending := Handled(d, events, handlers, m).1;
            && (ending.Success? <==> Permutes(events, handlers.Keys))
            && (ending == Failure(HANDLER_NOT_INVOKED) <==> FallsShort(events, handlers.Keys))
            && (!ending.Success? ==> ending == Failure(HANDLER_NOT_INVOKED) || ending == Failure(HANDLER_MISSING))
            && (ending.Success? ==> Served(ending.value, events, handlers))
    decreases |events|
  {
    if events == [] {
      assert Permutes(events, handlers.Keys) <==> handlers.Keys == {};
      assert FallsShort(events, handlers.Keys) <==> handlers.Keys != {};
    } else {
      hide Exec, Permutes, FallsShort, Served, AllKnown;
      var event, rest := events[0], events[1..];
      assert events == [event] + rest;
      PermutedIsSaved(events, handlers.Keys);
      if event.index in handlers {
        var hook, left := handlers[event.index], handlers - {event.index};
        assert left.Keys == handlers.Keys - {event.index};
        assert AllKnown(d, rest, left) && d.onMessage(hook, event).Some? by { KnownTail(d, events, handlers); }
        var n := Exec(d.rt, d.onMessage(hook, event).value, m).0;
        HandlingNeedsAPermutation(d, rest, left, n);
        PermutesTail(event, rest, handlers.Keys);
        var ending := Handled(d, rest, left, n).1;
        if ending.Success? {
          ServedTail(ending.value, event, rest, handlers);
        }
      }
    }
  }

  lemma KnownTail(d: Dispatcher, events: seq<MessageEvent>, handlers: HandlerMap)
    requires AllKnown(d, events, handlers) && events != [] && events[0].index in handlers
    ensures d.onMessage(handlers[events[0].index], events[0]).Some?
    ensures AllKnown(d, events[1..], handlers - {events[0].index})
  {
    assert events[0] in events;
  }

  lemma ServedTail(invoked: seq<Invocation>, event: MessageEvent, rest: seq<MessageEvent>, handlers: HandlerMap)
    requires event.index in handlers && Served(invoked, rest, handlers - {event.index})
    ensures Served([Invocation(handlers[event.index], event)] + invoked, [event] + rest, handlers)
  {
  }

  lemma PermutedIsSaved(events: seq<MessageEvent>, positions: set<nat>)
    requires events != []
    ensures Permutes(events, positions) || FallsShort(events, positions) ==> events[0].index in positions
  {
    assert events[0] in events;
    assert events[0].index in (set e | e in events :: e.index);
  }

  lemma PermutesTail(event: MessageEvent, rest: seq<MessageEvent>, positions: set<nat>)
    requires event.index in positions
    ensures Permutes([event] + rest, positions) <==> Permutes(rest, positions - {event.index})
    ensures FallsShort([event] + rest, positions) <==> FallsShort(rest, positions - {event.index})
  {
    var all := [event] + rest;
    var indices := set e | e in rest :: e.index;
    assert (set e | e in all :: e.index) == indices + {event.index};
    DifferentTail(event, rest);
    assert indices + {event.index} == positions && event.index !in indices <==>
           indices == positions - {event.index};
  }

  lemma DifferentTail(event: MessageEvent, rest: seq<MessageEvent>)
    ensures AllDifferent([event] + rest) <==>
            AllDifferent(rest) && event.index !in (set e | e in rest :: e.index)
  {
    var all := [event] + rest;
    if AllDifferent(all) {
      forall e | e in rest ensures e.index != event.index {
        var i :| 0 <= i < |rest| && rest[i] == e;
        assert all[0] == event && all[i + 1] == e;
      }
      forall i, j | 0 <= i < j < |rest| ensures rest[i].index != rest[j].index {
        assert all[i + 1] == rest[i] && all[j + 1] == rest[j];
      }
    }
    if AllDifferent(rest) && event.index !in (set e | e in rest :: e.index) {
      forall i, j | 0 <= i < j < |all| ensures all[i].index != all[j].index {
        assert all[j] in rest;
        assert all[j].index in (set e | e in rest :: e.index);
      }
    }
  }

  function Positions(n: nat): (r: set<nat>)
    ensures |r| == n && forall i :: i in r <==> 0 <= i < n
  {
    if n == 0 then {} else Positions(n - 1) + {n - 1}
  }

  /** Handlers keyed by their position, cast to 32 bits. */
  function ByPosition(hooks: seq<Hook>): HandlerMap {
    if hooks == [] then map[]
    else
      var last := |hooks| - 1;
      ByPosition(hooks[..last])[last % U32 := hooks[last]]
  }

  lemma {:induction false} PositionsAreWords(hooks: seq<Hook>)
    ensures forall i | i in ByPosition(hooks) :: i < U32
  {
    if hooks != [] {
      PositionsAreWords(hooks[..|hooks| - 1]);
    }
  }

  lemma {:induction false} SavedUpToWords(hooks: seq<Hook>)
    requires |hooks| <= U32
    ensures forall i: nat :: i in ByPosition(hooks) <==> i < |hooks|
    ensures forall i | 0 <= i < |hooks| :: ByPosition(hooks)[i] == hooks[i]
  {
    if hooks != [] {
      var init, last := hooks[..|hooks| - 1], |hooks| - 1;
      SavedUpToWords(init);
      assert last % U32 == last;
      assert forall i | 0 <= i < last :: init[i] == hooks[i];
    }
  }

  /** The cast is exact, so every handler is saved under its position, precisely up to 2^32 messages. */
  lemma PositionsAreExact(hooks: seq<Hook>)
    ensures ByPosition(hooks).Keys == Positions(|hooks|) <==> |hooks| <= U32
    ensures |hooks| <= U32 ==> forall i | 0 <= i < |hooks| :: i in ByPosition(hooks) && ByPosition(hooks)[i] == hooks[i]
  {
    if |hooks| <= U32 {
      SavedUpToWords(hooks);
    } else {
      PositionsAreWords(hooks);
      assert U32 in Positions(|hooks|);
    }
  }

  function HooksOf(messages: seq<Message>): seq<Hook> {
    seq(|messages|, i requires 0 <= i < |messages| => messages[i].hook)
  }

  function BodiesOf(messages: seq<Message>): seq<Bytes> {
    seq(|messages|, i requires 0 <= i < |messages| => messages[i].body)
  }

  /** Enter the root state and run everything that precedes the batch. */
  function Begun(d: Dispatcher, root: Content, events: seq<MessageEvent>): (r: (Machine, Ending<()>))
    ensures r.0.Valid() && (!r.1.Panicked? ==> r.0.state.Level() == 0)
  {
    var m := Machine(Root(root, Execute), []);
    var (m1, migrated) := Exec(d.rt, d.migrate, m);
    if migrated.Unwind? then (m1, Panicked)
    else
      var (m2, handled) := LastRound(d, events, m1);
      match handled
      case Panicked => (m2, Panicked)
      case Failure(code) => (m2, Failure(code))
      case Success(_) =>
        var (m3, begun) := Exec(d.rt, d.beginBlock, m2);
        (m3, if begun.Unwind? then Panicked else Success(()))
  }

  /** What a block produces, and the state it leaves behind. */
  datatype BlockResult = BlockResult(
    results: seq<TxResult>, messages: seq<Bytes>, blockTags: EventTags, rejected: seq<Bytes>,
    content: Content, blockValues: Values, rng: Rng)

  /** Run everything that follows the batch and commit the root store. */
  function Finished(d: Dispatcher, m: Machine, results: seq<TxResult>, rejected: seq<Bytes>): Ending<BlockResult>
    requires m.Valid()
  {
    var (n, ended) := Exec(d.rt, d.endBlock, m);
    if ended.Unwind? then Panicked
    else
      var s := n.state;
      var store := s.store.value.Insert(MESSAGE_HANDLERS, Handlers(ByPosition(HooksOf(s.messages))));
      Success(BlockResult(results, BodiesOf(s.messages), Merged(s.events, s.unconditionalEvents), rejected,
                          store.Committed().View(), s.blockValues, s.rng.value))
  }

  function Fail<T>(ending: Ending<T>): Ending<BlockResult>
    requires !ending.Success?
  {
    match ending case Failure(code) => Failure(code) case Panicked => Panicked
  }

  /** A validator replays a batch. The second component is what it executes. */
  function ExecuteBatch(d: Dispatcher, root: Content, events: seq<MessageEvent>, batch: seq<Bytes>):
      (Ending<BlockResult>, seq<Decoded>) {
    var (m, begun) := Begun(d, root, events);
    if !begun.Success? then (Fail(begun), [])
    else
      var decoded := DecodeAll(d, m.Content(), batch);
      if !decoded.Success? then (Fail(decoded), [])
      else
        var (n, results) := ExecuteAll(d, decoded.value, m);
        (if results.Success? then Finished(d, n, results.value, []) else Fail(results), decoded.value)
  }

  function Fresh(m: Machine): Sched {
    Sched(m, [], [], [], Going, [], [])
  }

  /** A proposer schedules and executes. The second component is what it executes, which is also the
      new batch. */
  function ScheduleAndExecute(d: Dispatcher, cfg: Config, root: Content, events: seq<MessageEvent>, batch: seq<Bytes>,
                              answers: seq<Fetched>): (Ending<BlockResult>, seq<Decoded>) {
    var (m, begun) := Begun(d, root, events);
    if !begun.Success? then (Fail(begun), [])
    else
      var st := Scheduled(d, cfg, Fresh(m), batch, cfg.initialBatchSize, answers);
      match st.status
      case Broken(code) => (Failure(code), st.batch)
      case Crashed => (Panicked, st.batch)
      case _ => (Finished(d, st.m, st.results, st.rejected), st.batch)
  }

  /** Agreement. Whatever the queue, the host and the modules do: if the proposer succeeds, replaying
      its batch from the same root executes the same transactions with the same results, messages,
      block tags, store, block values and RNG, and no rejected hashes, exactly when every included
      transaction decodes, before the first one is executed, to what the proposer decoded it to, and
      can be prefetched for. If one of them is not even acceptable then, the validator fails the
      batch: it decodes everything up front, the proposer only when it gets there. */
  lemma ProposerAndValidatorAgree(d: Dispatcher, cfg: Config, root: Content, events: seq<MessageEvent>,
                                  batch: seq<Bytes>, answers: seq<Fetched>)
    requires ScheduleAndExecute(d, cfg, root, events, batch, answers).0.Success?
    ensures var (proposed, included) := ScheduleAndExecute(d, cfg, root, events, batch, answers);
            var replayed := ExecuteBatch(d, root, events, Raws(included));
            var content := Begun(d, root, events).0.Content();
            && (replayed == (Success(proposed.value.(rejected := [])), included) <==>
                forall i | 0 <= i < |included| :: DecodesTo(d, content, included[i]))
            && ((exists i | 0 <= i < |included| :: !Acceptable(d, content, included[i].raw)) ==>
                replayed.0 == Failure(MALFORMED) || replayed.0 == Failure(PREFETCH_FAILED))
  {
    hide Exec, Begun, Scheduled, ExecuteTx, DecodeAll, Acceptable;
    var m := Begun(d, root, events).0;
    assert ExecuteAll(d, [], m) == (m, Success([]));
    ScheduleReplays(d, cfg, m, Fresh(m), batch, cfg.initialBatchSize, answers);
    var included := ScheduleAndExecute(d, cfg, root, events, batch, answers).1;
    DecodingReproduces(d, m.Content(), included);
    if i :| 0 <= i < |included| && !Acceptable(d, m.Content(), included[i].raw) {
      assert Raws(included)[i] == included[i].raw;
    }
  }

  /** What a transaction decodes to does not depend on the store; whether it decodes may. */
  ghost predicate DecodesByBytes(d: Dispatcher) {
    forall c, c', raw | d.decode(c, raw).Some? && d.decode(c', raw).Some? :: d.decode(c, raw) == d.decode(c', raw)
  }

  /** With decoding by the bytes alone the two agree exactly when every included transaction is
      acceptable up front, and otherwise the validator fails the batch. */
  lemma AgreementByBytes(d: Dispatcher, cfg: Config, root: Content, events: seq<MessageEvent>, batch: seq<Bytes>,
                         answers: seq<Fetched>)
    requires DecodesByBytes(d) && ScheduleAndExecute(d, cfg, root, events, batch, answers).0.Success?
    ensures var (proposed, included) := ScheduleAndExecute(d, cfg, root, events, batch, answers);
            var replayed := ExecuteBatch(d, root, events, Raws(included)).0;
            var content := Begun(d, root, events).0.Content();
            if forall i | 0 <= i < |included| :: Acceptable(d, content, included[i].raw)
            then replayed == Success(proposed.value.(rejected := []))
            else replayed == Failure(MALFORMED) || replayed == Failure(PREFETCH_FAILED)
  {
    hide Exec, Begun, Scheduled, ExecuteTx, DecodeAll;
    var m := Begun(d, root, events).0;
    ProposerAndValidatorAgree(d, cfg, root, events, batch, answers);
    var st := Scheduled(d, cfg, Fresh(m), batch, cfg.initialBatchSize, answers);
    ScheduleDecodes(d, cfg, Fresh(m), batch, cfg.initialBatchSize, answers);
    forall i | 0 <= i < |st.batch| && Acceptable(d, m.Content(), st.batch[i].raw)
      ensures DecodesTo(d, m.Content(), st.batch[i])
    {
      assert FromBytes(d, st.batch[i]);
    }
  }

  /** The reported bodies and the saved handlers are those of the messages, position by position. */
  ghost predicate FollowMessages(bodies: seq<Bytes>, saved: Option<Value>, messages: seq<Message>) {
    && |bodies| == |messages|
    && (forall i | 0 <= i < |messages| :: bodies[i] == messages[i].body)
    && saved.Some? && saved.value.Handlers?
    && (|messages| <= U32 ==>
          && (forall i: nat :: i in saved.value.hooks <==> i < |messages|)
          && (forall i | 0 <= i < |messages| :: saved.value.hooks[i] == messages[i].hook))
  }

  /** A finished block reports the body of every message in its place and leaves its handler in the
      root store under its position; the rest of the store is as the end of the block left it. */
  lemma FinishedSavesHandlers(d: Dispatcher, m: Machine, results: seq<TxResult>, rejected: seq<Bytes>)
    requires m.Valid() && m.state.Level() == 0 && Finished(d, m, results, rejected).Success?
    ensures var ended := Exec(d.rt, d.endBlock, m).0;
            var block := Finished(d, m, results, rejected).value;
            && FollowMessages(block.messages, Lookup(block.content, MESSAGE_HANDLERS), ended.state.messages)
            && block.content - {MESSAGE_HANDLERS} == ended.Content() - {MESSAGE_HANDLERS}
  {
    hide Exec, ByPosition;
    var ended := Exec(d.rt, d.endBlock, m).0;
    var store := ended.state.store.value;
    var value := Handlers(ByPosition(HooksOf(ended.state.messages)));
    assert store.Valid();
    UpdatesChangeView(store, MESSAGE_HANDLERS, value);
    CommitKeepsView(store.Insert(MESSAGE_HANDLERS, value));
    PositionsFollowMessages(ended.state.messages);
  }

  lemma PositionsFollowMessages(messages: seq<Message>)
    ensures FollowMessages(BodiesOf(messages), Some(Handlers(ByPosition(HooksOf(messages)))), messages)
  {
    hide ByPosition;
    if |messages| <= U32 {
      SavedUpToWords(HooksOf(messages));
    }
  }

  /** The messages in the state at the end of a block over the given transactions. */
  function EndMessages(d: Dispatcher, root: Content, events: seq<MessageEvent>, items: seq<Decoded>): seq<Message> {
    Exec(d.rt, d.endBlock, ExecuteAll(d, items, Begun(d, root, events).0).0).0.state.messages
  }

  /** A validator's block follows its messages. */
  lemma ValidatedBlockFollowsMessages(d: Dispatcher, root: Content, events: seq<MessageEvent>, batch: seq<Bytes>)
    requires ExecuteBatch(d, root, events, batch).0.Success?
    ensures var (block, items) := ExecuteBatch(d, root, events, batch);
            FollowMessages(block.value.messages, Lookup(block.value.content, MESSAGE_HANDLERS),
                           EndMessages(d, root, events, items))
  {
    hide Begun, ExecuteAll, Exec, FollowMessages, Finished;
    var m, items := Begun(d, root, events).0, ExecuteBatch(d, root, events, batch).1;
    var (n, results) := ExecuteAll(d, items, m);
    FinishedSavesHandlers(d, n, results.value, []);
  }

  /** So does a proposer's. */
  lemma ProposedBlockFollowsMessages(d: Dispatcher, cfg: Config, root: Content, events: seq<MessageEvent>,
                                     batch: seq<Bytes>, answers: seq<Fetched>)
    requires ScheduleAndExecute(d, cfg, root, events, batch, answers).0.Success?
    ensures var (block, items) := ScheduleAndExecute(d, cfg, root, events, batch, answers);
            FollowMessages(block.value.messages, Lookup(block.value.content, MESSAGE_HANDLERS),
                           EndMessages(d, root, events, items))
  {
    hide Begun, ExecuteAll, Exec, FollowMessages, Scheduled;
    var m := Begun(d, root, events).0;
    var st := Scheduled(d, cfg, Fresh(m), batch, cfg.initialBatchSize, answers);
    NothingExecuted(d, m);
    ScheduleReplays(d, cfg, m, Fresh(m), batch, cfg.initialBatchSize, answers);
    FinishedSavesHandlers(d, st.m, st.results, st.rejected);
  }

  lemma NothingExecuted(d: Dispatcher, m: Machine)
    requires m.Valid()
    ensures ExecuteAll(d, [], m) == (m, Success([]))
  {
  }
}
