/** From block to block: the messages a proposer emits in one round and the results reported for them
    in the next (runtime-sdk/src/dispatcher.rs). */
module Rounds {
  import opened Basics
  import opened Storage
  import opened BlockState
  import opened Programs
  import opened Observations
  import opened Dispatching
  import opened Batches
  import opened Blocks
  import opened Limits

  /** The messages of a whole block are within its maximum, so their positions fit 32 bits. */
  lemma BlockMessagesFit(d: Dispatcher, m: Machine, results: seq<TxResult>, rejected: seq<Bytes>)
    requires m.Valid() && m.state.Level() == 0 && BlockClaims(d) && Bounded(d.rt, m.state)
    requires Finished(d, m, results, rejected).Success?
    ensures var ended := Exec(d.rt, d.endBlock, m).0;
            && |Finished(d, m, results, rejected).value.messages| == |ended.state.messages| <= d.rt.maxMessages
  {
    hide Exec;
    RunsAreFine(d.rt, d.endBlock, m);
  }

  /** Two rounds. A proposer's block emits no more messages than allowed, and reports and saves each of
      them under its position. If the next block's migrations leave the saved handlers alone, its
      handling of the reported results succeeds, unless a hook panics, exactly when these are a
      permutation of the positions, and then runs, for every result, the handler of the message that
      the result is reported for. */
  lemma BlocksConnect(d: Dispatcher, cfg: Config, root: Content, events: seq<MessageEvent>, batch: seq<Bytes>,
                      answers: seq<Fetched>, reported: seq<MessageEvent>)
    requires BlockClaims(d) && d.rt.maxMessages < U32
    requires ScheduleAndExecute(d, cfg, root, events, batch, answers).0.Success?
    ensures var (block, items) := ScheduleAndExecute(d, cfg, root, events, batch, answers);
            var messages := EndMessages(d, root, events, items);
            var saved: Option<Value> := Lookup(block.value.content, MESSAGE_HANDLERS);
            && |messages| <= d.rt.maxMessages
            && FollowMessages(block.value.messages, saved, messages)
            && forall next: Machine | next.Valid() && Lookup(next.Content(), MESSAGE_HANDLERS) == saved ::
                 Answered(d, reported, messages, next)
  {
    hide Begun, Scheduled, Exec, Finished, LastRound, ExecuteAll, FollowMessages;
    var m := Begun(d, root, events).0;
    BegunIsFine(d, root, events);
    ScheduleIsFine(d, cfg, Fresh(m), batch, cfg.initialBatchSize, answers);
    NothingExecuted(d, m);
    ScheduleReplays(d, cfg, m, Fresh(m), batch, cfg.initialBatchSize, answers);
    var st := Scheduled(d, cfg, Fresh(m), batch, cfg.initialBatchSize, answers);
    BlockMessagesFit(d, st.m, st.results, st.rejected);
    ProposedBlockFollowsMessages(d, cfg, root, events, batch, answers);
    var (block, items) := ScheduleAndExecute(d, cfg, root, events, batch, answers);
    var saved: Option<Value> := Lookup(block.value.content, MESSAGE_HANDLERS);
    var messages := EndMessages(d, root, events, items);
    forall next: Machine | next.Valid() && Lookup(next.Content(), MESSAGE_HANDLERS) == saved
      ensures Answered(d, reported, messages, next)
    {
      HandlersAreAnswered(d, reported, block.value.messages, messages, saved, next);
    }
  }

  /** The reported results meet the handlers of the messages as they should. */
  ghost predicate Answered(d: Dispatcher, reported: seq<MessageEvent>, messages: seq<Message>, next: Machine)
    requires next.Valid()
  {
    var ending := LastRound(d, reported, next).1;
    (forall e | e in reported && e.index < |messages| :: d.onMessage(messages[e.index].hook, e).Some?) &&
    !ending.Panicked? ==>
      && (ending.Success? <==> Permutes(reported, Positions(|messages|)))
      && (ending.Success? ==>
            && |ending.value| == |reported|
            && forall i | 0 <= i < |reported| ::
                 && reported[i].index < |messages|
                 && ending.value[i] == Invocation(messages[reported[i].index].hook, reported[i]))
  }

  lemma HandlersAreAnswered(d: Dispatcher, reported: seq<MessageEvent>, bodies: seq<Bytes>, messages: seq<Message>,
                            saved: Option<Value>, next: Machine)
    requires next.Valid() && Lookup(next.Content(), MESSAGE_HANDLERS) == saved
    requires FollowMessages(bodies, saved, messages) && |messages| <= U32
    ensures Answered(d, reported, messages, next)
  {
    hide Handled, Permutes;
    var hooks := saved.value.hooks;
    assert LastRound(d, reported, next) == Handled(d, reported, hooks, next);
    assert hooks.Keys == Positions(|messages|);
    if !LastRound(d, reported, next).1.Panicked? && AllKnown(d, reported, hooks) {
      HandlingNeedsAPermutation(d, reported, hooks, next);
    }
  }
}
