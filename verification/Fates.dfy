/** What becomes of every transaction that is offered to a scheduling proposer
    (runtime-sdk/src/dispatcher.rs), in terms of the interpreter alone: a transaction is included, is
    rejected or stays in the queue according to the snapshot that the included ones before it lead to. */
module Fates {
  import opened Basics
  import opened Storage
  import opened BlockState
  import opened Programs
  import opened Reference
  import opened Dispatching
  import opened Batches
  import opened Blocks
  import opened Conservation

  /** Another transaction can be considered when `n` have been included. */
  predicate HasRoom(d: Dispatcher, cfg: Config, n: nat, r: Snapshot) {
    && n < cfg.maxTxCount
    && (cfg.minRemainingGas == 0 ||
        d.usedBatchGas(r.blockValues) + cfg.minRemainingGas <= d.maxBatchGas(r.content))
  }

  /** The gas and the messages that the transaction asks for are left. */
  predicate Affords(d: Dispatcher, tx: Tx, r: Snapshot) {
    && (tx.gas == 0 || d.usedBatchGas(r.blockValues) + tx.gas <= d.maxBatchGas(r.content))
    && (tx.consensusMessages == 0 ||
        (r.below + |r.messages|) % 0x1_0000_0000 + tx.consensusMessages <= d.rt.maxMessages)
  }

  /** The check of a transaction: authenticate it in a copy in pre-schedule mode and, if that succeeds,
      dispatch it there. */
  function Authenticated(d: Dispatcher, tx: Tx, r: Snapshot): (Snapshot, Outcome) {
    Run(d.rt, d.authenticate(tx), Copy(r, Some(Options(Some(PreSchedule), None, None, None))), [])
  }

  function Checked(d: Dispatcher, meta: TxMeta, r: Snapshot): Ending<TxResult> {
    RefDispatch(d, meta, true, Authenticated(d, meta.data, r).0, []).1
  }

  predicate Passes(d: Dispatcher, meta: TxMeta, r: Snapshot) {
    && Authenticated(d, meta.data, r).1.Commit?
    && Checked(d, meta, r).Success? && Checked(d, meta, r).value.result.Ok?
  }

  predicate MayPassLater(d: Dispatcher, meta: TxMeta, r: Snapshot) {
    Authenticated(d, meta.data, r).1 == Rollback(FutureNonce)
  }

  predicate Refuted(d: Dispatcher, meta: TxMeta, r: Snapshot) {
    var auth := Authenticated(d, meta.data, r).1;
    || (auth.Rollback? && auth.val != FutureNonce)
    || (auth.Commit? && Checked(d, meta, r).Success? && !Checked(d, meta, r).value.result.Ok?)
  }

  /** Checking a transaction tells what the interpreter tells. */
  lemma CheckIsRuled(d: Dispatcher, meta: TxMeta, m: Machine, r: Snapshot)
    requires m.Valid() && m.calls == [] && Stands(m.state, r)
    ensures var verdict := PreScheduled(d, meta, m).1;
            && (verdict.Accept? <==> Passes(d, meta, r))
            && (verdict.Skip? <==> MayPassLater(d, meta, r))
            && (verdict.Reject? <==> Refuted(d, meta, r))
            && forall code :: verdict == AbortBatch(code) <==>
                 Authenticated(d, meta.data, r).1.Commit? && Checked(d, meta, r) == Failure(code)
  {
    hide Exec, Run, DispatchTx, RefDispatch, Entered, Copy, Stands, Left;
    var opts := Some(PRE_SCHEDULE);
    var t := m.(state := Entered(m.state, opts));
    EnterRefines(m.state, r, opts);
    RunRefines(d.rt, d.authenticate(meta.data), t, Copy(r, opts));
    var (m1, auth) := Exec(d.rt, d.authenticate(meta.data), t);
    if auth.Commit? {
      DispatchRefines(d, meta, true, m1, Run(d.rt, d.authenticate(meta.data), Copy(r, opts), []).0);
    }
  }

  function MetaOf(d: Dispatcher, tx: Tx, raw: Bytes, n: nat): TxMeta {
    TxMeta(tx, |raw|, n, d.hash(raw))
  }

  /** The rule, for a transaction considered in a snapshot when `n` have been included: each fate is met
      by exactly the transactions described. */
  ghost predicate Deserves(d: Dispatcher, cfg: Config, n: nat, r: Snapshot, raw: Bytes, fate: Fate) {
    var room, decoded := HasRoom(d, cfg, n, r), d.decode(r.content, raw);
    if decoded.None? then
      fate == if room then Rejected else LeftInQueue
    else
      var tx, meta := decoded.value, MetaOf(d, decoded.value, raw, n);
      && (fate.Included? <==> room && Affords(d, tx, r) && Passes(d, meta, r))
      && (fate.Rejected? <==> room && Affords(d, tx, r) && Refuted(d, meta, r))
      && (fate.LeftInQueue? <==> !room || !Affords(d, tx, r) || MayPassLater(d, meta, r))
  }

  /** The whole run ends over a transaction: it is too large, its check panics or aborts the batch, or
      it passes the check and its execution does not succeed. */
  predicate Fatal(d: Dispatcher, cfg: Config, n: nat, r: Snapshot, raw: Bytes) {
    var decoded := d.decode(r.content, raw);
    && HasRoom(d, cfg, n, r) && decoded.Some?
    && (|raw| >= 0x1_0000_0000 ||
        var meta := MetaOf(d, decoded.value, raw, n);
        && Affords(d, decoded.value, r)
        && !MayPassLater(d, meta, r) && !Refuted(d, meta, r)
        && (Passes(d, meta, r) ==> !RefDispatch(d, meta, false, r, []).1.Success?))
  }

  /** The run fails over the transaction with a code, without a panic. */
  predicate Breaks(d: Dispatcher, cfg: Config, n: nat, r: Snapshot, raw: Bytes, code: int) {
    && Fatal(d, cfg, n, r, raw) && |raw| < 0x1_0000_0000
    && var meta := MetaOf(d, d.decode(r.content, raw).value, raw, n);
       || (Authenticated(d, meta.data, r).1.Commit? && Checked(d, meta, r) == Failure(code))
       || (Passes(d, meta, r) && RefDispatch(d, meta, false, r, []).1 == Failure(code))
  }

  /** A considered transaction is the end of the run exactly when the rule says so, and otherwise meets
      the fate it deserves. It changes the machine, the batch and the results only if it is included,
      and the run is over for the rest exactly when there is no room. */
  lemma ConsideredIsRuled(d: Dispatcher, cfg: Config, st: Sched, r: Snapshot, raw: Bytes)
    requires st.m.Valid() && st.m.calls == [] && st.status.Going? && Stands(st.m.state, r)
    ensures var t, n := Consider(d, cfg, st, raw), |st.batch|;
            && (Live(t) <==> !Fatal(d, cfg, n, r, raw))
            && (forall code :: t.status == Broken(code) <==> Breaks(d, cfg, n, r, raw, code))
            && (Live(t) ==>
                  && |t.fates| == |st.fates| + 1 && t.fates[..|st.fates|] == st.fates
                  && t.offered == st.offered + [raw]
                  && Deserves(d, cfg, n, r, raw, t.fates[|st.fates|])
                  && (t.status.Full? <==> !HasRoom(d, cfg, n, r))
                  && Progressed(d, n, r, raw, st, t, t.fates[|st.fates|].Included?))
  {
    hide PreScheduled, Tried, Passes, Refuted, MayPassLater, RefDispatch, Stands;
    RoomIsScreened(d, cfg, st, r, raw);
    match Screened(d, cfg, st, raw)
    case Fits(item) => TriedIsRuled(d, st, r, item);
    case _ =>
  }

  /** The machine and the lists after a transaction. */
  ghost predicate Progressed(d: Dispatcher, n: nat, r: Snapshot, raw: Bytes, st: Sched, t: Sched, included: bool)
    requires t.m.Valid()
  {
    if !included then
      t.m == st.m && t.batch == st.batch && t.results == st.results
    else
      && d.decode(r.content, raw).Some?
      && var tx := d.decode(r.content, raw).value;
         var (c, ending) := RefDispatch(d, MetaOf(d, tx, raw, n), false, r, []);
         && ending.Success? && t.status.Going? && t.m.calls == [] && Stands(t.m.state, c)
         && t.batch == st.batch + [Decoded(raw, tx)] && t.results == st.results + [ending.value]
  }

  lemma RoomIsScreened(d: Dispatcher, cfg: Config, st: Sched, r: Snapshot, raw: Bytes)
    requires st.m.Valid() && Stands(st.m.state, r)
    ensures var screening, decoded := Screened(d, cfg, st, raw), d.decode(r.content, raw);
            && (screening.NoMoreRoom? <==> !HasRoom(d, cfg, |st.batch|, r))
            && (!screening.NoMoreRoom? ==>
                  && (screening.Malformed? <==> decoded.None?)
                  && (decoded.Some? ==>
                        && (screening.Oversized? <==> |raw| >= 0x1_0000_0000)
                        && (screening.DoesNotFit? <==> |raw| < 0x1_0000_0000 && !Affords(d, decoded.value, r))
                        && (screening.Fits? ==> screening.item == Decoded(raw, decoded.value))))
  {
    hide TagsOf;
  }

  lemma TriedIsRuled(d: Dispatcher, st: Sched, r: Snapshot, item: Decoded)
    requires st.m.Valid() && st.m.calls == [] && st.status.Going? && Stands(st.m.state, r)
    requires d.decode(r.content, item.raw) == Some(item.tx)
    ensures var t, n := Tried(d, st, item), |st.batch|;
            var meta := MetaOf(d, item.tx, item.raw, n);
            var runs := RefDispatch(d, meta, false, r, []).1.Success?;
            && (Live(t) <==> MayPassLater(d, meta, r) || Refuted(d, meta, r) || (Passes(d, meta, r) && runs))
            && (forall code :: t.status == Broken(code) <==>
                  || (Authenticated(d, meta.data, r).1.Commit? && Checked(d, meta, r) == Failure(code))
                  || (Passes(d, meta, r) && RefDispatch(d, meta, false, r, []).1 == Failure(code)))
            && (Live(t) ==>
                  && t.status.Going? && t.offered == st.offered + [item.raw]
                  && |t.fates| == |st.fates| + 1 && t.fates[..|st.fates|] == st.fates
                  && var fate := t.fates[|st.fates|];
                     && (fate.Included? <==> Passes(d, meta, r))
                     && (fate.Rejected? <==> Refuted(d, meta, r))
                     && (fate.LeftInQueue? <==> MayPassLater(d, meta, r))
                     && Progressed(d, n, r, item.raw, st, t, fate.Included?))
  {
    hide PreScheduled, DispatchTx, RefDispatch, Passes, Refuted, MayPassLater, Stands;
    var meta := MetaOf(d, item.tx, item.raw, |st.batch|);
    CheckIsRuled(d, meta, st.m, r);
    if !PreScheduled(d, meta, st.m).1.Panic? {
      PreScheduleIsInvisible(d, meta, st.m);
    }
    DispatchRefines(d, meta, false, st.m, r);
  }

  /** Every offered transaction has the fate it deserves in the snapshot to which executing the included
      ones before it leads, and the batch consists of what the included ones decode to there. */
  ghost predicate AllDeserved(d: Dispatcher, cfg: Config, start: Snapshot, batch: seq<Decoded>, offered: seq<Bytes>,
                              fates: seq<Fate>)
    requires |offered| == |fates|
  {
    if offered == [] then batch == []
    else
      var last := |offered| - 1;
      var raw, fate := offered[last], fates[last];
      && (fate.Included? ==> batch != [])
      && var before := if fate.Included? then batch[..|batch| - 1] else batch;
         var r := RefExecuteAll(d, before, start, []).0;
         && AllDeserved(d, cfg, start, before, offered[..last], fates[..last])
         && Deserves(d, cfg, |before|, r, raw, fate)
         && (fate.Included? ==>
               d.decode(r.content, raw).Some? && batch[|before|] == Decoded(raw, d.decode(r.content, raw).value))
  }

  /** The interpreter gives the results of the run, and the rule gives all its fates. */
  ghost predicate RunIsRuled(d: Dispatcher, cfg: Config, start: Snapshot, st: Sched)
    requires st.m.Valid()
  {
    Live(st) ==>
      var (r, ending) := RefExecuteAll(d, st.batch, start, []);
      && st.m.calls == [] && Stands(st.m.state, r) && ending == Success(st.results)
      && |st.offered| == |st.fates| && AllDeserved(d, cfg, start, st.batch, st.offered, st.fates)
      && (st.status.Full? ==> !HasRoom(d, cfg, |st.batch|, r))
  }

  lemma ConsideredStaysRuled(d: Dispatcher, cfg: Config, start: Snapshot, st: Sched, raw: Bytes)
    requires st.m.Valid() && st.status.Going? && RunIsRuled(d, cfg, start, st)
    ensures RunIsRuled(d, cfg, start, Consider(d, cfg, st, raw))
  {
    hide Consider, Deserves, Fatal, HasRoom, RefDispatch, Stands;
    var r := RefExecuteAll(d, st.batch, start, []).0;
    ConsideredIsRuled(d, cfg, st, r, raw);
    var t := Consider(d, cfg, st, raw);
    if Live(t) {
      var fate := t.fates[|st.fates|];
      assert t.offered[..|st.offered|] == st.offered;
      if fate.Included? {
        assert t.batch[..|st.batch|] == st.batch;
      }
    }
  }

  lemma LeavingStaysRuled(d: Dispatcher, cfg: Config, start: Snapshot, st: Sched, raw: Bytes)
    requires st.m.Valid() && st.status.Full? && RunIsRuled(d, cfg, start, st)
    ensures RunIsRuled(d, cfg, start, st.Fated(raw, LeftInQueue))
  {
    hide HasRoom, Stands, Affords, Passes, Refuted, MayPassLater;
    var t := st.Fated(raw, LeftInQueue);
    assert t.offered[..|st.offered|] == st.offered && t.fates[..|st.fates|] == st.fates;
  }

  lemma {:induction false} DrainStaysRuled(d: Dispatcher, cfg: Config, start: Snapshot, st: Sched, batch: seq<Bytes>)
    requires st.m.Valid() && RunIsRuled(d, cfg, start, st)
    ensures RunIsRuled(d, cfg, start, Drained(d, cfg, st, batch))
    decreases |batch|
  {
    hide RunIsRuled, Consider;
    if batch != [] && st.status.Going? {
      ConsideredStaysRuled(d, cfg, start, st, batch[0]);
      DrainStaysRuled(d, cfg, start, Consider(d, cfg, st, batch[0]), batch[1..]);
    } else if batch != [] && st.status.Full? {
      LeavingStaysRuled(d, cfg, start, st, batch[0]);
      DrainStaysRuled(d, cfg, start, st.Fated(batch[0], LeftInQueue), batch[1..]);
    }
  }

  /** Over the whole loop, whatever the host answers: unless the run fails, every transaction of every
      batch has the fate it deserves. */
  lemma {:induction false} ScheduleIsRuled(d: Dispatcher, cfg: Config, start: Snapshot, st: Sched, batch: seq<Bytes>,
                                           requested: nat, answers: seq<Fetched>)
    requires st.m.Valid() && RunIsRuled(d, cfg, start, st)
    ensures RunIsRuled(d, cfg, start, Scheduled(d, cfg, st, batch, requested, answers))
    decreases |answers|
  {
    hide Drained, AllDeserved, HasRoom;
    DrainStaysRuled(d, cfg, start, st, batch);
    if answers != [] && answers[0].More? {
      ScheduleIsRuled(d, cfg, start, Drained(d, cfg, st, batch), answers[0].batch, cfg.batchSize, answers[1..]);
    }
  }

  /** Everything the host would offer to a block that never fills up: it is asked for more after every
      batch that is not empty and at least as long as was requested. */
  function Offers(cfg: Config, batch: seq<Bytes>, requested: nat, answers: seq<Fetched>): seq<Bytes>
    decreases |answers|
  {
    if 0 < |batch| && requested <= |batch| && answers != [] && answers[0].More?
    then batch + Offers(cfg, answers[0].batch, cfg.batchSize, answers[1..])
    else batch
  }

  lemma {:induction false} OffersAreMade(d: Dispatcher, cfg: Config, st: Sched, batch: seq<Bytes>, requested: nat,
                                         answers: seq<Fetched>)
    requires st.m.Valid() && Accounted(d, cfg, st)
    ensures var r := Scheduled(d, cfg, st, batch, requested, answers);
            var all := st.offered + Offers(cfg, batch, requested, answers);
            Live(r) ==> r.offered <= all && (r.status.Going? ==> r.offered == all)
    decreases |answers|
  {
    hide Drained, Accounted;
    DrainAccounts(d, cfg, st, batch);
    var st1 := Drained(d, cfg, st, batch);
    if st1.status.Going? && 0 < |batch| && requested <= |batch| && answers != [] && answers[0].More? {
      var rest := Offers(cfg, answers[0].batch, cfg.batchSize, answers[1..]);
      OffersAreMade(d, cfg, st1, answers[0].batch, cfg.batchSize, answers[1..]);
      assert st.offered + batch + rest == st.offered + (batch + rest);
    }
  }

  lemma ProposedRunIsRuled(d: Dispatcher, cfg: Config, m: Machine, start: Snapshot, batch: seq<Bytes>,
                           answers: seq<Fetched>)
    requires m.Valid() && m.calls == [] && Stands(m.state, start)
    ensures var st := Scheduled(d, cfg, Fresh(m), batch, cfg.initialBatchSize, answers);
            var (end, ending) := RefExecuteAll(d, st.batch, start, []);
            Live(st) ==>
              && |st.offered| == |st.fates| && AllDeserved(d, cfg, start, st.batch, st.offered, st.fates)
              && OffersFrom(cfg, batch, answers, st.offered, HasRoom(d, cfg, |st.batch|, end))
              && ending == Success(st.results)
              && st.rejected == Hashes(d, Selected(st.offered, st.fates, Rejected))
  {
    hide Scheduled, RefExecuteAll, Stands, HasRoom, AllDeserved, Offers, Selected, Hashes;
    FreshIsRuled(d, cfg, start, m);
    ScheduleIsRuled(d, cfg, start, Fresh(m), batch, cfg.initialBatchSize, answers);
    ScheduleAccounts(d, cfg, Fresh(m), batch, cfg.initialBatchSize, answers);
    OffersAreMade(d, cfg, Fresh(m), batch, cfg.initialBatchSize, answers);
    assert [] + Offers(cfg, batch, cfg.initialBatchSize, answers) ==
        Offers(cfg, batch, cfg.initialBatchSize, answers);
  }

  /** The offered transactions are what the host has to offer, all of it if there is room to the end. */
  predicate OffersFrom(cfg: Config, batch: seq<Bytes>, answers: seq<Fetched>, offered: seq<Bytes>, room: bool) {
    var all := Offers(cfg, batch, cfg.initialBatchSize, answers);
    offered <= all && (room ==> offered == all)
  }

  /** A proposer's block. Every offered transaction has the fate it deserves; the offered ones are what
      the host has to offer, all of it if there is room left at the end; the batch is executed as the
      interpreter does; the rejected hashes are those of the transactions rejected, in order. */
  lemma ProposedBlockIsRuled(d: Dispatcher, cfg: Config, root: Content, events: seq<MessageEvent>, batch: seq<Bytes>,
                             answers: seq<Fetched>)
    requires ScheduleAndExecute(d, cfg, root, events, batch, answers).0.Success?
    ensures var (block, items) := ScheduleAndExecute(d, cfg, root, events, batch, answers);
            var start := RefBegun(d, root, events).0;
            var (end, ending) := RefExecuteAll(d, items, start, []);
            && ending == Success(block.value.results)
            && exists offered, fates | |offered| == |fates| && AllDeserved(d, cfg, start, items, offered, fates) ::
                 && OffersFrom(cfg, batch, answers, offered, HasRoom(d, cfg, |items|, end))
                 && block.value.rejected == Hashes(d, Selected(offered, fates, Rejected))
  {
    hide Begun, RefBegun, Scheduled, RefExecuteAll, Stands, HasRoom, AllDeserved, OffersFrom, Selected, Hashes, Exec;
    BegunRefines(d, root, events);
    ProposedRunIsRuled(d, cfg, Begun(d, root, events).0, RefBegun(d, root, events).0, batch, answers);
  }

  lemma FreshIsRuled(d: Dispatcher, cfg: Config, start: Snapshot, m: Machine)
    requires m.Valid() && m.calls == [] && Stands(m.state, start)
    ensures RunIsRuled(d, cfg, start, Fresh(m)) && Accounted(d, cfg, Fresh(m))
  {
  }
}
