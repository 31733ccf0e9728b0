/** Executing and scheduling batches of transactions (runtime-sdk/src/dispatcher.rs): what a proposer
    that schedules while executing and a validator that replays the batch compute. */
module Batches {
  import opened Basics
  import opened Storage
  import opened BlockState
  import opened Programs
  import opened Guards
  import opened Transactions
  import opened Dispatching

  const U32 := 0x1_0000_0000

  datatype Config = Config(initialBatchSize: nat, batchSize: nat, minRemainingGas: nat, maxTxCount: nat)

  /** A raw transaction and what it was decoded to. */
  datatype Decoded = Decoded(raw: Bytes, tx: Tx)

  function Raws(items: seq<Decoded>): seq<Bytes> {
    seq(|items|, i requires 0 <= i < |items| => items[i].raw)
  }

  function Meta(d: Dispatcher, item: Decoded, index: nat): TxMeta {
    TxMeta(item.tx, |item.raw|, index, d.hash(item.raw))
  }

  /** The batch gas that is left, saturating at zero. */
  function RemainingGas(d: Dispatcher, m: Machine): nat
    requires m.Valid()
  {
    var limit, used := d.maxBatchGas(m.Content()), d.usedBatchGas(m.state.blockValues);
    if used <= limit then limit - used else 0
  }

  /** Execute a transaction at a position of the batch. */
  function ExecuteTx(d: Dispatcher, item: Decoded, index: nat, m: Machine): (r: (Machine, Ending<TxResult>))
    requires m.Valid()
    ensures Framed(m, r.0, r.1.Panicked?)
  {
    DispatchTx(d, Meta(d, item, index), false, m)
  }

  /** Execute decoded transactions in order. */
  function ExecuteAll(d: Dispatcher, items: seq<Decoded>, m: Machine): (r: (Machine, Ending<seq<TxResult>>))
    requires m.Valid()
    ensures Framed(m, r.0, r.1.Panicked?)
    ensures r.1.Success? ==> |r.1.value| == |items|
  {
    if items == [] then (m, Success([]))
    else
      var last := |items| - 1;
      var (n, results) := ExecuteAll(d, items[..last], m);
      if !results.Success? then (n, results)
      else
        var (n, result) := ExecuteTx(d, items[last], last, n);
        match result
        case Success(value) => (n, Success(results.value + [value]))
        case Failure(code) => (n, Failure(code))
        case Panicked => (n, Panicked)
  }

  const MALFORMED := 2
  const PREFETCH_FAILED := 3

  /** A validator accepts a raw transaction for execution. */
  predicate Acceptable(d: Dispatcher, content: Content, raw: Bytes) {
    && |raw| < U32 && d.decode(content, raw).Some?
    && (d.prefetchEnabled ==> d.prefetches(d.decode(content, raw).value))
  }

  /** A validator accepts the transaction, and as what it was decoded to. */
  predicate DecodesTo(d: Dispatcher, content: Content, item: Decoded) {
    Acceptable(d, content, item.raw) && d.decode(content, item.raw) == Some(item.tx)
  }

  /** A validator decodes the whole batch against the state it has before executing any of it. */
  function DecodeAll(d: Dispatcher, content: Content, batch: seq<Bytes>): (r: Ending<seq<Decoded>>)
    ensures r.Success? <==> forall i | 0 <= i < |batch| :: Acceptable(d, content, batch[i])
    ensures r.Success? ==> Raws(r.value) == batch && forall i | 0 <= i < |batch| :: DecodesTo(d, content, r.value[i])
    ensures !r.Success? ==> r == Failure(MALFORMED) || r == Failure(PREFETCH_FAILED)
  {
    if batch == [] then Success([])
    else
      var last := batch[|batch| - 1];
      var r := DecodeAll(d, content, batch[..|batch| - 1]);
      if !r.Success? then r
      else if |last| >= U32 || d.decode(content, last).None? then Failure(MALFORMED)
      else if d.prefetchEnabled && !d.prefetches(d.decode(content, last).value) then Failure(PREFETCH_FAILED)
      else
        var items := r.value + [Decoded(last, d.decode(content, last).value)];
        assert Raws(items) == batch;
        Success(items)
  }

  /** The first transaction that is not acceptable decides the failure. */
  lemma {:induction false} DecodingFailsAtTheFirst(d: Dispatcher, content: Content, batch: seq<Bytes>, i: nat)
    requires i < |batch| && !Acceptable(d, content, batch[i])
    requires forall j | 0 <= j < i :: Acceptable(d, content, batch[j])
    ensures DecodeAll(d, content, batch) ==
            Failure(if |batch[i]| < U32 && d.decode(content, batch[i]).Some? then PREFETCH_FAILED else MALFORMED)
  {
    var last := |batch| - 1;
    if i < last {
      DecodingFailsAtTheFirst(d, content, batch[..last], i);
    }
  }

  /** Decoding a batch again gives the same transactions exactly when each of them decodes to what it
      was before. */
  lemma DecodingReproduces(d: Dispatcher, content: Content, items: seq<Decoded>)
    ensures DecodeAll(d, content, Raws(items)) == Success(items) <==>
            forall i | 0 <= i < |items| :: DecodesTo(d, content, items[i])
  {
    var batch := Raws(items);
    var r := DecodeAll(d, content, batch);
    if forall i | 0 <= i < |items| :: DecodesTo(d, content, items[i]) {
      assert forall i | 0 <= i < |batch| :: Acceptable(d, content, batch[i]) by {
        assert forall i | 0 <= i < |batch| :: DecodesTo(d, content, items[i]) && batch[i] == items[i].raw;
      }
      forall i | 0 <= i < |items| ensures r.value[i] == items[i] {
        assert Raws(r.value)[i] == batch[i];
        assert DecodesTo(d, content, r.value[i]) && DecodesTo(d, content, items[i]);
      }
      assert r.value == items;
    }
  }

  datatype Verdict = Accept | Skip | Reject | AbortBatch(code: int) | Panic

  const PRE_SCHEDULE := NO_OPTIONS.(mode := Some(PreSchedule))

  /** The closure run in pre-schedule mode. */
  function PreChecked(d: Dispatcher, meta: TxMeta, m: Machine): (r: (Machine, Verdict))
    requires m.Valid()
    ensures Framed(m, r.0, r.1.Panic?)
  {
    var (m1, auth) := Exec(d.rt, d.authenticate(meta.data), m);
    match auth
    case Unwind => (m1, Panic)
    case Rollback(error) => (m1, if error.FutureNonce? then Skip else Reject)
    case Commit(_) =>
      var (m2, result) := DispatchTx(d, meta, true, m1);
      match result
      case Panicked => (m2, Panic)
      case Failure(code) => (m2, AbortBatch(code))
      case Success(value) => (m2, if value.result.Ok? then Accept else Reject)
  }

  /** Check a candidate in a pre-schedule transaction. */
  function PreScheduled(d: Dispatcher, meta: TxMeta, m: Machine): (r: (Machine, Verdict))
    requires m.Valid()
    ensures Framed(m, r.0, r.1.Panic?)
  {
    var opts := Some(PRE_SCHEDULE);
    var t := Entered(m.state, opts);
    var (n, verdict) := PreChecked(d, meta, m.(state := t));
    var outcome := match verdict
      case Panic => Unwind
      case AbortBatch(_) => Rollback(Num(0))
      case _ => Commit(Num(0));
    LeftIsFramed(m, opts, n, outcome);
    (n.(state := Left(n.state, outcome, Guard(opts, t))), verdict)
  }

  /** Checking a candidate, whatever the modules do, leaves the machine exactly as it was. */
  lemma PreScheduleIsInvisible(d: Dispatcher, meta: TxMeta, m: Machine)
    requires m.Valid() && !PreScheduled(d, meta, m).1.Panic?
    ensures PreScheduled(d, meta, m).0 == m
  {
    var t := Entered(m.state, Some(PRE_SCHEDULE));
    var (n, verdict) := PreChecked(d, meta, m.(state := t));
    DiscardRestores(m, PRE_SCHEDULE, n, if verdict.AbortBatch? then Rollback(Num(0)) else Commit(Num(0)));
  }

  /** No program that a transaction runs opens a bare transaction. */
  ghost predicate DispatcherGuarded(d: Dispatcher) {
    && RuntimeGuarded(d.rt)
    && (forall tx :: Guarded(d.authenticate(tx)))
    && (forall tx, result :: Guarded(d.afterDispatch(tx, result)))
  }

  lemma GuardedRun(rt: Runtime, p: Prog, m: Machine)
    requires m.Valid() && RuntimeGuarded(rt) && Guarded(p)
    ensures Exec(rt, p, m).0.state.Level() == m.state.Level()
  {
    hide Leaks, Guarded, RuntimeGuarded;
    GuardedNeverLeaks(rt, p, m);
    LevelsAreRestored(rt, p, m);
  }

  lemma GuardedRunTx(d: Dispatcher, meta: TxMeta, m: Machine)
    requires m.Valid() && DispatcherGuarded(d)
    ensures RunTx(d, meta, m).0.state.Level() == m.state.Level()
  {
    hide DispatchCall, Entered, CallLeaks, Concluded;
    var opts := TxOptions(meta);
    var t := m.(state := Entered(m.state, Some(opts)));
    GuardedCall(d.rt, meta.data.call, t);
    CallRestores(d.rt, meta.data.call, t);
    var (n, result) := DispatchCall(d.rt, meta.data.call, t);
    if result.None? {
      GuardCloses(m, opts, n, Unwind);
    }
  }

  lemma GuardedDispatch(d: Dispatcher, meta: TxMeta, skipAuthentication: bool, m: Machine)
    requires m.Valid() && DispatcherGuarded(d)
    ensures DispatchTx(d, meta, skipAuthentication, m).0.state.Level() == m.state.Level()
  {
    hide Exec, RunTx;
    if !skipAuthentication {
      GuardedRun(d.rt, d.authenticate(meta.data), m);
    }
    var (m1, auth) := if skipAuthentication then (m, Commit(Num(0))) else Exec(d.rt, d.authenticate(meta.data), m);
    if auth.Commit? {
      GuardedRunTx(d, meta, m1);
      var (m2, result) := RunTx(d, meta, m1);
      if result.Some? {
        GuardedRun(d.rt, d.afterDispatch(meta.data, result.value.result), m2);
      }
    }
  }

  /** Of modules without bare transactions even a check that panics leaves no trace. */
  lemma GuardedCheckIsInvisible(d: Dispatcher, meta: TxMeta, m: Machine)
    requires m.Valid() && DispatcherGuarded(d)
    ensures PreScheduled(d, meta, m).0 == m
  {
    hide Exec, DispatchTx, DispatcherGuarded, Entered;
    var t := m.(state := Entered(m.state, Some(PRE_SCHEDULE)));
    assert RuntimeGuarded(d.rt) && Guarded(d.authenticate(meta.data)) by { AuthenticationIsGuarded(d, meta.data); }
    GuardedRun(d.rt, d.authenticate(meta.data), t);
    var (m1, auth) := Exec(d.rt, d.authenticate(meta.data), t);
    if auth.Commit? {
      GuardedDispatch(d, meta, true, m1);
    }
    var (n, verdict) := PreChecked(d, meta, t);
    var outcome := match verdict case Panic => Unwind case AbortBatch(_) => Rollback(Num(0)) case _ => Commit(Num(0));
    DiscardRestores(m, PRE_SCHEDULE, n, outcome);
  }

  lemma AuthenticationIsGuarded(d: Dispatcher, tx: Tx)
    requires DispatcherGuarded(d)
    ensures RuntimeGuarded(d.rt) && Guarded(d.authenticate(tx))
  {
  }

  datatype Status = Going | Full | Broken(code: int) | Crashed
  datatype Fate = Included | Rejected | LeftInQueue

  /** The local variables of the scheduling loop, and the fate of every transaction offered so far. */
  datatype Sched = Sched(
    m: Machine, batch: seq<Decoded>, results: seq<TxResult>, rejected: seq<Bytes>, status: Status,
    offered: seq<Bytes>, fates: seq<Fate>)
  {
    function Fated(raw: Bytes, fate: Fate): Sched {
      this.(offered := offered + [raw], fates := fates + [fate])
    }
  }

  datatype Screening = NoMoreRoom | Malformed | Oversized | DoesNotFit | Fits(item: Decoded)

  /** What the loop decides about a transaction from its bytes, the store and the limits alone. */
  function Screened(d: Dispatcher, cfg: Config, st: Sched, raw: Bytes): Screening
    requires st.m.Valid()
  {
    var remaining := RemainingGas(d, st.m);
    var tx := d.decode(st.m.Content(), raw);
    var count := st.m.state.MessageCount() % U32;
    var slots := if count <= d.rt.maxMessages then d.rt.maxMessages - count else 0;
    if remaining < cfg.minRemainingGas || |st.batch| >= cfg.maxTxCount then NoMoreRoom
    else if tx.None? then Malformed
    else if |raw| >= U32 then Oversized
    else if tx.value.gas > remaining || tx.value.consensusMessages > slots then DoesNotFit
    else Fits(Decoded(raw, tx.value))
  }

  /** Consider one transaction for inclusion. */
  function Consider(d: Dispatcher, cfg: Config, st: Sched, raw: Bytes): (r: Sched)
    requires st.m.Valid()
    ensures r.m.Valid()
  {
    match Screened(d, cfg, st, raw)
    case NoMoreRoom => st.(status := Full).Fated(raw, LeftInQueue)
    case Malformed => st.(rejected := st.rejected + [d.hash(raw)]).Fated(raw, Rejected)
    case Oversized => st.(status := Crashed)
    case DoesNotFit => st.Fated(raw, LeftInQueue)
    case Fits(item) => Tried(d, st, item)
  }

  /** Pre-check a transaction that fits, and execute it if the check passes. */
  function Tried(d: Dispatcher, st: Sched, item: Decoded): (r: Sched)
    requires st.m.Valid()
    ensures r.m.Valid()
  {
    var (m1, verdict) := PreScheduled(d, Meta(d, item, |st.batch|), st.m);
    var st := st.(m := m1);
    match verdict
    case Panic => st.(status := Crashed)
    case AbortBatch(code) => st.(status := Broken(code))
    case Skip => st.Fated(item.raw, LeftInQueue)
    case Reject => st.(rejected := st.rejected + [d.hash(item.raw)]).Fated(item.raw, Rejected)
    case Accept => Executed(d, st, item)
  }

  function Executed(d: Dispatcher, st: Sched, item: Decoded): (r: Sched)
    requires st.m.Valid()
    ensures r.m.Valid()
  {
    var (m1, result) := ExecuteTx(d, item, |st.batch|, st.m);
    var st := st.(m := m1, batch := st.batch + [item]);
    match result
    case Panicked => st.(status := Crashed)
    case Failure(code) => st.(status := Broken(code))
    case Success(value) => st.(results := st.results + [value]).Fated(item.raw, Included)
  }

  /** Drain a batch. Once the block is full the rest of the batch stays in the queue. */
  function Drained(d: Dispatcher, cfg: Config, st: Sched, batch: seq<Bytes>): (r: Sched)
    requires st.m.Valid()
    ensures r.m.Valid()
    decreases |batch|
  {
    if batch == [] then st
    else
      match st.status
      case Going => Drained(d, cfg, Consider(d, cfg, st, batch[0]), batch[1..])
      case Full => Drained(d, cfg, st.Fated(batch[0], LeftInQueue), batch[1..])
      case _ => st
  }

  datatype Fetched = More(batch: seq<Bytes>) | NoMore | FetchFailed

  const FETCH_FAILED := 1

  /** The scheduling loop, for the answers the host gives to requests for more transactions. */
  function Scheduled(d: Dispatcher, cfg: Config, st: Sched, batch: seq<Bytes>, requested: nat,
                     answers: seq<Fetched>): (r: Sched)
    requires st.m.Valid()
    ensures r.m.Valid()
    decreases |answers|
  {
    var st := Drained(d, cfg, st, batch);
    if st.status.Going? && batch != [] && |batch| >= requested && answers != [] then
      match answers[0]
      case More(fetched) => Scheduled(d, cfg, st, fetched, cfg.batchSize, answers[1..])
      case NoMore => st
      case FetchFailed => st.(status := Broken(FETCH_FAILED))
    else st
  }

  predicate Live(st: Sched) {
    st.status.Going? || st.status.Full?
  }

  /** The proposer is where plain execution of the included transactions from `m0` would be. */
  ghost predicate Replays(d: Dispatcher, m0: Machine, st: Sched)
    requires m0.Valid()
  {
    Live(st) ==> ExecuteAll(d, st.batch, m0) == (st.m, Success(st.results))
  }

  lemma ExecutedReplays(d: Dispatcher, m0: Machine, st: Sched, item: Decoded)
    requires m0.Valid() && st.m.Valid() && st.status.Going? && Replays(d, m0, st)
    ensures Replays(d, m0, Executed(d, st, item))
  {
    hide ExecuteTx;
    assert (st.batch + [item])[..|st.batch|] == st.batch;
  }

  lemma ConsiderReplays(d: Dispatcher, cfg: Config, m0: Machine, st: Sched, raw: Bytes)
    requires m0.Valid() && st.m.Valid() && st.status.Going? && Replays(d, m0, st)
    ensures Replays(d, m0, Consider(d, cfg, st, raw))
  {
    hide PreScheduled, Executed, RemainingGas, ExecuteAll;
    match Screened(d, cfg, st, raw)
    case Fits(item) =>
      var meta := Meta(d, item, |st.batch|);
      if !PreScheduled(d, meta, st.m).1.Panic? {
        PreScheduleIsInvisible(d, meta, st.m);
        ExecutedReplays(d, m0, st, item);
      }
    case _ =>
  }

  lemma {:induction false} DrainReplays(d: Dispatcher, cfg: Config, m0: Machine, st: Sched, batch: seq<Bytes>)
    requires m0.Valid() && st.m.Valid() && Replays(d, m0, st)
    ensures Replays(d, m0, Drained(d, cfg, st, batch))
    decreases |batch|
  {
    if batch != [] && st.status.Going? {
      ConsiderReplays(d, cfg, m0, st, batch[0]);
      DrainReplays(d, cfg, m0, Consider(d, cfg, st, batch[0]), batch[1..]);
    } else if batch != [] && st.status.Full? {
      DrainReplays(d, cfg, m0, st.Fated(batch[0], LeftInQueue), batch[1..]);
    }
  }

  /** Whatever the host offers and whatever the modules do, a proposer that has not failed is exactly
      where executing its new batch from the start would have led, with the same results. */
  lemma {:induction false} ScheduleReplays(d: Dispatcher, cfg: Config, m0: Machine, st: Sched, batch: seq<Bytes>,
                                           requested: nat, answers: seq<Fetched>)
    requires m0.Valid() && st.m.Valid() && Replays(d, m0, st)
    ensures Replays(d, m0, Scheduled(d, cfg, st, batch, requested, answers))
    decreases |answers|
  {
    hide Drained, ExecuteAll;
    DrainReplays(d, cfg, m0, st, batch);
    var st1 := Drained(d, cfg, st, batch);
    if answers != [] && answers[0].More? {
      ScheduleReplays(d, cfg, m0, st1, answers[0].batch, cfg.batchSize, answers[1..]);
    }
  }

  /** The offered transactions with a given fate, in order. */
  function Selected(offered: seq<Bytes>, fates: seq<Fate>, fate: Fate): seq<Bytes>
    requires |offered| == |fates|
  {
    if offered == [] then []
    else
      var last := |offered| - 1;
      Selected(offered[..last], fates[..last], fate) + if fates[last] == fate then [offered[last]] else []
  }

  function Hashes(d: Dispatcher, raws: seq<Bytes>): seq<Bytes> {
    seq(|raws|, i requires 0 <= i < |raws| => d.hash(raws[i]))
  }

  /** Every offered transaction has exactly one fate; the new batch is the in-order subsequence of
      the included ones, aligned with the results and within the configured count; the rejected
      hashes are those of the rejected ones, once each. */
  ghost predicate Accounted(d: Dispatcher, cfg: Config, st: Sched) {
    Live(st) ==>
      && |st.offered| == |st.fates|
      && Raws(st.batch) == Selected(st.offered, st.fates, Included)
      && st.rejected == Hashes(d, Selected(st.offered, st.fates, Rejected))
      && |st.results| == |st.batch| <= cfg.maxTxCount
  }

  lemma FatedSelects(st: Sched, raw: Bytes, fate: Fate, f: Fate)
    requires |st.offered| == |st.fates|
    ensures var t := st.Fated(raw, fate);
            Selected(t.offered, t.fates, f) == Selected(st.offered, st.fates, f) + if fate == f then [raw] else []
  {
    assert (st.offered + [raw])[..|st.offered|] == st.offered && (st.fates + [fate])[..|st.fates|] == st.fates;
  }

  /** One more transaction has got its fate, and the lists have grown accordingly. */
  predicate Extends(d: Dispatcher, st: Sched, raw: Bytes, r: Sched) {
    && |r.fates| == |st.fates| + 1
    && var fate := r.fates[|st.fates|];
       && r.offered == st.Fated(raw, fate).offered && r.fates == st.Fated(raw, fate).fates
       && Raws(r.batch) == Raws(st.batch) + (if fate.Included? then [raw] else [])
       && |r.batch| == |st.batch| + (if fate.Included? then 1 else 0)
       && |r.results| == |st.results| + (if fate.Included? then 1 else 0)
       && r.rejected == st.rejected + (if fate.Rejected? then [d.hash(raw)] else [])
  }

  lemma TriedExtends(d: Dispatcher, st: Sched, item: Decoded)
    requires st.m.Valid()
    ensures var r := Tried(d, st, item); Live(r) ==> Extends(d, st, item.raw, r)
  {
    hide PreScheduled, ExecuteTx;
    assert Raws(st.batch + [item]) == Raws(st.batch) + [item.raw];
    assert Raws(st.batch) + [] == Raws(st.batch) && st.rejected + [] == st.rejected;
  }

  lemma ConsiderExtends(d: Dispatcher, cfg: Config, st: Sched, raw: Bytes)
    requires st.m.Valid() && st.status.Going?
    ensures var r := Consider(d, cfg, st, raw);
            Live(r) ==> Extends(d, st, raw, r) && (|st.batch| <= cfg.maxTxCount ==> |r.batch| <= cfg.maxTxCount)
  {
    hide Tried, RemainingGas;
    match Screened(d, cfg, st, raw)
    case Fits(item) => TriedExtends(d, st, item);
    case _ => assert Raws(st.batch) + [] == Raws(st.batch) && st.rejected + [] == st.rejected;
  }

  lemma ConsiderAccounts(d: Dispatcher, cfg: Config, st: Sched, raw: Bytes)
    requires st.m.Valid() && st.status.Going? && Accounted(d, cfg, st)
    ensures Accounted(d, cfg, Consider(d, cfg, st, raw))
    ensures var r := Consider(d, cfg, st, raw); Live(r) ==> r.offered == st.offered + [raw]
  {
    var r := Consider(d, cfg, st, raw);
    ConsiderExtends(d, cfg, st, raw);
    if Live(r) {
      var fate := r.fates[|st.fates|];
      FatedSelects(st, raw, fate, Included);
      FatedSelects(st, raw, fate, Rejected);
      var rejects := Selected(st.offered, st.fates, Rejected);
      assert Hashes(d, rejects + [raw]) == Hashes(d, rejects) + [d.hash(raw)];
    }
  }

  lemma LeavingAccounts(d: Dispatcher, cfg: Config, st: Sched, raw: Bytes)
    requires st.status.Full? && Accounted(d, cfg, st)
    ensures Accounted(d, cfg, st.Fated(raw, LeftInQueue))
  {
    FatedSelects(st, raw, LeftInQueue, Included);
    FatedSelects(st, raw, LeftInQueue, Rejected);
  }

  lemma {:induction false} DrainAccounts(d: Dispatcher, cfg: Config, st: Sched, batch: seq<Bytes>)
    requires st.m.Valid() && Accounted(d, cfg, st)
    ensures var r := Drained(d, cfg, st, batch); Accounted(d, cfg, r) && (Live(r) ==> r.offered == st.offered + batch)
    decreases |batch|
  {
    hide Consider, Accounted;
    if batch != [] && Live(st) {
      var next := if st.status.Going? then Consider(d, cfg, st, batch[0]) else st.Fated(batch[0], LeftInQueue);
      if st.status.Going? {
        ConsiderAccounts(d, cfg, st, batch[0]);
      } else {
        LeavingAccounts(d, cfg, st, batch[0]);
      }
      DrainAccounts(d, cfg, next, batch[1..]);
      if Live(Drained(d, cfg, next, batch[1..])) {
        assert Live(next);
        assert st.offered + [batch[0]] + batch[1..] == st.offered + batch;
      }
    } else if Live(st) {
      assert st.offered + batch == st.offered;
    }
  }

  /** The transactions of all batches that a run fetches, in order. */
  function FetchedIn(d: Dispatcher, cfg: Config, st: Sched, batch: seq<Bytes>, requested: nat,
                     answers: seq<Fetched>): seq<Bytes>
    requires st.m.Valid()
    decreases |answers|
  {
    var st := Drained(d, cfg, st, batch);
    if st.status.Going? && batch != [] && |batch| >= requested && answers != [] && answers[0].More?
    then answers[0].batch + FetchedIn(d, cfg, st, answers[0].batch, cfg.batchSize, answers[1..])
    else []
  }

  /** Accounting over the whole loop: what was offered is the initial batch and every batch fetched. */
  lemma {:induction false} ScheduleAccounts(d: Dispatcher, cfg: Config, st: Sched, batch: seq<Bytes>, requested: nat,
                                            answers: seq<Fetched>)
    requires st.m.Valid() && Accounted(d, cfg, st)
    ensures var r := Scheduled(d, cfg, st, batch, requested, answers);
            && Accounted(d, cfg, r)
            && (Live(r) ==> r.offered == st.offered + batch + FetchedIn(d, cfg, st, batch, requested, answers))
    decreases |answers|
  {
    hide Drained, Selected, Hashes;
    DrainAccounts(d, cfg, st, batch);
    var st1 := Drained(d, cfg, st, batch);
    if st1.status.Going? && batch != [] && |batch| >= requested && answers != [] && answers[0].More? {
      var fetched, rest := answers[0].batch, answers[1..];
      ScheduleAccounts(d, cfg, st1, fetched, cfg.batchSize, rest);
      var more := FetchedIn(d, cfg, st1, fetched, cfg.batchSize, rest);
      assert st.offered + batch + fetched + more == st.offered + batch + (fetched + more);
    } else {
      assert st.offered + batch + [] == st.offered + batch;
    }
  }

  /** The transaction is what its bytes decode to in some state. */
  ghost predicate FromBytes(d: Dispatcher, item: Decoded) {
    exists content :: d.decode(content, item.raw) == Some(item.tx)
  }

  ghost predicate AllFromBytes(d: Dispatcher, st: Sched) {
    forall i | 0 <= i < |st.batch| :: FromBytes(d, st.batch[i])
  }

  lemma ConsiderDecodes(d: Dispatcher, cfg: Config, st: Sched, raw: Bytes)
    requires st.m.Valid() && AllFromBytes(d, st)
    ensures AllFromBytes(d, Consider(d, cfg, st, raw))
  {
    hide PreScheduled, ExecuteTx, RemainingGas;
    match Screened(d, cfg, st, raw)
    case Fits(item) => assert FromBytes(d, item);
    case _ =>
  }

  lemma {:induction false} DrainDecodes(d: Dispatcher, cfg: Config, st: Sched, batch: seq<Bytes>)
    requires st.m.Valid() && AllFromBytes(d, st)
    ensures AllFromBytes(d, Drained(d, cfg, st, batch))
    decreases |batch|
  {
    hide Consider;
    if batch != [] && st.status.Going? {
      ConsiderDecodes(d, cfg, st, batch[0]);
      DrainDecodes(d, cfg, Consider(d, cfg, st, batch[0]), batch[1..]);
    } else if batch != [] && st.status.Full? {
      DrainDecodes(d, cfg, st.Fated(batch[0], LeftInQueue), batch[1..]);
    }
  }

  /** A proposer only includes what it has decoded. */
  lemma {:induction false} ScheduleDecodes(d: Dispatcher, cfg: Config, st: Sched, batch: seq<Bytes>, requested: nat,
                                           answers: seq<Fetched>)
    requires st.m.Valid() && AllFromBytes(d, st)
    ensures AllFromBytes(d, Scheduled(d, cfg, st, batch, requested, answers))
    decreases |answers|
  {
    hide Drained;
    DrainDecodes(d, cfg, st, batch);
    if answers != [] && answers[0].More? {
      ScheduleDecodes(d, cfg, Drained(d, cfg, st, batch), answers[0].batch, cfg.batchSize, answers[1..]);
    }
  }
}
