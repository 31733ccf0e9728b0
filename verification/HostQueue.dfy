/** The scheduling loop against a host with a finite transaction queue
    (runtime-sdk/src/schedule_control.rs): it is one of the runs already covered, and it terminates
    exactly for queues in which no hash is repeated. */
module HostQueue {
  import opened Basics
  import opened Programs
  import opened Dispatching
  import opened Batches

  /** Where the transaction with the given hash is first met in the queue. */
  function IndexOf(d: Dispatcher, queue: seq<Bytes>, hash: Bytes): (i: nat)
    ensures i <= |queue|
    ensures i < |queue| ==> d.hash(queue[i]) == hash
    ensures forall j | 0 <= j < i :: d.hash(queue[j]) != hash
  {
    if queue == [] || d.hash(queue[0]) == hash then 0 else 1 + IndexOf(d, queue[1..], hash)
  }

  /** Skip transactions until the offset is encountered and return at most `limit` following ones. */
  function Fetch(d: Dispatcher, queue: seq<Bytes>, offset: Bytes, limit: nat): (r: Fetched)
    ensures !r.FetchFailed?
  {
    var i := IndexOf(d, queue, offset);
    if i == |queue| then NoMore
    else More(queue[i + 1..if i + 1 + limit <= |queue| then i + 1 + limit else |queue|])
  }

  /** The pool holds a transaction at most once. */
  predicate DistinctHashes(d: Dispatcher, queue: seq<Bytes>) {
    forall i, j | 0 <= i < j < |queue| :: d.hash(queue[i]) != d.hash(queue[j])
  }

  /** How much of the queue lies after the last transaction of a batch, counting that one. */
  function Ahead(d: Dispatcher, queue: seq<Bytes>, batch: seq<Bytes>): nat {
    if batch == [] then 0 else |queue| - IndexOf(d, queue, d.hash(batch[|batch| - 1]))
  }

  /** Every fetch moves on in the queue, so there are at most as many fetches as transactions. */
  lemma FetchAdvances(d: Dispatcher, queue: seq<Bytes>, batch: seq<Bytes>, limit: nat)
    requires DistinctHashes(d, queue) && batch != []
    ensures var f := Fetch(d, queue, d.hash(batch[|batch| - 1]), limit);
            f.More? ==> Ahead(d, queue, f.batch) < Ahead(d, queue, batch)
  {
    var i := IndexOf(d, queue, d.hash(batch[|batch| - 1]));
    var f := Fetch(d, queue, d.hash(batch[|batch| - 1]), limit);
    if f.More? && f.batch != [] {
      var j := i + |f.batch|;
      assert f.batch[|f.batch| - 1] == queue[j];
      var k := IndexOf(d, queue, d.hash(queue[j]));
      assert k == j;
    }
  }

  /** The scheduling loop, fetching from the queue. */
  function FromQueue(d: Dispatcher, cfg: Config, queue: seq<Bytes>, st: Sched, batch: seq<Bytes>,
                     requested: nat): (r: Sched)
    requires DistinctHashes(d, queue) && st.m.Valid()
    ensures r.m.Valid()
    decreases Ahead(d, queue, batch)
  {
    var st := Drained(d, cfg, st, batch);
    if st.status.Going? && batch != [] && |batch| >= requested then
      FetchAdvances(d, queue, batch, cfg.batchSize);
      var f := Fetch(d, queue, d.hash(batch[|batch| - 1]), cfg.batchSize);
      if f.More? then FromQueue(d, cfg, queue, st, f.batch, cfg.batchSize) else st
    else st
  }

  /** The answers the queue gives during the run. */
  function Answers(d: Dispatcher, cfg: Config, queue: seq<Bytes>, st: Sched, batch: seq<Bytes>,
                   requested: nat): seq<Fetched>
    requires DistinctHashes(d, queue) && st.m.Valid()
    decreases Ahead(d, queue, batch)
  {
    var st := Drained(d, cfg, st, batch);
    if st.status.Going? && batch != [] && |batch| >= requested then
      FetchAdvances(d, queue, batch, cfg.batchSize);
      var f := Fetch(d, queue, d.hash(batch[|batch| - 1]), cfg.batchSize);
      [f] + if f.More? then Answers(d, cfg, queue, st, f.batch, cfg.batchSize) else []
    else []
  }

  /** For any finite queue the loop terminates, after at most as many fetches as there are
      transactions in it, and is the run of the scheduling loop for the answers of that queue. */
  lemma {:induction false} QueueRunsAreScheduledRuns(d: Dispatcher, cfg: Config, queue: seq<Bytes>, st: Sched,
                                                     batch: seq<Bytes>, requested: nat)
    requires DistinctHashes(d, queue) && st.m.Valid()
    ensures var answers := Answers(d, cfg, queue, st, batch, requested);
            && FromQueue(d, cfg, queue, st, batch, requested) == Scheduled(d, cfg, st, batch, requested, answers)
            && |answers| <= Ahead(d, queue, batch) + 1
    decreases Ahead(d, queue, batch)
  {
    hide Drained;
    var st1 := Drained(d, cfg, st, batch);
    if st1.status.Going? && batch != [] && |batch| >= requested {
      FetchAdvances(d, queue, batch, cfg.batchSize);
      var f := Fetch(d, queue, d.hash(batch[|batch| - 1]), cfg.batchSize);
      if f.More? {
        QueueRunsAreScheduledRuns(d, cfg, queue, st1, f.batch, cfg.batchSize);
        var rest := Answers(d, cfg, queue, st1, f.batch, cfg.batchSize);
        assert ([f] + rest)[1..] == rest;
      }
    }
  }

  /** The fetch after a batch, if there is more, leaves less of the queue ahead. */
  predicate Moves(d: Dispatcher, queue: seq<Bytes>, batch: seq<Bytes>, limit: nat) {
    batch != [] ==>
      var f := Fetch(d, queue, d.hash(batch[|batch| - 1]), limit);
      f.More? ==> Ahead(d, queue, f.batch) < Ahead(d, queue, batch)
  }

  /** The transactions between the first occurrence of a repeated hash and a later one. */
  function Loop(d: Dispatcher, queue: seq<Bytes>, j: nat): seq<Bytes>
    requires j < |queue| && IndexOf(d, queue, d.hash(queue[j])) < j
  {
    queue[IndexOf(d, queue, d.hash(queue[j])) + 1..j + 1]
  }

  /** Fetching after them fetches them again. */
  lemma LoopRepeats(d: Dispatcher, queue: seq<Bytes>, j: nat)
    requires j < |queue| && IndexOf(d, queue, d.hash(queue[j])) < j
    ensures var loop := Loop(d, queue, j);
            loop != [] && Fetch(d, queue, d.hash(loop[|loop| - 1]), |loop|) == More(loop)
  {
    var loop := Loop(d, queue, j);
    assert loop[|loop| - 1] == queue[j];
  }

  lemma RepeatedHash(d: Dispatcher, queue: seq<Bytes>) returns (j: nat)
    requires !DistinctHashes(d, queue)
    ensures j < |queue| && IndexOf(d, queue, d.hash(queue[j])) < j
  {
    var i, k :| 0 <= i < k < |queue| && d.hash(queue[i]) == d.hash(queue[k]);
    j := k;
  }

  /** Fetches move on exactly if no hash is repeated in the queue. */
  lemma AdvancesExactly(d: Dispatcher, queue: seq<Bytes>)
    ensures (forall batch, limit :: Moves(d, queue, batch, limit)) <==> DistinctHashes(d, queue)
  {
    if DistinctHashes(d, queue) {
      forall batch: seq<Bytes>, limit: nat ensures Moves(d, queue, batch, limit) {
        if batch != [] {
          FetchAdvances(d, queue, batch, limit);
        }
      }
    } else {
      var j := RepeatedHash(d, queue);
      LoopRepeats(d, queue, j);
      var loop := Loop(d, queue, j);
      assert !Moves(d, queue, loop, |loop|);
    }
  }

  /** `answers` is what the queue answers after `batch`, fetch by fetch; it may go on. */
  predicate Answered(d: Dispatcher, size: nat, queue: seq<Bytes>, batch: seq<Bytes>, answers: seq<Fetched>)
    decreases |answers|
  {
    answers != [] ==>
      && batch != []
      && answers[0] == Fetch(d, queue, d.hash(batch[|batch| - 1]), size)
      && match answers[0]
         case More(fetched) => Answered(d, size, queue, fetched, answers[1..])
         case _ => |answers| == 1
  }

  lemma {:induction false} AnswersEnd(d: Dispatcher, size: nat, queue: seq<Bytes>, batch: seq<Bytes>,
                                      answers: seq<Fetched>)
    requires DistinctHashes(d, queue) && Answered(d, size, queue, batch, answers)
    ensures |answers| <= Ahead(d, queue, batch) + 1
    decreases |answers|
  {
    if answers != [] && answers[0].More? {
      FetchAdvances(d, queue, batch, size);
      AnswersEnd(d, size, queue, answers[0].batch, answers[1..]);
    }
  }

  lemma {:induction false} AnswersGoOn(d: Dispatcher, queue: seq<Bytes>, j: nat, n: nat)
    requires j < |queue| && IndexOf(d, queue, d.hash(queue[j])) < j
    ensures var loop := Loop(d, queue, j); Answered(d, |loop|, queue, loop, seq(n, _ => More(loop)))
  {
    var loop := Loop(d, queue, j);
    LoopRepeats(d, queue, j);
    if n > 0 {
      AnswersGoOn(d, queue, j, n - 1);
      assert seq(n, _ => More(loop))[1..] == seq(n - 1, _ => More(loop));
    }
  }

  ghost predicate EndsWithin(d: Dispatcher, queue: seq<Bytes>, bound: nat) {
    forall size, batch, answers | Answered(d, size, queue, batch, answers) :: |answers| <= bound
  }

  /** For a finite queue the number of fetches is bounded, over all batches and batch sizes, exactly if
      no hash is repeated in it. */
  lemma QueueEndsExactly(d: Dispatcher, queue: seq<Bytes>)
    ensures (exists bound :: EndsWithin(d, queue, bound)) <==> DistinctHashes(d, queue)
  {
    if DistinctHashes(d, queue) {
      forall size, batch, answers | Answered(d, size, queue, batch, answers) ensures |answers| <= |queue| + 1 {
        AnswersEnd(d, size, queue, batch, answers);
      }
      assert EndsWithin(d, queue, |queue| + 1);
    } else {
      var j := RepeatedHash(d, queue);
      var loop := Loop(d, queue, j);
      forall bound: nat ensures !EndsWithin(d, queue, bound) {
        AnswersGoOn(d, queue, j, bound + 1);
        assert Answered(d, |loop|, queue, loop, seq(bound + 1, _ => More(loop)));
      }
    }
  }

  /** There is room in the block, and none of the transactions decodes. */
  ghost predicate AllMalformed(d: Dispatcher, cfg: Config, st: Sched, batch: seq<Bytes>)
    requires st.m.Valid()
  {
    && st.status.Going? && RemainingGas(d, st.m) >= cfg.minRemainingGas && |st.batch| < cfg.maxTxCount
    && forall raw | raw in batch :: d.decode(st.m.Content(), raw).None?
  }

  lemma {:induction false} DrainRejects(d: Dispatcher, cfg: Config, st: Sched, batch: seq<Bytes>)
    requires st.m.Valid() && AllMalformed(d, cfg, st, batch)
    ensures var r := Drained(d, cfg, st, batch);
            && r == st.(rejected := r.rejected, offered := r.offered, fates := r.fates)
            && r.rejected == st.rejected + Hashes(d, batch)
    decreases |batch|
  {
    if batch != [] {
      assert batch[0] in batch && forall raw | raw in batch[1..] :: raw in batch;
      assert Screened(d, cfg, st, batch[0]) == Malformed;
      DrainRejects(d, cfg, Consider(d, cfg, st, batch[0]), batch[1..]);
      assert st.rejected + [d.hash(batch[0])] + Hashes(d, batch[1..]) == st.rejected + Hashes(d, batch);
    } else {
      assert st.rejected + Hashes(d, batch) == st.rejected;
    }
  }

  lemma {:induction false} EndlessRejections(d: Dispatcher, cfg: Config, st: Sched, batch: seq<Bytes>, requested: nat,
                                             n: nat)
    requires st.m.Valid() && AllMalformed(d, cfg, st, batch)
    requires batch != [] && |batch| >= cfg.batchSize && |batch| >= requested
    ensures var r := Scheduled(d, cfg, st, batch, requested, seq(n, _ => More(batch)));
            r.status.Going? && multiset(r.rejected)[d.hash(batch[0])] >= multiset(st.rejected)[d.hash(batch[0])] + n + 1
    decreases n
  {
    hide Drained;
    var answers := seq(n, _ => More(batch));
    DrainRejects(d, cfg, st, batch);
    var st1 := Drained(d, cfg, st, batch);
    assert Hashes(d, batch)[0] == d.hash(batch[0]);
    assert d.hash(batch[0]) in multiset(Hashes(d, batch));
    if n > 0 {
      assert answers[1..] == seq(n - 1, _ => More(batch));
      EndlessRejections(d, cfg, st1, batch, cfg.batchSize, n - 1);
    }
  }

  /** A repeated hash keeps the loop going for any number of fetches: with a batch size that reaches
      from one occurrence to the next, and nothing in the queue that decodes, the loop is still going
      after every answer of the queue, and rejects the same transaction each time. */
  lemma RepeatedHashesNeverEnd(d: Dispatcher, cfg: Config, queue: seq<Bytes>, m: Machine, n: nat)
    requires m.Valid() && !DistinctHashes(d, queue)
    requires RemainingGas(d, m) >= cfg.minRemainingGas && cfg.maxTxCount > 0
    requires forall raw | raw in queue :: d.decode(m.Content(), raw).None?
    ensures exists size, batch, answers ::
              && |answers| == n && batch != [] && Answered(d, size, queue, batch, answers)
              && var st := Sched(m, [], [], [], Going, [], []);
                 var r := Scheduled(d, cfg.(batchSize := size), st, batch, size, answers);
                 r.status.Going? && multiset(r.rejected)[d.hash(batch[0])] > n
  {
    hide Scheduled;
    var j := RepeatedHash(d, queue);
    var loop := Loop(d, queue, j);
    LoopRepeats(d, queue, j);
    AnswersGoOn(d, queue, j, n);
    EndlessRejections(d, cfg.(batchSize := |loop|), Sched(m, [], [], [], Going, [], []), loop, |loop|, n);
  }
}
