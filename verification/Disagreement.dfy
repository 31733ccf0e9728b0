/** Runtimes in which a validator does not follow a proposer: how transactions decode depends on a
    stored parameter that an earlier transaction of the same batch changes. */
module Disagreement {
  import opened Basics
  import opened Storage
  import opened BlockState
  import opened Programs
  import opened Dispatching
  import opened Batches
  import opened Blocks

  const DONE := Return(Commit(Num(0)))
  const LIMIT: Bytes := [1]
  const RAISE := Do(StoreInsert(LIMIT, Raw([])), imap[Unit := DONE])

  /** The empty call raises the limit; other calls return the length of their body. */
  const RUNTIME := Runtime(
    0, (call: Call) => if call.body == [] then RAISE else Return(Commit(Num(|call.body|))),
    (result: CallResult) => DONE, (c, b, l, e) => 0)

  type Decoder = (Content, Bytes) -> Option<Tx>

  function With(decode: Decoder): Dispatcher {
    Dispatcher(
      RUNTIME, DONE, DONE, DONE,
      (tx: Tx) => DONE, (tx: Tx, result: CallResult) => DONE, (hook: Hook, event: MessageEvent) => None,
      decode, (raw: Bytes) => raw, (content: Content) => 0, (values: Values) => 0, false, (tx: Tx) => true)
  }

  function Calling(body: Bytes): Tx {
    Tx(Call("", body, false), [], 0, 0)
  }

  /** Without the limit only the empty transaction is approved. */
  const GUARDED: Decoder :=
    (content: Content, raw: Bytes) => if raw == [] || LIMIT in content then Some(Calling(raw)) else None

  /** What a transaction other than the empty one does depends on the limit. */
  const PRICED: Decoder := (content: Content, raw: Bytes) =>
    Some(Calling(if raw == [] then [] else if LIMIT in content then [0] else [0, 0]))

  const CONFIG := Config(2, 2, 0, 2)
  const OFFERED: seq<Bytes> := [[], [0]]

  lemma Done(m: Machine, n: int)
    requires m.Valid()
    ensures Exec(RUNTIME, Return(Commit(Num(n))), m) == (m, Commit(Num(n)))
  {
  }

  lemma Raised(m: Machine)
    requires m.Valid()
    ensures Exec(RUNTIME, RAISE, m) ==
            (m.(state := m.state.(store := Some(m.state.store.value.Insert(LIMIT, Raw([]))))), Commit(Num(0)))
  {
    var n := m.(state := m.state.(store := Some(m.state.store.value.Insert(LIMIT, Raw([])))));
    assert Step(0, RAISE.op, m.state) == (n.state, Some(Unit));
    Done(n, 0);
  }

  lemma Called(body: Bytes, m: Machine)
    requires m.Valid()
    ensures var (n, result) := DispatchCall(RUNTIME, Call("", body, false), m);
            && result == Some(Ok(Num(|body|)))
            && n.state ==
               if body == [] then m.state.(store := Some(m.state.store.value.Insert(LIMIT, Raw([])))) else m.state
  {
    if body == [] { Raised(m); } else { Done(m, |body|); }
    var m1 := Exec(RUNTIME, RUNTIME.handleCall(Call("", body, false)), m).0;
    Done(m1, 0);
  }

  /** Every transaction succeeds, and executing the empty one raises the limit. */
  lemma Ran(decode: Decoder, item: Decoded, index: nat, m: Machine)
    requires m.Valid() && item.tx == Calling(item.tx.call.body)
    ensures var body := item.tx.call.body;
            var (n, result) := RunTx(With(decode), Meta(With(decode), item, index), m);
            && result.Some? && result.value.result == Ok(Num(|body|))
            && (body == [] && m.state.parent.None? && m.state.env.mode.Execute? ==> LIMIT in n.Content())
  {
    hide DispatchCall, Exec;
    var opts := Some(TxOptions(Meta(With(decode), item, index)));
    var t := Entered(m.state, opts);
    Called(item.tx.call.body, m.(state := t));
    EnteredChild(m.state, opts);
    if item.tx.call.body == [] && m.state.parent.None? && m.state.env.mode.Execute? {
      var store := Overlay(m.state.store.value, map[], {});
      var changed := store.Insert(LIMIT, Raw([]));
      assert m.state.store.value.parent.Valid();
      assert m.state.store.value.Valid();
      UpdatesChangeView(store, LIMIT, Raw([]));
      CommitKeepsView(changed);
    }
  }

  lemma Dispatched(decode: Decoder, item: Decoded, index: nat, skip: bool, m: Machine)
    requires m.Valid() && item.tx == Calling(item.tx.call.body)
    ensures var body := item.tx.call.body;
            var (n, result) := DispatchTx(With(decode), Meta(With(decode), item, index), skip, m);
            && result.Success? && result.value.result == Ok(Num(|body|))
            && (body == [] && m.state.parent.None? && m.state.env.mode.Execute? ==> LIMIT in n.Content())
  {
    hide RunTx, Exec;
    Done(m, 0);
    Ran(decode, item, index, m);
    Done(RunTx(With(decode), Meta(With(decode), item, index), m).0, 0);
  }

  lemma Accepted(decode: Decoder, item: Decoded, index: nat, m: Machine)
    requires m.Valid() && item.tx == Calling(item.tx.call.body)
    ensures PreScheduled(With(decode), Meta(With(decode), item, index), m) == (m, Accept)
  {
    hide DispatchTx, Exec;
    var n := m.(state := Entered(m.state, Some(PRE_SCHEDULE)));
    Done(n, 0);
    Dispatched(decode, item, index, true, n);
    PreScheduleIsInvisible(With(decode), Meta(With(decode), item, index), m);
  }

  lemma Considered(decode: Decoder, st: Sched, raw: Bytes, body: Bytes)
    requires st.m.Valid() && |st.batch| < 2 && |raw| < U32 && decode(st.m.Content(), raw) == Some(Calling(body))
    ensures var r := Consider(With(decode), CONFIG, st, raw);
            && r.status == st.status && r.batch == st.batch + [Decoded(raw, Calling(body))]
            && |r.results| == |st.results| + 1 && r.results[..|st.results|] == st.results
            && r.results[|st.results|].result == Ok(Num(|body|))
            && (body == [] && st.m.state.parent.None? && st.m.state.env.mode.Execute? ==> LIMIT in r.m.Content())
  {
    hide DispatchTx, PreScheduled;
    var item := Decoded(raw, Calling(body));
    Accepted(decode, item, |st.batch|, st.m);
    Dispatched(decode, item, |st.batch|, false, st.m);
    assert Screened(With(decode), CONFIG, st, raw) == Screening.Fits(item);
  }

  lemma BeginsAtRoot(decode: Decoder)
    ensures Begun(With(decode), map[], []) == (Machine(Root(map[], Execute), []), Success(()))
  {
    hide Exec;
    Done(Machine(Root(map[], Execute), []), 0);
  }

  /** The proposer first raises the limit and then decodes the second transaction under it. */
  lemma Proposed(decode: Decoder, m: Machine)
    requires m.Valid() && m.state.parent.None? && m.state.env.mode.Execute?
    requires decode == GUARDED || decode == PRICED
    ensures var st := Scheduled(With(decode), CONFIG, Fresh(m), OFFERED, 2, []);
            && st.status.Going? && st.batch == [Decoded([], Calling([])), Decoded([0], Calling([0]))]
            && |st.results| == 2 && st.results[1].result == Ok(Num(1))
  {
    hide Consider;
    var d, st := With(decode), Fresh(m);
    Considered(decode, st, [], []);
    var st1 := Consider(d, CONFIG, st, []);
    Considered(decode, st1, [0], [0]);
    var st2 := Consider(d, CONFIG, st1, [0]);
    assert OFFERED[1..] == [[0]] && OFFERED[1..][1..] == [];
    assert Drained(d, CONFIG, st2, []) == st2;
    assert Drained(d, CONFIG, st1, OFFERED[1..]) == st2;
    assert Drained(d, CONFIG, st, OFFERED) == st2;
  }

  lemma BlockProposed(decode: Decoder)
    requires decode == GUARDED || decode == PRICED
    ensures var (block, items) := ScheduleAndExecute(With(decode), CONFIG, map[], [], OFFERED, []);
            && items == [Decoded([], Calling([])), Decoded([0], Calling([0]))]
            && block.Success? && |block.value.results| == 2 && block.value.results[1].result == Ok(Num(1))
  {
    hide Exec, Scheduled, Begun;
    var m := Machine(Root(map[], Execute), []);
    BeginsAtRoot(decode);
    Proposed(decode, m);
    Done(Scheduled(With(decode), CONFIG, Fresh(m), OFFERED, 2, []).m, 0);
  }

  /** The proposer succeeds; every validator fails its batch. */
  lemma ValidatorsCanDisagree()
    ensures var (block, items) := ScheduleAndExecute(With(GUARDED), CONFIG, map[], [], OFFERED, []);
            block.Success? && Raws(items) == OFFERED
    ensures ExecuteBatch(With(GUARDED), map[], [], OFFERED).0 == Failure(MALFORMED)
  {
    hide Exec, ScheduleAndExecute, ExecuteAll, Begun;
    BlockProposed(GUARDED);
    BeginsAtRoot(GUARDED);
    assert !Acceptable(With(GUARDED), map[], OFFERED[1]);
  }

  /** Executing the up-front decoding of the batch. */
  lemma Replayed(m: Machine, items: seq<Decoded>)
    requires m.Valid() && |items| == 2
    requires forall i | 0 <= i < 2 :: items[i].tx == Calling(items[i].tx.call.body)
    ensures var results := ExecuteAll(With(PRICED), items, m).1;
            results.Success? && results.value[1].result == Ok(Num(|items[1].tx.call.body|))
  {
    hide DispatchTx;
    var d := With(PRICED);
    assert items[..1][..0] == [] && items[..2] == items;
    Dispatched(PRICED, items[0], 0, false, m);
    assert ExecuteAll(d, items[..1][..0], m) == (m, Success([]));
    var n := ExecuteTx(d, items[0], 0, m).0;
    assert ExecuteAll(d, items[..1], m).0 == n && ExecuteAll(d, items[..1], m).1.Success?;
    Dispatched(PRICED, items[1], 1, false, n);
  }

  /** Every included transaction is acceptable up front, and the validator accepts the batch, but
      with another result: it executes something else under the same bytes. */
  lemma ValidatorsCanDiffer()
    ensures var (block, items) := ScheduleAndExecute(With(PRICED), CONFIG, map[], [], OFFERED, []);
            var (replayed, executed) := ExecuteBatch(With(PRICED), map[], [], OFFERED);
            && Raws(items) == OFFERED && block.Success? && replayed.Success? && executed != items
            && (forall i | 0 <= i < |items| :: Acceptable(With(PRICED), map[], items[i].raw))
            && |block.value.results| == |replayed.value.results| == 2
            && block.value.results[1].result == Ok(Num(1)) && replayed.value.results[1].result == Ok(Num(2))
  {
    hide Exec, ScheduleAndExecute, ExecuteAll, Begun, DecodeAll;
    BlockProposed(PRICED);
    BeginsAtRoot(PRICED);
    var d, m := With(PRICED), Machine(Root(map[], Execute), []);
    var decoded := DecodeAll(d, map[], OFFERED).value;
    assert Raws(decoded)[0] == [] && Raws(decoded)[1] == [0];
    assert DecodesTo(d, map[], decoded[0]) && DecodesTo(d, map[], decoded[1]);
    Replayed(m, decoded);
    Done(ExecuteAll(d, decoded, m).0, 0);
  }
}
