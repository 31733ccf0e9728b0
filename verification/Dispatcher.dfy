/** Dispatching single transactions (runtime-sdk/src/dispatcher.rs). */
module Dispatching {
  import opened Basics
  import opened Storage
  import opened BlockState
  import opened Programs

  datatype MessageEvent = MessageEvent(index: nat, outcome: Bytes)

  /** Everything the dispatcher calls in a runtime. Hooks and handlers are arbitrary programs. Whether
      a raw transaction is approved, and what it decodes to, may depend on the store. */
  datatype Dispatcher = Dispatcher(
    rt: Runtime,
    migrate: Prog, beginBlock: Prog, endBlock: Prog,
    authenticate: Tx -> Prog,
    afterDispatch: (Tx, CallResult) -> Prog,
    onMessage: (Hook, MessageEvent) -> Option<Prog>,
    decode: (Content, Bytes) -> Option<Tx>,
    hash: Bytes -> Bytes,
    maxBatchGas: Content -> nat,
    usedBatchGas: Values -> nat,
    prefetchEnabled: bool,
    prefetches: Tx -> bool)

  datatype TxResult = TxResult(result: CallResult, tags: EventTags)

  datatype Ending<+T> = Success(value: T) | Failure(code: int) | Panicked

  const PRIORITY := "core.Priority"
  const SENDER_META := "core.SenderMeta"

  /** The closing part of the transaction closure: what is reported and how the state is left. */
  function Concluded(s: State, call: Call, result: CallResult): (r: (State, EventTags, Outcome))
    requires s.Valid()
    ensures r.0.Valid() && SameFrame(s, r.0) && r.0.Level() == s.Level() && !r.2.Unwind?
  {
    if !result.Ok? || call.readOnly then
      (s.(unconditionalEvents := map[]), s.unconditionalEvents, Rollback(Num(0)))
    else
      // Priority and sender metadata are taken from the block values.
      var s := s.(blockValues := s.blockValues - {PRIORITY, SENDER_META});
      if s.env.CheckOnly() then (s, map[], Rollback(Num(0)))
      else
        (s.(events := map[], unconditionalEvents := map[]), Merged(s.events, s.unconditionalEvents), Commit(Num(0)))
  }

  function TxOptions(meta: TxMeta): Options {
    NO_OPTIONS.(tx := Some(meta))
  }

  lemma StillFramed(m: Machine, n: Machine, s: State)
    requires m.Valid() && Framed(m, n, false) && s.Valid() && SameFrame(n.state, s) && s.Level() == n.state.Level()
    ensures Framed(m, n.(state := s), false)
  {
  }

  /** Run the call of a transaction in a transaction context of its own. */
  function RunTx(d: Dispatcher, meta: TxMeta, m: Machine): (r: (Machine, Option<TxResult>))
    requires m.Valid()
    ensures Framed(m, r.0, r.1.None?)
  {
    var opts := Some(TxOptions(meta));
    var t := Entered(m.state, opts);
    var (n, result) := DispatchCall(d.rt, meta.data.call, m.(state := t));
    if result.None? then
      LeftIsFramed(m, opts, n, Unwind);
      (n.(state := Left(n.state, Unwind, Guard(opts, t))), None)
    else
      var (s, tags, outcome) := Concluded(n.state, meta.data.call, result.value);
      StillFramed(m.(state := t), n, s);
      LeftIsFramed(m, opts, n.(state := s), outcome);
      (n.(state := Left(s, outcome, Guard(opts, t))), Some(TxResult(result.value, tags)))
  }

  /** Dispatch a transaction. The outcome is a failure only when the batch must be aborted. */
  function DispatchTx(d: Dispatcher, meta: TxMeta, skipAuthentication: bool, m: Machine): (r: (Machine,
                      Ending<TxResult>))
    requires m.Valid()
    ensures Framed(m, r.0, r.1.Panicked?)
  {
    var (m1, auth) := if skipAuthentication then (m, Commit(Num(0))) else Exec(d.rt, d.authenticate(meta.data), m);
    match auth
    case Unwind => (m1, Panicked)
    case Rollback(_) => (m1, Success(TxResult(ToCallResult(auth), map[])))
    case Commit(_) =>
      var (m2, result) := RunTx(d, meta, m1);
      if result.None? then (m2, Panicked)
      else
        var (m3, hook) := Exec(d.rt, d.afterDispatch(meta.data, result.value.result), m2);
        if hook.Unwind? then (m3, Panicked)
        else if result.value.result.Aborted? then (m3, Failure(result.value.result.code))
        else (m3, Success(result.value))
  }
}
