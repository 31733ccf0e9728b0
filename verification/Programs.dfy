/** Runtime modules as arbitrary programs over the block state, nested transactions
    (`CurrentState::with_transaction_opts`, runtime-sdk/src/state.rs) and subcalls
    (runtime-sdk/src/subcall.rs). A program is an interaction tree: it issues an operation and
    continues with whatever it likes depending on the response; a response it has no continuation
    for makes it panic. */
module Programs {
  import opened Basics
  import opened Storage
  import opened BlockState

  type u16 = x: nat | x < 0x1_0000

  datatype Val = Num(n: int) | Error(code: int) | FutureNonce | Abort(code: int)

  /** How a closure ends. `Result` values commit when they are `Ok` and roll back when not. */
  datatype Outcome = Commit(val: Val) | Rollback(val: Val) | Unwind

  datatype CallResult = Ok(val: Val) | Failed(val: Val) | Aborted(code: int)

  function ToCallResult(o: Outcome): CallResult
    requires !o.Unwind?
  {
    match o
    case Commit(v) => Ok(v)
    case Rollback(Abort(code)) => Aborted(code)
    case Rollback(v) => Failed(v)
  }

  const READ_ONLY_VIOLATION := Failed(Error(25))

  datatype SubcallInfo = SubcallInfo(caller: Bytes, call: Call, maxDepth: u16, maxGas: nat)

  /** A validator returns the error with which it rejects a subcall, or nothing. */
  type Validator = SubcallInfo -> Option<int>

  datatype Op =
    | StoreGet(key: Bytes) | StoreInsert(key: Bytes, value: Value) | StoreRemove(key: Bytes) | HasPendingUpdates
    | EmitEvent(key: Bytes, event: Bytes) | EmitUnconditionalEvent(key: Bytes, event: Bytes)
    | TakeEvents | TakeUnconditionalEvents
    | EmitMessage(message: Message) | TakeMessages | CountMessages | MaxMessages
    | BlockGet(name: string) | BlockSet(name: string, n: int) | BlockTake(name: string)
    | LocalGet(name: string) | LocalSet(name: string, n: int) | LocalTake(name: string)
    | HideValues | RngFork(pers: Bytes) | GetEnv | GetOriginEnv | GetLevel

  datatype Resp =
    | Unit
    | Flag(b: bool)
    | Count(n: nat)
    | Stored(value: Option<Value>)
    | Held(n': Option<int>)
    | Tags(tags: EventTags)
    | Messages(messages: seq<Message>)
    | Leaf(seed: Option<seq<RngItem>>)
    | Env(env: Environment)
    | Returned(val: Val)
    | SubcallRejected(code: int)
    | CallDepthExceeded(depth: u16, maxDepth: u16)
    | SubcallDone(result: CallResult, gasUsed: nat)

  datatype Prog =
    | Return(outcome: Outcome)
    | Do(op: Op, k: imap<Resp, Prog>)
    /** A transaction. Without options it is the bare `start_transaction`, closed by hand. */
    | Nest(opts: Option<Options>, body: Prog, k: imap<Resp, Prog>)
    | Sub(info: SubcallInfo, validator: Validator, k: imap<Resp, Prog>)

  /** A runtime: its modules, and the queries they answer without changing anything. */
  datatype Runtime = Runtime(
    maxMessages: nat,
    handleCall: Call -> Prog,
    afterHandleCall: CallResult -> Prog,
    remainingTxGas: (Content, Values, Values, Environment) -> nat)

  /** The state and the subcall stack attached to the current thread. */
  datatype Machine = Machine(state: State, calls: seq<Validator>)
  {
    predicate Valid() { state.Valid() && |calls| < 0x1_0000 }

    function Content(): Content
      requires Valid()
    {
      state.store.value.View()
    }
  }

  /** Perform an operation on the current state; no response means a panic. */
  function Step(maxMessages: nat, op: Op, s: State): (r: (State, Option<Resp>))
    requires s.Valid()
    ensures r.0.Valid() && r.0.Level() == s.Level() && SameFrame(s, r.0)
  {
    match op
    case StoreGet(key) => (s, Some(Stored(s.store.value.Get(key))))
    case StoreInsert(key, value) => (s.(store := Some(s.store.value.Insert(key, value))), Some(Unit))
    case StoreRemove(key) => (s.(store := Some(s.store.value.Remove(key))), Some(Unit))
    case HasPendingUpdates => (s, Some(Flag(s.store.value.dirty != {})))
    case EmitEvent(key, event) => (s.(events := Merged(s.events, map[key := [event]])), Some(Unit))
    case EmitUnconditionalEvent(key, event) =>
      (s.(unconditionalEvents := Merged(s.unconditionalEvents, map[key := [event]])), Some(Unit))
    case TakeEvents => (s.(events := map[]), Some(Tags(s.events)))
    case TakeUnconditionalEvents => (s.(unconditionalEvents := map[]), Some(Tags(s.unconditionalEvents)))
    case EmitMessage(message) =>
      if s.MessageCount() >= s.MessageMax(maxMessages) then (s, Some(Flag(false)))
      else (s.(messages := s.messages + [message]), Some(Flag(true)))
    case TakeMessages => (s.(messages := []), Some(Messages(s.messages)))
    case CountMessages => (s, Some(Count(s.MessageCount())))
    case MaxMessages => (s, Some(Count(s.MessageMax(maxMessages))))
    case BlockGet(name) => (s, Some(Held(Lookup(s.blockValues, name))))
    case BlockSet(name, n) => (s.(blockValues := s.blockValues[name := n]), Some(Unit))
    case BlockTake(name) => (s.(blockValues := s.blockValues - {name}), Some(Held(Lookup(s.blockValues, name))))
    case LocalGet(name) => (s, Some(Held(Lookup(s.localValues, name))))
    case LocalSet(name, n) => (s.(localValues := s.localValues[name := n]), Some(Unit))
    case LocalTake(name) => (s.(localValues := s.localValues - {name}), Some(Held(Lookup(s.localValues, name))))
    case HideValues => if s.parent.None? then (s, None) else (s.HideBlockValues(), Some(Unit))
    case RngFork(pers) =>
      if !s.rng.value.valid then (s, Some(Leaf(None)))
      else (s.AppendRng(Fork(pers)), Some(Leaf(Some(s.rng.value.transcript + [Fork(pers)]))))
    case GetEnv => (s, Some(Env(s.env)))
    case GetOriginEnv => (s, Some(Env(s.OriginEnv())))
    case GetLevel => (s, Some(Count(s.Level())))
  }

  /** Where code that started in `m` may leave the machine: the subcall stack is as before, and back
      at the same level everything below and around the state is as before. Only a panic can leave
      extra levels open. */
  ghost predicate Framed(m: Machine, n: Machine, unwound: bool)
    requires m.Valid()
  {
    && n.Valid()
    && n.calls == m.calls
    && n.state.Level() >= m.state.Level()
    && (!unwound ==> n.state.Level() == m.state.Level())
    && (n.state.Level() == m.state.Level() ==> SameFrame(m.state, n.state))
  }

  /** The state in which the closure of a transaction starts. */
  function Entered(s: State, opts: Option<Options>): (t: State)
    requires s.Valid()
    ensures t.Valid() && t.Level() == s.Level() + 1
  {
    OpenedIsValid(s, if opts.Some? then opts.value else NO_OPTIONS);
    if opts.Some? then s.Opened().Init(opts.value) else s.Opened()
  }

  /** The state after the closure has ended. On a panic the guard rolls back, but only if the state
      is still at the guarded level; a bare transaction has no guard. */
  function Left(t: State, outcome: Outcome, guard: Option<nat>): (u: State)
    requires t.Valid() && t.parent.Some?
    ensures u.Valid()
    ensures u.Level() == if outcome.Unwind? && guard != Some(t.Level()) then t.Level() else t.Level() - 1
  {
    ClosedIsValid(t);
    match outcome
    case Commit(_) => t.Committed()
    case Rollback(_) => t.RolledBack()
    case Unwind => if guard == Some(t.Level()) then t.RolledBack() else t
  }

  function Guard(opts: Option<Options>, t: State): Option<nat> {
    if opts.Some? then Some(t.Level()) else None
  }

  /** A transaction as a whole keeps what its closure keeps of the child state. */
  lemma LeftIsFramed(m: Machine, opts: Option<Options>, n: Machine, outcome: Outcome)
    requires m.Valid()
    requires Framed(m.(state := Entered(m.state, opts)), n, outcome.Unwind?)
    ensures n.state.parent.Some?
    ensures Framed(m, n.(state := Left(n.state, outcome, Guard(opts, Entered(m.state, opts)))), outcome.Unwind?)
  {
    var t := Entered(m.state, opts);
    EnteredChild(m.state, opts);
    if n.state.Level() == t.Level() {
      ClosedIsValid(n.state);
    }
  }

  /** What a closure finds below it: the state it was opened from, and that state's store. */
  lemma EnteredChild(s: State, opts: Option<Options>)
    requires s.Valid()
    ensures var t := Entered(s, opts);
            && t.parent == Some(s.(store := None, blockValues := map[], rng := None))
            && t.store == Some(Overlay(s.store.value, map[], {}))
            && t.events == map[] && t.unconditionalEvents == map[] && t.messages == [] && t.localValues == map[]
  {
    if opts.Some? {
      assert s.Opened().Initialises(s.Opened().Init(opts.value));
    }
  }

  /** The first error any stacked validator raises. */
  function FirstRejection(calls: seq<Validator>, info: SubcallInfo): (r: Option<int>)
    ensures r.None? <==> forall i | 0 <= i < |calls| :: calls[i](info).None?
    ensures forall i | 0 <= i < |calls| && calls[i](info).Some? && (forall j | 0 <= j < i :: calls[j](info).None?) ::
              r == calls[i](info)
  {
    if calls == [] then None
    else if calls[0](info).Some? then calls[0](info)
    else FirstRejection(calls[1..], info)
  }

  /** The internal transaction of a subcall; it propagates the caller's message limit. */
  function InternalTx(info: SubcallInfo, messageLimit: nat): TxMeta {
    TxMeta(Tx(info.call, info.caller, info.maxGas, messageLimit), 0, 0, seq(32, _ => 0))
  }

  function SubcallOptions(info: SubcallInfo, messageLimit: nat): Options {
    Options(None, Some(InternalTx(info, messageLimit)), Some(true), None)
  }

  function Depth(calls: seq<Validator>): u16 {
    |calls| % 0x1_0000
  }

  /** Run program `p`. */
  function Exec(rt: Runtime, p: Prog, m: Machine): (r: (Machine, Outcome))
    requires m.Valid()
    ensures Framed(m, r.0, r.1.Unwind?)
    decreases 0x1_0000 - |m.calls|, 1, p, 0
  {
    match p
    case Return(outcome) => (m, outcome)
    case Do(op, k) =>
      var (s, resp) := Step(rt.maxMessages, op, m.state);
      var n := m.(state := s);
      if resp.Some? && resp.value in k then Exec(rt, k[resp.value], n) else (n, Unwind)
    case Nest(opts, body, k) =>
      var (n, outcome) := Transact(rt, opts, body, m);
      if outcome.Unwind? then (n, Unwind)
      else if Returned(outcome.val) in k then Exec(rt, k[Returned(outcome.val)], n)
      else (n, Unwind)
    case Sub(info, validator, k) =>
      var (n, resp) := Subcall(rt, info, validator, m);
      if resp.Some? && resp.value in k then Exec(rt, k[resp.value], n) else (n, Unwind)
  }

  /** Run a closure within a state transaction. */
  function Transact(rt: Runtime, opts: Option<Options>, body: Prog, m: Machine): (r: (Machine, Outcome))
    requires m.Valid()
    ensures Framed(m, r.0, r.1.Unwind?)
    decreases 0x1_0000 - |m.calls|, 1, body, 1
  {
    var t := Entered(m.state, opts);
    var (n, outcome) := Exec(rt, body, m.(state := t));
    LeftIsFramed(m, opts, n, outcome);
    (n.(state := Left(n.state, outcome, Guard(opts, t))), outcome)
  }

  /** Dispatch a call inside a transaction context; no result means a panic. */
  function DispatchCall(rt: Runtime, call: Call, m: Machine): (r: (Machine, Option<CallResult>))
    requires m.Valid()
    ensures Framed(m, r.0, r.1.None?)
    decreases 0x1_0000 - |m.calls|, 2
  {
    var (m1, o1) := Exec(rt, rt.handleCall(call), m);
    if o1.Unwind? then (m1, None)
    else
      // The after-call hook runs whether or not the call succeeded.
      var result := ToCallResult(o1);
      var (m2, o2) := Exec(rt, rt.afterHandleCall(result), m1);
      match o2
      case Unwind => (m2, None)
      case Rollback(_) => (m2, Some(ToCallResult(o2)))
      case Commit(_) =>
        if call.readOnly && m2.state.store.value.dirty != {} then (m2, Some(READ_ONLY_VIOLATION))
        else (m2, Some(result))
  }

  /** Perform a subcall; no response means a panic. */
  function Subcall(rt: Runtime, info: SubcallInfo, validator: Validator, m: Machine): (r: (Machine, Option<Resp>))
    requires m.Valid()
    ensures Framed(m, r.0, r.1.None?)
    decreases 0x1_0000 - |m.calls|, 0
  {
    var own := validator(info);
    var stacked := FirstRejection(m.calls, info);
    if own.Some? then (m, Some(SubcallRejected(own.value)))
    else if Depth(m.calls) >= info.maxDepth then
      (m, Some(CallDepthExceeded((Depth(m.calls) + 1) % 0x1_0000, info.maxDepth)))
    else if stacked.Some? then (m, Some(SubcallRejected(stacked.value)))
    else Performed(rt, info, validator, m)
  }

  /** The part of a subcall that follows all the checks. */
  function Performed(rt: Runtime, info: SubcallInfo, validator: Validator, m: Machine): (r: (Machine, Option<Resp>))
    requires m.Valid() && |m.calls| < info.maxDepth
    ensures Framed(m, r.0, r.1.None?)
    decreases 0x1_0000 - |m.calls|, 0, 0
  {
    var opts := Some(SubcallOptions(info, m.state.MessageMax(rt.maxMessages)));
    var t := Entered(m.state, opts);
    var (n, result) := DispatchCall(rt, info.call, Machine(t, m.calls + [validator]));
    var gas := rt.remainingTxGas(n.Content(), n.state.blockValues, n.state.localValues, n.state.env);
    var outcome := CallOutcome(result);
    LeftIsFramed(m.(calls := m.calls + [validator]), opts, n, outcome);
    // The stack guard pops the entry however the call ended.
    var n := Machine(Left(n.state, outcome, Guard(opts, t)), n.calls[..|n.calls| - 1]);
    if result.None? then (n, None)
    else (n, Some(SubcallDone(result.value, if gas <= info.maxGas then info.maxGas - gas else 0)))
  }

  /** A subcall commits when the call succeeded and rolls back when it failed. */
  function CallOutcome(result: Option<CallResult>): Outcome {
    if result.None? then Unwind else if result.value.Ok? then Commit(Num(0)) else Rollback(Num(0))
  }
}
