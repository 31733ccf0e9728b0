/** The mutable block state of a runtime: a stack of states opened, committed and rolled back like
    transactions (runtime-sdk/src/state.rs). `BlockState` is the state as a value and carries the
    specification; `StateCell` is the object whose fields the runtime updates in place. */
module BlockState {
  import opened Basics
  import opened Storage

  datatype Mode = Execute | Check | Simulate | PreSchedule

  datatype Call = Call(method_: string, body: Bytes, readOnly: bool)

  datatype Tx = Tx(call: Call, caller: Bytes, gas: nat, consensusMessages: nat)

  datatype TxMeta = TxMeta(data: Tx, size: nat, index: nat, hash: Bytes)

  datatype Environment = Environment(mode: Mode, tx: Option<TxMeta>, internal: bool)
  {
    predicate CheckOnly() { mode.Check? || mode.PreSchedule? }
  }

  /** Options of a new state. Local entropy is drawn outside the model and passed in. */
  datatype Options = Options(mode: Option<Mode>, tx: Option<TxMeta>, internal: Option<bool>, entropy: Option<Bytes>)

  const NO_OPTIONS := Options(None, None, None, None)

  datatype RngItem = TxSeen(hash: Bytes) | SubContext | Fork(pers: Bytes) | LocalEntropy(bytes: Bytes)

  /** The root random number generator, identified with the transcript it draws from. */
  datatype Rng = Rng(valid: bool, mode: Mode, transcript: seq<RngItem>)
  {
    function Append(item: RngItem): Rng {
      if valid then this.(transcript := transcript + [item]) else this
    }
  }

  const INVALID_RNG := Rng(false, Simulate, [])

  /** Event values accumulated by event key. */
  type EventTags = map<Bytes, seq<Bytes>>

  datatype Message = Message(body: Bytes, hook: Hook)

  type Values = map<string, int>

  function TagsAt(tags: EventTags, key: Bytes): seq<Bytes> {
    if key in tags then tags[key] else []
  }

  /** Append the values of `b` to those of `a`, key by key. */
  function Merged(a: EventTags, b: EventTags): EventTags {
    map k | k in a.Keys + b.Keys :: TagsAt(a, k) + TagsAt(b, k)
  }

  datatype State = State(
    parent: Option<State>,
    store: Option<Store>,
    events: EventTags,
    unconditionalEvents: EventTags,
    messages: seq<Message>,
    blockValues: Values,
    hiddenBlockValues: Option<Values>,
    localValues: Values,
    rng: Option<Rng>,
    hiddenRng: Option<Rng>,
    env: Environment,
    alwaysRollback: bool)
  {
    function Level(): nat {
      if parent.Some? then parent.value.Level() + 1 else 0
    }

    /** Messages emitted in this and all parent states. */
    function MessageCount(): nat {
      |messages| + if parent.Some? then parent.value.MessageCount() else 0
    }

    /** Maximum number of messages that can be emitted, given the per-block maximum. */
    function MessageMax(blockMax: nat): nat {
      if env.tx.Some? && env.tx.value.data.consensusMessages > 0
      then env.tx.value.data.consensusMessages
      else blockMax
    }

    /** The first non-internal environment in the hierarchy. */
    function OriginEnv(): Environment {
      if parent.Some? && env.internal then parent.value.OriginEnv() else env
    }

    /** `store` belongs to this state: an overlay that directly wraps the overlay of the parent
        state, all the way down to the root store, and only the topmost state holds anything. */
    predicate Fits(store: Store) {
      && store.Overlay?
      && store.overlay.Keys <= store.dirty
      && match parent
         case None => store.parent.Base?
         case Some(p) => p.store.None? && p.rng.None? && p.blockValues == map[] && p.Fits(store.parent)
    }

    /** The state that `CurrentState` points to, between any two operations. */
    predicate Valid() {
      store.Some? && rng.Some? && Fits(store.value)
    }

    /** `t` differs at most in what initialisation may touch: environment, RNG, block values. */
    predicate Initialises(t: State) {
      && t.parent == parent && t.store == store && t.localValues == localValues && t.rng.Some? == rng.Some?
      && t.events == events && t.unconditionalEvents == unconditionalEvents && t.messages == messages
    }

    function HideBlockValues(): (t: State)
      requires parent.Some?
      ensures Initialises(t)
    {
      if hiddenBlockValues.Some? then this
      else this.(hiddenBlockValues := Some(blockValues), blockValues := map[])
    }

    function DisableRng(): (t: State)
      requires parent.Some?
      ensures rng.Some? ==> Initialises(t)
    {
      if hiddenRng.Some? then this
      else this.(hiddenRng := rng, rng := Some(INVALID_RNG))
    }

    function AppendRng(item: RngItem): (t: State)
      requires rng.Some?
      ensures Initialises(t)
    {
      this.(rng := Some(rng.value.Append(item)))
    }

    function WithMode(mode: Option<Mode>): (t: State)
      requires parent.Some? || mode.None? || !(mode.value.PreSchedule? || mode.value.Simulate?)
      ensures Initialises(t)
    {
      if mode.None? then this
      else
        var s := this.(env := env.(mode := mode.value));
        if mode.value.PreSchedule? || mode.value.Simulate?
        then s.(alwaysRollback := true).HideBlockValues()
        else s
    }

    function WithTx(tx: Option<TxMeta>): (t: State)
      requires rng.Some?
      ensures Initialises(t)
    {
      if tx.None? then this
      else AppendRng(TxSeen(tx.value.hash)).(env := env.(tx := tx))
    }

    function WithInternal(internal: Option<bool>): (t: State)
      requires parent.Some? || internal != Some(true)
      ensures Initialises(t)
    {
      if internal.None? then this
      else
        var s := this.(env := env.(internal := internal.value));
        if internal.value then s.HideBlockValues() else s
    }

    function WithEntropy(entropy: Option<Bytes>): (t: State)
      requires rng.Some?
      ensures Initialises(t)
    {
      if entropy.None? then this else AppendRng(LocalEntropy(entropy.value))
    }

    /** Initialise a freshly opened state. Hiding on a root state is a panic, hence the demand. */
    function Init(opts: Options): (t: State)
      requires rng.Some?
      requires parent.Some? ||
               !(opts.mode in {Some(PreSchedule), Some(Simulate)} || opts.internal == Some(true) ||
                 env.mode.PreSchedule?)
      ensures Initialises(t)
    {
      var s := WithMode(opts.mode).WithTx(opts.tx).WithInternal(opts.internal).WithEntropy(opts.entropy);
      if s.env.mode.PreSchedule? then s.DisableRng() else s.AppendRng(SubContext)
    }

    /** Open a child state; the child takes the store, the block values and the RNG. */
    function Opened(): State {
      State(
        parent := Some(this.(store := None, blockValues := map[], rng := None)),
        store := if store.Some? then Some(Overlay(store.value, map[], {})) else None,
        events := map[], unconditionalEvents := map[], messages := [],
        blockValues := blockValues, hiddenBlockValues := None, localValues := map[],
        rng := rng, hiddenRng := None, env := env, alwaysRollback := false)
    }

    /** The unchecked cast of a parent store is on an overlay. */
    predicate CastIsSafe() {
      store.Some? ==> store.value.Overlay? && store.value.parent.Overlay?
    }

    /** The parent with the block values and the RNG put back. */
    function PutBack(): State
      requires parent.Some?
    {
      parent.value.(
        blockValues := if hiddenBlockValues.Some? then hiddenBlockValues.value else blockValues,
        rng := if hiddenRng.Some? then hiddenRng else rng)
    }

    function RolledBack(): State
      requires parent.Some? && CastIsSafe()
    {
      PutBack().(store := if store.Some? then Some(store.value.parent) else None)
    }

    function Propagated(): State
      requires parent.Some? && CastIsSafe()
    {
      var p := PutBack();
      p.(
        store := if store.Some? then Some(store.value.Committed()) else None,
        messages := p.messages + messages,
        events := Merged(p.events, events),
        unconditionalEvents := Merged(p.unconditionalEvents, unconditionalEvents))
    }

    function Committed(): State
      requires parent.Some? && CastIsSafe()
    {
      if alwaysRollback then RolledBack() else Propagated()
    }
  }

  /** The root state entered with the given mode over the content of the root store. */
  function Root(content: Content, mode: Mode): (s: State)
    requires mode.Execute? || mode.Check?
    ensures s.Valid() && s.Level() == 0 && s.store.value.View() == content
    ensures s.messages == [] && s.events == map[] && s.unconditionalEvents == map[] && s.env.tx.None?
  {
    var s := State(None, Some(Overlay(Base(content), map[], {})), map[], map[], [], map[], None, map[],
                   Some(Rng(true, mode, [])), None, Environment(Execute, None, false), false)
             .Init(NO_OPTIONS.(mode := Some(mode)));
    assert s.store.value.View() == content;
    s
  }

  /** What code running in a state cannot change once it is back at the level it started from. */
  predicate SameFrame(s: State, t: State)
    requires s.Valid() && t.Valid()
  {
    && t.parent == s.parent
    && t.store.value.parent == s.store.value.parent
    && t.hiddenRng == s.hiddenRng
    && t.env == s.env
    && t.alwaysRollback == s.alwaysRollback
    && (s.hiddenBlockValues.Some? ==> t.hiddenBlockValues == s.hiddenBlockValues)
  }

  /** Opening and initialising a child of a valid state gives a valid state one level up. */
  lemma OpenedIsValid(s: State, opts: Options)
    requires s.Valid()
    ensures s.Opened().Valid() && s.Opened().Init(opts).Valid()
    ensures s.Opened().Level() == s.Opened().Init(opts).Level() == s.Level() + 1
  {
    var t := s.Opened();
    assert t.parent.value.Fits(s.store.value);
    assert t.Fits(t.store.value);
    assert t.Initialises(t.Init(opts));
  }

  /** Closing a valid non-root state never casts a store that is not an overlay, and leaves a valid
      state one level down. */
  lemma ClosedIsValid(s: State)
    requires s.Valid() && s.parent.Some?
    ensures s.CastIsSafe()
    ensures s.RolledBack().Valid() && s.Committed().Valid()
    ensures s.RolledBack().Level() == s.Committed().Level() == s.Level() - 1
  {
    var p := s.store.value.parent;
    assert s.parent.value.Fits(p);
    FitsIgnoresUpdates(s.parent.value, p, s.store.value.Committed());
    FitsIgnoresUpdates(s.parent.value, p, p);
  }

  /** Only the shape of a store decides which state it belongs to. */
  lemma FitsIgnoresUpdates(s: State, p: Store, q: Store)
    requires s.Fits(p) && q.Overlay? && q.parent == p.parent && q.overlay.Keys <= q.dirty
    ensures forall t: State :: t.parent == s.parent ==> t.Fits(q)
  {
  }
}
