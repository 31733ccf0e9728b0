/** The block state updated in place, as runtime-sdk/src/state.rs does it: fields are swapped, taken
    and put back. Every method is tied to the function of the state's value that specifies it. */
module StateCells {
  import opened Basics
  import opened Storage
  import opened BlockState
  import opened Programs

  /** Extend the tags of `a` with those of `b`, one key at a time and in any order. */
  method ExtendTags(a: EventTags, b: EventTags) returns (r: EventTags)
    ensures r == Merged(a, b)
  {
    r := a;
    var keys := b.Keys;
    while keys != {}
      invariant keys <= b.Keys && r.Keys == a.Keys + (b.Keys - keys)
      invariant forall k | k in r :: r[k] == TagsAt(a, k) + (if k in keys then [] else TagsAt(b, k))
      decreases keys
    {
      var key :| key in keys;
      r := r[key := TagsAt(r, key) + b[key]];
      keys := keys - {key};
    }
  }

  class StateCell {
    var parent: Option<State>
    var store: Option<Store>
    var events: EventTags
    var unconditionalEvents: EventTags
    var messages: seq<Message>
    var blockValues: Values
    var hiddenBlockValues: Option<Values>
    var localValues: Values
    var rng: Option<Rng>
    var hiddenRng: Option<Rng>
    var env: Environment
    var alwaysRollback: bool

    function Value(): State
      reads this
    {
      State(parent, store, events, unconditionalEvents, messages, blockValues, hiddenBlockValues, localValues,
            rng, hiddenRng, env, alwaysRollback)
    }

    /** Attach a new root state over the content of the root store. */
    constructor (content: Content, mode: Mode)
      requires mode.Execute? || mode.Check?
      ensures Value() == Root(content, mode) && Value().Valid()
    {
      parent, store := None, Some(Overlay(Base(content), map[], {}));
      events, unconditionalEvents, messages := map[], map[], [];
      blockValues, hiddenBlockValues, localValues := map[], None, map[];
      rng, hiddenRng := Some(Rng(true, mode, [])), None;
      env, alwaysRollback := Environment(Execute, None, false), false;
      new;
      Init(NO_OPTIONS.(mode := Some(mode)));
    }

    /** Move another state into this object, returning nothing of the old one. */
    method Assign(s: State)
      modifies this
      ensures Value() == s
    {
      parent, store := s.parent, s.store;
      events, unconditionalEvents, messages := s.events, s.unconditionalEvents, s.messages;
      blockValues, hiddenBlockValues, localValues := s.blockValues, s.hiddenBlockValues, s.localValues;
      rng, hiddenRng, env, alwaysRollback := s.rng, s.hiddenRng, s.env, s.alwaysRollback;
    }

    method HideBlockValues()
      requires parent.Some?
      modifies this
      ensures Value() == old(Value()).HideBlockValues()
    {
      if hiddenBlockValues.Some? {
        return;
      }
      hiddenBlockValues, blockValues := Some(blockValues), map[];
    }

    method DisableRng()
      requires parent.Some?
      modifies this
      ensures Value() == old(Value()).DisableRng()
    {
      if hiddenRng.Some? {
        return;
      }
      hiddenRng, rng := rng, Some(INVALID_RNG);
    }

    method InitMode(mode: Option<Mode>)
      requires parent.Some? || mode.None? || !(mode.value.PreSchedule? || mode.value.Simulate?)
      modifies this
      ensures Value() == old(Value()).WithMode(mode)
      ensures env.mode == if mode.Some? then mode.value else old(env.mode)
    {
      if mode.Some? {
        env := env.(mode := mode.value);
        if mode.value.PreSchedule? || mode.value.Simulate? {
          alwaysRollback := true;
          HideBlockValues();
        }
      }
    }

    method InitInternal(internal: Option<bool>)
      requires parent.Some? || internal != Some(true)
      modifies this
      ensures Value() == old(Value()).WithInternal(internal) && env.mode == old(env.mode)
    {
      if internal.Some? {
        env := env.(internal := internal.value);
        if internal.value {
          HideBlockValues();
        }
      }
    }

    method AppendRng(item: RngItem)
      requires rng.Some?
      modifies this
      ensures Value() == old(Value()).AppendRng(item)
    {
      rng := Some(rng.value.Append(item));
    }

    method InitTx(tx: Option<TxMeta>)
      requires rng.Some?
      modifies this
      ensures Value() == old(Value()).WithTx(tx) && env.mode == old(env.mode)
    {
      if tx.Some? {
        AppendRng(TxSeen(tx.value.hash));
        env := env.(tx := tx);
      }
    }

    method InitEntropy(entropy: Option<Bytes>)
      requires rng.Some?
      modifies this
      ensures Value() == old(Value()).WithEntropy(entropy) && env.mode == old(env.mode)
    {
      if entropy.Some? {
        AppendRng(LocalEntropy(entropy.value));
      }
    }

    /** Initialise the state with the given options. */
    method Init(opts: Options)
      requires rng.Some?
      requires parent.Some? ||
               !(opts.mode in {Some(PreSchedule), Some(Simulate)} || opts.internal == Some(true) ||
                 env.mode.PreSchedule?)
      modifies this
      ensures Value() == old(Value()).Init(opts)
    {
      hide State.WithMode, State.WithTx, State.WithInternal, State.WithEntropy;
      InitMode(opts.mode);
      InitTx(opts.tx);
      InitInternal(opts.internal);
      InitEntropy(opts.entropy);
      if env.mode.PreSchedule? {
        DisableRng();
      } else {
        AppendRng(SubContext);
      }
    }

    /** Open a child state after which this object holds the child. */
    method Open()
      modifies this
      ensures Value() == old(Value()).Opened()
    {
      var p := Value();
      // Wrap the parent store; the child keeps the block values and the RNG until it is closed.
      var overlay := if p.store.Some? then Some(Overlay(p.store.value, map[], {})) else None;
      var child := State(
        Some(p.(store := None, blockValues := map[], rng := None)), overlay, map[], map[], [],
        p.blockValues, None, map[], p.rng, None, p.env, false);
      Assign(child);
    }

    /** Put back the block values and the RNG of a closed child. */
    method PutBackFrom(child: State)
      modifies this
      ensures Value() == old(Value()).(
                blockValues := if child.hiddenBlockValues.Some? then child.hiddenBlockValues.value
                               else child.blockValues,
                rng := if child.hiddenRng.Some? then child.hiddenRng else child.rng)
    {
      if child.hiddenBlockValues.Some? {
        blockValues := child.hiddenBlockValues.value;
      } else {
        blockValues := child.blockValues;
      }
      if child.hiddenRng.Some? {
        rng := child.hiddenRng;
      } else {
        rng := child.rng;
      }
    }

    method Rollback()
      requires parent.Some? && Value().CastIsSafe()
      modifies this
      ensures Value() == old(Value()).RolledBack()
      ensures old(Value()).Valid() ==> Value().Valid()
    {
      var child := Value();
      Assign(child.parent.value);
      if child.store.Some? {
        store := Some(child.store.value.parent);
      } else {
        store := None;
      }
      PutBackFrom(child);
      if child.Valid() {
        ClosedIsValid(child);
      }
    }

    method Commit()
      requires parent.Some? && Value().CastIsSafe() && (store.Some? ==> store.value.Valid())
      modifies this
      ensures Value() == old(Value()).Committed()
      ensures old(Value()).Valid() ==> Value().Valid()
    {
      if alwaysRollback {
        Rollback();
        return;
      }
      var child := Value();
      Assign(child.parent.value);
      if child.store.Some? {
        var committed := CommitOverlay(child.store.value);
        store := Some(committed);
      } else {
        store := None;
      }
      messages := messages + child.messages;
      events := ExtendTags(events, child.events);
      unconditionalEvents := ExtendTags(unconditionalEvents, child.unconditionalEvents);
      PutBackFrom(child);
      if child.Valid() {
        ClosedIsValid(child);
      }
    }

    /** The guard of a transaction: roll back if it was neither committed nor rolled back. */
    method DropGuard(level: nat)
      requires Value().Valid() && parent.Some?
      modifies this
      ensures Value() == Left(old(Value()), Unwind, Some(level))
    {
      if Value().Level() == level {
        ClosedIsValid(Value());
        Rollback();
      }
    }

    method EmitMessage(maxMessages: nat, message: Message) returns (ok: bool)
      requires Value().Valid()
      modifies this
      ensures (Value(), Some(Flag(ok))) == Step(maxMessages, Op.EmitMessage(message), old(Value()))
    {
      if Value().MessageCount() >= Value().MessageMax(maxMessages) {
        return false;
      }
      messages := messages + [message];
      return true;
    }

    method EmitEvent(key: Bytes, event: Bytes)
      modifies this
      ensures Value() == old(Value()).(events := Merged(old(events), map[key := [event]]))
    {
      PushedIsMerged(events, key, event);
      events := events[key := TagsAt(events, key) + [event]];
    }

    method EmitUnconditionalEvent(key: Bytes, event: Bytes)
      modifies this
      ensures Value() == old(Value()).(unconditionalEvents := Merged(old(unconditionalEvents), map[key := [event]]))
    {
      PushedIsMerged(unconditionalEvents, key, event);
      unconditionalEvents := unconditionalEvents[key := TagsAt(unconditionalEvents, key) + [event]];
    }

    /** Take all events: the regular ones, extended per key with the unconditional ones. */
    method TakeAllEvents() returns (tags: EventTags)
      modifies this
      ensures tags == Merged(old(events), old(unconditionalEvents))
      ensures Value() == old(Value()).(events := map[], unconditionalEvents := map[])
    {
      var unconditional := unconditionalEvents;
      tags, events, unconditionalEvents := events, map[], map[];
      tags := ExtendTags(tags, unconditional);
    }

    /** Operations on the store. */
    method UseStore(op: Op) returns (resp: Option<Resp>)
      requires Value().Valid() && (op.StoreGet? || op.StoreInsert? || op.StoreRemove? || op.HasPendingUpdates?)
      modifies this
      ensures (Value(), resp) == Step(0, op, old(Value()))
    {
      match op {
        case StoreGet(key) => return Some(Stored(store.value.Get(key)));
        case StoreInsert(key, value) => store := Some(store.value.Insert(key, value));
        case StoreRemove(key) => store := Some(store.value.Remove(key));
        case HasPendingUpdates => return Some(Flag(store.value.dirty != {}));
      }
      resp := Some(Unit);
    }

    /** Operations on events and messages. */
    method UseQueues(maxMessages: nat, op: Op) returns (resp: Option<Resp>)
      requires Value().Valid()
      requires op.EmitEvent? || op.EmitUnconditionalEvent? || op.TakeEvents? || op.TakeUnconditionalEvents? ||
               op.EmitMessage? || op.TakeMessages?
      modifies this
      ensures (Value(), resp) == Step(maxMessages, op, old(Value()))
    {
      resp := Some(Unit);
      match op {
        case EmitEvent(key, event) => EmitEvent(key, event);
        case EmitUnconditionalEvent(key, event) => EmitUnconditionalEvent(key, event);
        case TakeEvents => resp, events := Some(Tags(events)), map[];
        case TakeUnconditionalEvents => resp, unconditionalEvents := Some(Tags(unconditionalEvents)), map[];
        case TakeMessages => resp, messages := Some(Messages(messages)), [];
        case EmitMessage(message) =>
          var ok := EmitMessage(maxMessages, message);
          resp := Some(Flag(ok));
      }
    }

    /** Operations on block values. */
    method UseBlockValues(op: Op) returns (resp: Option<Resp>)
      requires Value().Valid() && (op.BlockGet? || op.BlockSet? || op.BlockTake?)
      modifies this
      ensures (Value(), resp) == Step(0, op, old(Value()))
    {
      match op {
        case BlockGet(name) => return Some(Held(Lookup(blockValues, name)));
        case BlockTake(name) => resp, blockValues := Some(Held(Lookup(blockValues, name))), blockValues - {name};
        case BlockSet(name, n) => resp, blockValues := Some(Unit), blockValues[name := n];
      }
    }

    /** Operations on local values. */
    method UseLocalValues(op: Op) returns (resp: Option<Resp>)
      requires Value().Valid() && (op.LocalGet? || op.LocalSet? || op.LocalTake?)
      modifies this
      ensures (Value(), resp) == Step(0, op, old(Value()))
    {
      match op {
        case LocalGet(name) => return Some(Held(Lookup(localValues, name)));
        case LocalTake(name) => resp, localValues := Some(Held(Lookup(localValues, name))), localValues - {name};
        case LocalSet(name, n) => resp, localValues := Some(Unit), localValues[name := n];
      }
    }

    /** Any operation of a module; no response means a panic. */
    method Perform(maxMessages: nat, op: Op) returns (resp: Option<Resp>)
      requires Value().Valid()
      modifies this
      ensures (Value(), resp) == Step(maxMessages, op, old(Value()))
    {
      match op {
        case CountMessages => return Some(Count(Value().MessageCount()));
        case MaxMessages => return Some(Count(Value().MessageMax(maxMessages)));
        case GetEnv => return Some(Env(env));
        case GetOriginEnv => return Some(Env(Value().OriginEnv()));
        case GetLevel => return Some(Count(Value().Level()));
        case HideValues =>
          if parent.None? {
            return None;
          }
          HideBlockValues();
          return Some(Unit);
        case RngFork(pers) =>
          if !rng.value.valid {
            return Some(Leaf(None));
          }
          resp := Some(Leaf(Some(rng.value.transcript + [Fork(pers)])));
          AppendRng(Fork(pers));
        case StoreGet(_) => resp := UseStore(op);
        case StoreInsert(_, _) => resp := UseStore(op);
        case StoreRemove(_) => resp := UseStore(op);
        case HasPendingUpdates => resp := UseStore(op);
        case BlockGet(_) => resp := UseBlockValues(op);
        case BlockSet(_, _) => resp := UseBlockValues(op);
        case BlockTake(_) => resp := UseBlockValues(op);
        case LocalGet(_) => resp := UseLocalValues(op);
        case LocalSet(_, _) => resp := UseLocalValues(op);
        case LocalTake(_) => resp := UseLocalValues(op);
        case _ => resp := UseQueues(maxMessages, op);
      }
    }
  }

  lemma PushedIsMerged(tags: EventTags, key: Bytes, event: Bytes)
    ensures tags[key := TagsAt(tags, key) + [event]] == Merged(tags, map[key := [event]])
  {
    var pushed, merged := tags[key := TagsAt(tags, key) + [event]], Merged(tags, map[key := [event]]);
    assert pushed.Keys == merged.Keys;
    forall k | k in pushed ensures pushed[k] == merged[k] {
      assert TagsAt(map[key := [event]], k) == if k == key then [event] else [];
    }
  }
}
