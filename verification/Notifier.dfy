/** Block notifications of a ROFL application: the processor forwards new rounds
    (rofl-app-core/src/processor.rs), the notifier coalesces them and runs the application's callback
    (rofl-app-core/src/notifier.rs). */
module Notifier {
  import opened Basics

  datatype Notify = RuntimeBlock(round: nat) | RuntimeBlockDone | InitialRegistrationCompleted

  /** The local variables of the notifier task. */
  datatype Local = Local(registered: bool, pending: bool, running: bool, lastRound: nat)

  /** Handle a notification; the result is the round to run the callback with, if one is spawned. */
  function Handled(l: Local, n: Notify): (Local, Option<nat>) {
    if n.RuntimeBlock? && !l.registered then (l, None)
    else
      var l := match n
        case RuntimeBlock(round) => l.(pending := true, lastRound := round)
        case RuntimeBlockDone => l.(running := false)
        case InitialRegistrationCompleted => l.(registered := true);
      if l.registered && l.pending && !l.running
      then (l.(pending := false, running := true), Some(l.lastRound))
      else (l, None)
  }

  /** The whole arrangement. `callbacks` are the callbacks now running, `delivered` all rounds ever
      handed to one, and `newest` the last round received by the notifier after registration. */
  datatype System = System(
    latestRound: nat, channel: seq<Notify>, local: Local,
    callbacks: seq<nat>, delivered: seq<nat>, newest: Option<nat>)

  const START := System(0, [], Local(false, false, false, 0), [], [], None)

  datatype Event = Block(round: nat) | Registered | Receive | Finish(callback: nat)

  /** The processor ignores rounds that do not move forward; the notifier takes the oldest
      notification; a finishing callback reports back through the same channel. */
  function After(s: System, e: Event): System
    requires e.Receive? ==> s.channel != []
    requires e.Finish? ==> e.callback < |s.callbacks|
  {
    match e
    case Block(round) =>
      if round <= s.latestRound then s
      else s.(latestRound := round, channel := s.channel + [RuntimeBlock(round)])
    case Registered => s.(channel := s.channel + [InitialRegistrationCompleted])
    case Finish(i) =>
      s.(callbacks := s.callbacks[..i] + s.callbacks[i + 1..], channel := s.channel + [RuntimeBlockDone])
    case Receive =>
      var n := s.channel[0];
      var (local, spawned) := Handled(s.local, n);
      var s := s.(channel := s.channel[1..], local := local,
                  newest := if n.RuntimeBlock? && local.registered then Some(n.round) else s.newest);
      if spawned.None? then s
      else s.(callbacks := s.callbacks + [spawned.value], delivered := s.delivered + [spawned.value])
  }

  function DoneIn(channel: seq<Notify>): nat {
    if channel == [] then 0 else (if channel[0].RuntimeBlockDone? then 1 else 0) + DoneIn(channel[1..])
  }

  /** Rounds in the channel grow strictly and lie between `low` and `high`. */
  predicate Rising(channel: seq<Notify>, low: nat, high: nat) {
    if channel == [] then low <= high
    else if channel[0].RuntimeBlock? then low < channel[0].round && Rising(channel[1..], channel[0].round, high)
    else Rising(channel[1..], low, high)
  }

  predicate Increasing(s: seq<nat>) {
    forall i, j | 0 <= i < j < |s| :: s[i] < s[j]
  }

  /** Every running callback is accounted for by the running flag or by a report under way, the
      channel only brings newer rounds, and nothing received is waiting while nothing is running. */
  predicate Inv(s: System) {
    && |s.callbacks| + DoneIn(s.channel) == (if s.local.running then 1 else 0)
    && Rising(s.channel, s.local.lastRound, s.latestRound)
    && Increasing(s.delivered)
    && (forall r | r in s.delivered :: if s.local.pending then r < s.local.lastRound else r <= s.local.lastRound)
    && (s.local.pending ==> s.local.running && s.newest.Some?)
    && (s.newest.Some? ==> s.local.registered && s.newest.value == s.local.lastRound)
    && (s.newest.Some? && !s.local.pending ==> s.delivered != [] && s.delivered[|s.delivered| - 1] == s.newest.value)
    && (s.newest.None? ==> s.local.lastRound == 0 && s.delivered == [])
  }

  lemma {:induction false} DoneInAppends(channel: seq<Notify>, n: Notify)
    ensures DoneIn(channel + [n]) == DoneIn(channel) + if n.RuntimeBlockDone? then 1 else 0
  {
    if channel != [] {
      DoneInAppends(channel[1..], n);
      assert (channel + [n])[1..] == channel[1..] + [n];
    }
  }

  lemma {:induction false} RisingAppends(channel: seq<Notify>, low: nat, high: nat, n: Notify, high': nat)
    requires Rising(channel, low, high) && high <= high' && (n.RuntimeBlock? ==> high < n.round <= high')
    ensures Rising(channel + [n], low, high')
  {
    if channel == [] {
      assert [n][1..] == [];
    } else {
      RisingAppends(channel[1..], if channel[0].RuntimeBlock? then channel[0].round else low, high, n, high');
      assert (channel + [n])[1..] == channel[1..] + [n];
    }
  }

  lemma {:induction false} RisingLowers(channel: seq<Notify>, low: nat, low': nat, high: nat)
    requires Rising(channel, low, high) && low' <= low
    ensures Rising(channel, low', high)
  {
    if channel != [] && !channel[0].RuntimeBlock? {
      RisingLowers(channel[1..], low, low', high);
    }
  }

  lemma ReceivingKeepsInv(s: System)
    requires Inv(s) && s.channel != []
    ensures Inv(After(s, Receive))
  {
    var n, t := s.channel[0], After(s, Receive);
    assert DoneIn(s.channel) == (if n.RuntimeBlockDone? then 1 else 0) + DoneIn(s.channel[1..]);
    if n.RuntimeBlock? && !s.local.registered {
      RisingLowers(s.channel[1..], n.round, s.local.lastRound, s.latestRound);
    }
    var spawned := Handled(s.local, n).1;
    if spawned.Some? {
      assert forall r | r in t.delivered :: r in s.delivered || r == spawned.value;
      assert forall i | 0 <= i < |s.delivered| :: s.delivered[i] in s.delivered;
    }
  }

  lemma StepKeepsInv(s: System, e: Event)
    requires Inv(s) && (e.Receive? ==> s.channel != []) && (e.Finish? ==> e.callback < |s.callbacks|)
    ensures Inv(After(s, e))
  {
    match e
    case Block(round) =>
      DoneInAppends(s.channel, RuntimeBlock(round));
      if round > s.latestRound {
        RisingAppends(s.channel, s.local.lastRound, s.latestRound, RuntimeBlock(round), round);
      }
    case Registered =>
      DoneInAppends(s.channel, InitialRegistrationCompleted);
      RisingAppends(s.channel, s.local.lastRound, s.latestRound, InitialRegistrationCompleted, s.latestRound);
    case Finish(_) =>
      DoneInAppends(s.channel, RuntimeBlockDone);
      RisingAppends(s.channel, s.local.lastRound, s.latestRound, RuntimeBlockDone, s.latestRound);
    case Receive => ReceivingKeepsInv(s);
  }

  predicate IsRun(s: System, events: seq<Event>)
    decreases events
  {
    events != [] ==>
      && (events[0].Receive? ==> s.channel != [])
      && (events[0].Finish? ==> events[0].callback < |s.callbacks|)
      && IsRun(After(s, events[0]), events[1..])
  }

  function Reached(s: System, events: seq<Event>): System
    requires IsRun(s, events)
    decreases events
  {
    if events == [] then s else Reached(After(s, events[0]), events[1..])
  }

  lemma {:induction false} RunsKeepInv(s: System, events: seq<Event>)
    requires Inv(s) && IsRun(s, events)
    ensures Inv(Reached(s, events))
    decreases events
  {
    if events != [] {
      StepKeepsInv(s, events[0]);
      RunsKeepInv(After(s, events[0]), events[1..]);
    }
  }

  /** Over every run: at most one callback is running; the rounds handed to callbacks strictly
      increase; and whenever no callback is running or still reporting back, the newest round received
      after registration has been delivered, so no update is lost. */
  lemma NotificationsAreSafe(events: seq<Event>)
    requires IsRun(START, events)
    ensures var s := Reached(START, events);
            && |s.callbacks| <= 1
            && Increasing(s.delivered)
            && (s.callbacks == [] && RuntimeBlockDone !in s.channel ==> !s.local.running)
            && (!s.local.running && s.newest.Some? ==>
                  s.delivered != [] && s.delivered[|s.delivered| - 1] == s.newest.value)
  {
    RunsKeepInv(START, events);
    var s := Reached(START, events);
    if RuntimeBlockDone !in s.channel {
      NoneDone(s.channel);
    }
  }

  lemma {:induction false} NoneDone(channel: seq<Notify>)
    requires RuntimeBlockDone !in channel
    ensures DoneIn(channel) == 0
  {
    if channel != [] {
      assert channel[0] in channel;
      NoneDone(channel[1..]);
    }
  }

  /** The notifier task, its variables updated by each notification. */
  class Task {
    var registered: bool
    var pending: bool
    var running: bool
    var lastRound: nat

    function Value(): Local
      reads this
    {
      Local(registered, pending, running, lastRound)
    }

    constructor ()
      ensures Value() == START.local
    {
      registered, pending, running, lastRound := false, false, false, 0;
    }

    method Handle(n: Notify) returns (spawned: Option<nat>)
      modifies this
      ensures (Value(), spawned) == Handled(old(Value()), n)
    {
      match n {
        case RuntimeBlock(round) =>
          if !registered {
            return None;
          }
          pending, lastRound := true, round;
        case RuntimeBlockDone => running := false;
        case InitialRegistrationCompleted => registered := true;
      }
      if !registered {
        return None;
      }
      if pending && !running {
        pending, running := false, true;
        return Some(lastRound);
      }
      return None;
    }
  }

  /** The part of the processor that tracks rounds. */
  class Processor {
    var latestRound: nat

    constructor ()
      ensures latestRound == 0
    {
      latestRound := 0;
    }

    method ProcessRuntimeBlock(round: nat) returns (sent: Option<Notify>)
      modifies this
      ensures sent == if round > old(latestRound) then Some(RuntimeBlock(round)) else None
      ensures latestRound == if round > old(latestRound) then round else old(latestRound)
    {
      if round <= latestRound {
        return None;
      }
      latestRound := round;
      return Some(RuntimeBlock(latestRound));
    }
  }
}
