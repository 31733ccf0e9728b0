/** The transaction submission manager that avoids nonce conflicts
    (`SubmissionManagerImpl::run`, rofl-app-core/src/client.rs): commands are started concurrently
    as long as no two of them in flight share a signer. */
module Submission {
  type Key = nat

  /** A queued submission, numbered in the order of arrival. */
  datatype Cmd = Cmd(id: nat, signers: set<Key>)

  datatype Scanned = Scanned(deferred: seq<Cmd>, pending: set<Key>, started: seq<Cmd>)

  /** One pass over the queue: start whatever does not conflict, defer the rest. */
  function Scan(queue: seq<Cmd>, pending: set<Key>): Scanned {
    if queue == [] then Scanned([], pending, [])
    else
      var r, cmd := Scan(queue[..|queue| - 1], pending), queue[|queue| - 1];
      if cmd.signers !! r.pending
      then r.(pending := r.pending + cmd.signers, started := r.started + [cmd])
      else r.(deferred := r.deferred + [cmd])
  }

  predicate Sorted(s: seq<Cmd>) {
    forall i, j | 0 <= i < j < |s| :: s[i].id < s[j].id
  }

  predicate Disjoint(s: seq<Cmd>) {
    forall i, j | 0 <= i < j < |s| :: s[i].signers !! s[j].signers
  }

  /** `pending` is exactly `base` and the signers of `cmds`. */
  ghost predicate Covers(pending: set<Key>, base: set<Key>, cmds: seq<Cmd>) {
    forall k :: k in pending <==> k in base || exists c :: c in cmds && k in c.signers
  }

  /** A started command comes after every earlier one of `all` whose signers it includes. */
  predicate Orderly(all: seq<Cmd>, started: seq<Cmd>) {
    forall c, q | c in all && 0 <= q < |started| && c.id < started[q].id && c.signers <= started[q].signers ::
      c in started[..q]
  }

  lemma {:induction false} ScanCovers(queue: seq<Cmd>, pending: set<Key>)
    ensures var r := Scan(queue, pending); Covers(r.pending, pending, r.started)
  {
    if queue != [] {
      hide Covers;
      var init, cmd := queue[..|queue| - 1], queue[|queue| - 1];
      ScanCovers(init, pending);
      var r := Scan(init, pending);
      CoversMore(r.pending, pending, r.started, cmd);
    } else {
      var none: seq<Cmd> := [];
      assert forall c :: c !in none;
    }
  }

  lemma CoversMore(covered: set<Key>, base: set<Key>, cmds: seq<Cmd>, cmd: Cmd)
    requires Covers(covered, base, cmds)
    ensures Covers(covered + cmd.signers, base, cmds + [cmd])
  {
    assert forall c :: c in cmds + [cmd] <==> c in cmds || c == cmd;
  }

  /** What has been started is disjoint from what was pending, and pairwise disjoint. */
  lemma {:induction false} ScanSeparates(queue: seq<Cmd>, pending: set<Key>)
    ensures var r := Scan(queue, pending);
            && pending <= r.pending && Disjoint(r.started)
            && (forall i | 0 <= i < |r.started| :: r.started[i].signers <= r.pending && r.started[i].signers !! pending)
  {
    if queue != [] {
      hide Disjoint;
      var init, cmd := queue[..|queue| - 1], queue[|queue| - 1];
      ScanSeparates(init, pending);
      var r := Scan(init, pending);
      if cmd.signers !! r.pending {
        assert forall i | 0 <= i < |r.started| :: r.started[i].signers !! cmd.signers;
        DisjointAppends(r.started, cmd);
      }
    } else {
      assert Disjoint([]);
    }
  }

  lemma DisjointAppends(s: seq<Cmd>, cmd: Cmd)
    requires Disjoint(s) && forall i | 0 <= i < |s| :: s[i].signers !! cmd.signers
    ensures Disjoint(s + [cmd])
  {
  }

  predicate Conflicting(cmds: seq<Cmd>, pending: set<Key>) {
    forall c | c in cmds :: c.signers * pending != {}
  }

  lemma ConflictsGrow(cmds: seq<Cmd>, pending: set<Key>, more: set<Key>)
    requires Conflicting(cmds, pending)
    ensures Conflicting(cmds, pending + more)
  {
    forall c | c in cmds ensures c.signers * (pending + more) != {} {
      var k :| k in c.signers * pending;
      assert k in c.signers * (pending + more);
    }
  }

  lemma {:induction false} ScanDefers(queue: seq<Cmd>, pending: set<Key>)
    ensures var r := Scan(queue, pending); Conflicting(r.deferred, r.pending)
  {
    if queue != [] {
      var init, cmd := queue[..|queue| - 1], queue[|queue| - 1];
      ScanDefers(init, pending);
      var r := Scan(init, pending);
      ConflictsGrow(r.deferred, r.pending, cmd.signers);
      if !(cmd.signers !! r.pending) {
        var k :| k in cmd.signers && k in r.pending;
        assert k in cmd.signers * r.pending;
        assert forall c | c in r.deferred + [cmd] :: c in r.deferred || c == cmd;
      }
    }
  }

  /** What a scan starts and what it defers. */
  lemma ScanStarts(queue: seq<Cmd>, pending: set<Key>)
    ensures var r := Scan(queue, pending);
            && Covers(r.pending, pending, r.started)
            && Disjoint(r.started)
            && (forall c | c in r.started :: c.signers !! pending)
            && (forall c | c in r.deferred :: !(c.signers !! r.pending))
  {
    hide Scan, Covers, Disjoint;
    ScanCovers(queue, pending);
    ScanSeparates(queue, pending);
    ScanDefers(queue, pending);
  }

  lemma {:induction false} ScanSplits(queue: seq<Cmd>, pending: set<Key>, c: Cmd)
    ensures var r := Scan(queue, pending); c in queue <==> c in r.started || c in r.deferred
  {
    if queue != [] {
      var init, cmd := queue[..|queue| - 1], queue[|queue| - 1];
      ScanSplits(init, pending, c);
      assert queue == init + [cmd];
    }
  }

  lemma {:induction false} ScanKeepsOrder(queue: seq<Cmd>, pending: set<Key>)
    requires Sorted(queue)
    ensures var r := Scan(queue, pending); Sorted(r.started) && Sorted(r.deferred)
  {
    if queue != [] {
      hide Sorted;
      var init, cmd := queue[..|queue| - 1], queue[|queue| - 1];
      assert Sorted(init) && (forall c | c in init :: c.id < cmd.id) by { LastIsLargest(queue); }
      ScanKeepsOrder(init, pending);
      var r := Scan(init, pending);
      forall c | c in r.started || c in r.deferred ensures c in init { ScanSplits(init, pending, c); }
      SortedAppends(r.started, cmd);
      SortedAppends(r.deferred, cmd);
    } else {
      assert Sorted([]);
    }
  }

  lemma {:induction false} ScanDivides(queue: seq<Cmd>, pending: set<Key>, c: Cmd)
    requires Sorted(queue)
    ensures var r := Scan(queue, pending); !(c in r.started && c in r.deferred)
  {
    if queue != [] {
      hide Sorted;
      var init, cmd := queue[..|queue| - 1], queue[|queue| - 1];
      assert Sorted(init) && (forall c | c in init :: c.id < cmd.id) by { LastIsLargest(queue); }
      ScanDivides(init, pending, c);
      ScanSplits(init, pending, c);
    }
  }

  /** A scan splits the queue: every command is started or deferred, not both, in the queue's order. */
  lemma ScanPartitions(queue: seq<Cmd>, pending: set<Key>)
    requires Sorted(queue)
    ensures var r := Scan(queue, pending);
            && Sorted(r.started) && Sorted(r.deferred)
            && (forall c :: c in queue <==> c in r.started || c in r.deferred)
            && (forall c :: !(c in r.started && c in r.deferred))
  {
    hide Scan, Sorted;
    ScanKeepsOrder(queue, pending);
    var r := Scan(queue, pending);
    forall c ensures (c in queue <==> c in r.started || c in r.deferred) && !(c in r.started && c in r.deferred) {
      ScanSplits(queue, pending, c);
      ScanDivides(queue, pending, c);
    }
  }

  lemma LastIsLargest(queue: seq<Cmd>)
    requires Sorted(queue) && queue != []
    ensures Sorted(queue[..|queue| - 1])
    ensures forall c | c in queue[..|queue| - 1] :: c.id < queue[|queue| - 1].id
  {
  }

  lemma SortedAppends(s: seq<Cmd>, cmd: Cmd)
    requires Sorted(s) && forall c | c in s :: c.id < cmd.id
    ensures Sorted(s + [cmd])
  {
    assert forall i | 0 <= i < |s| :: s[i] in s;
  }

  /** Within a scan, a command never overtakes one whose signers it includes. */
  lemma {:induction false} ScanIsOrderly(queue: seq<Cmd>, pending: set<Key>)
    requires Sorted(queue)
    ensures Orderly(queue, Scan(queue, pending).started)
  {
    if queue != [] {
      var init, cmd := queue[..|queue| - 1], queue[|queue| - 1];
      ScanIsOrderly(init, pending);
      ScanStarts(init, pending);
      ScanPartitions(init, pending);
      ScanPartitions(queue, pending);
      var r, s := Scan(init, pending), Scan(queue, pending);
      forall c, q | c in queue && 0 <= q < |s.started| && c.id < s.started[q].id && c.signers <= s.started[q].signers
        ensures c in s.started[..q]
      {
        if q < |r.started| {
          assert s.started[q] == r.started[q] && s.started[..q] == r.started[..q];
          assert r.started[q] in init;
          assert c in init;
        } else {
          assert s.started[q] == cmd && s.started[..q] == r.started;
          assert c in init;
          assert c.signers !! r.pending;
        }
      }
    }
  }

  /** The manager with everything around it: what has arrived and been started so far, and which
      started commands have not yet been reported as completed. */
  datatype System = System(
    arrived: seq<Cmd>, queue: seq<Cmd>, pending: set<Key>, inFlight: set<Cmd>, started: seq<Cmd>)

  datatype Event = Arrive(signers: set<Key>) | Complete(cmd: Cmd)

  /** Process an event, then scan the queue. A completion comes from a command in flight. */
  function After(s: System, e: Event): System
    requires e.Complete? ==> e.cmd in s.inFlight
  {
    var t := match e
      case Arrive(signers) =>
        var cmd := Cmd(|s.arrived|, signers);
        s.(arrived := s.arrived + [cmd], queue := s.queue + [cmd])
      case Complete(cmd) => s.(pending := s.pending - cmd.signers, inFlight := s.inFlight - {cmd});
    var r := Scan(t.queue, t.pending);
    t.(queue := r.deferred, pending := r.pending, started := s.started + r.started,
       inFlight := t.inFlight + set c | c in r.started)
  }

  /** `pending` is exactly the disjoint union of the signer sets in flight. */
  ghost predicate Exclusive(pending: set<Key>, inFlight: set<Cmd>) {
    && (forall k :: k in pending <==> exists c :: c in inFlight && k in c.signers)
    && (forall c, c' | c in inFlight && c' in inFlight && c != c' :: c.signers !! c'.signers)
  }

  ghost predicate Numbered(s: System) {
    && (forall i | 0 <= i < |s.arrived| :: s.arrived[i].id == i)
    && Sorted(s.queue)
    && (forall c :: c in s.arrived <==> c in s.started || c in s.queue)
    && (forall c :: !(c in s.started && c in s.queue))
    && (forall c | c in s.inFlight :: c in s.started)
  }

  ghost predicate Inv(s: System) {
    && Exclusive(s.pending, s.inFlight)
    && Numbered(s)
    && Orderly(s.arrived, s.started)
    && (forall c | c in s.queue :: !(c.signers !! s.pending))
  }

  /** What the scan of a step starts joins what is in flight without sharing a key. */
  lemma StartingIsExclusive(pending: set<Key>, inFlight: set<Cmd>, queue: seq<Cmd>)
    requires Exclusive(pending, inFlight)
    ensures var r := Scan(queue, pending); Exclusive(r.pending, inFlight + set c | c in r.started)
  {
    ScanStarts(queue, pending);
    var r := Scan(queue, pending);
    Joining(pending, inFlight, r.pending, r.started);
  }

  lemma Joining(pending: set<Key>, inFlight: set<Cmd>, joined: set<Key>, started: seq<Cmd>)
    requires Exclusive(pending, inFlight) && Covers(joined, pending, started) && Disjoint(started)
    requires forall c | c in started :: c.signers !! pending
    ensures Exclusive(joined, inFlight + set c | c in started)
  {
    var all := inFlight + set c | c in started;
    forall k ensures k in joined <==> exists c :: c in all && k in c.signers {
      if k in pending {
        var c :| c in inFlight && k in c.signers;
        assert c in all;
      } else if k in joined {
        var c :| c in started && k in c.signers;
        assert c in all;
      } else {
        assert forall c | c in inFlight :: k !in c.signers;
      }
    }
    forall c, c' | c in all && c' in all && c != c' ensures c.signers !! c'.signers {
      if c in started && c' in started {
        var i :| 0 <= i < |started| && started[i] == c;
        var j :| 0 <= j < |started| && started[j] == c';
        assert i < j || j < i;
      } else {
        assert forall x | x in inFlight :: x.signers <= pending;
      }
    }
  }

  /** A completion frees the command's own keys and no other. */
  lemma CompletionFreesOwnKeys(pending: set<Key>, inFlight: set<Cmd>, cmd: Cmd)
    requires Exclusive(pending, inFlight) && cmd in inFlight
    ensures Exclusive(pending - cmd.signers, inFlight - {cmd})
  {
    forall k ensures k in pending - cmd.signers <==> exists c :: c in inFlight - {cmd} && k in c.signers {
      if k in pending - cmd.signers {
        var c :| c in inFlight && k in c.signers;
        assert c in inFlight - {cmd};
      }
    }
  }

  /** The bookkeeping after an arrival or a completion, before the scan. */
  ghost predicate Ready(s: System) {
    && Exclusive(s.pending, s.inFlight)
    && Numbered(s)
    && Orderly(s.arrived, s.started)
  }

  lemma ArrivalIsReady(s: System, signers: set<Key>)
    requires Inv(s)
    ensures var cmd := Cmd(|s.arrived|, signers);
            Ready(s.(arrived := s.arrived + [cmd], queue := s.queue + [cmd]))
  {
    var cmd := Cmd(|s.arrived|, signers);
    var arrived, queue := s.arrived + [cmd], s.queue + [cmd];
    assert forall c :: c in arrived <==> c in s.arrived || c == cmd;
    assert forall c :: c in queue <==> c in s.queue || c == cmd;
    assert forall i | 0 <= i < |s.queue| :: s.queue[i] in s.queue;
    assert forall c | c in s.arrived :: c.id < cmd.id;
    forall c, q | c in arrived && 0 <= q < |s.started| && c.id < s.started[q].id && c.signers <= s.started[q].signers
      ensures c in s.started[..q]
    {
      assert s.started[q] in s.arrived;
    }
  }

  lemma ScanKeepsInv(s: System)
    requires Ready(s)
    ensures var r := Scan(s.queue, s.pending);
            Inv(s.(queue := r.deferred, pending := r.pending, started := s.started + r.started,
                   inFlight := s.inFlight + set c | c in r.started))
  {
    hide Scan, Exclusive, Orderly, Covers, Disjoint, Sorted;
    var r := Scan(s.queue, s.pending);
    StartingIsExclusive(s.pending, s.inFlight, s.queue);
    ScanStarts(s.queue, s.pending);
    ScanPartitions(s.queue, s.pending);
    ScanIsOrderly(s.queue, s.pending);
    StartsInOrder(s, r.started);
    assert forall c :: c in s.started + r.started <==> c in s.started || c in r.started;
  }

  /** Every step keeps the invariant. */
  lemma StepKeepsInv(s: System, e: Event)
    requires Inv(s) && (e.Complete? ==> e.cmd in s.inFlight)
    ensures Inv(After(s, e))
  {
    match e
    case Arrive(signers) =>
      var cmd := Cmd(|s.arrived|, signers);
      ArrivalIsReady(s, signers);
      ScanKeepsInv(s.(arrived := s.arrived + [cmd], queue := s.queue + [cmd]));
    case Complete(cmd) =>
      CompletionFreesOwnKeys(s.pending, s.inFlight, cmd);
      ScanKeepsInv(s.(pending := s.pending - cmd.signers, inFlight := s.inFlight - {cmd}));
  }

  /** Starting commands of the queue after everything started before keeps the order. */
  lemma StartsInOrder(s: System, started: seq<Cmd>)
    requires Numbered(s) && Orderly(s.arrived, s.started) && Orderly(s.queue, started)
    requires forall c | c in started :: c in s.queue
    ensures Orderly(s.arrived, s.started + started)
  {
    var all := s.started + started;
    forall c, q | c in s.arrived && 0 <= q < |all| && c.id < all[q].id && c.signers <= all[q].signers
      ensures c in all[..q]
    {
      if q < |s.started| {
        assert all[q] == s.started[q] && all[..q] == s.started[..q];
      } else {
        assert all[q] == started[q - |s.started|];
        assert all[..q] == s.started + started[..q - |s.started|];
      }
    }
  }

  const START := System([], [], {}, {}, [])

  /** A run is a list of events in which only commands in flight complete. */
  predicate IsRun(s: System, events: seq<Event>)
    decreases events
  {
    events != [] ==>
      && (events[0].Complete? ==> events[0].cmd in s.inFlight)
      && IsRun(After(s, events[0]), events[1..])
  }

  function Reached(s: System, events: seq<Event>): System
    requires IsRun(s, events)
    decreases events
  {
    if events == [] then s else Reached(After(s, events[0]), events[1..])
  }

  lemma {:induction false} RunsKeepInv(s: System, events: seq<Event>)
    requires Inv(s) && IsRun(s, events)
    ensures Inv(Reached(s, events))
    decreases events
  {
    if events != [] {
      StepKeepsInv(s, events[0]);
      RunsKeepInv(After(s, events[0]), events[1..]);
    }
  }

  /** Over every run: submissions in flight have pairwise disjoint signer sets whose union is the
      pending set; a later submission never starts before an earlier one whose signers it includes;
      and as long as anything is queued, something is in flight. */
  lemma SubmissionsAreSafe(events: seq<Event>)
    requires IsRun(START, events)
    ensures var s := Reached(START, events);
            && Exclusive(s.pending, s.inFlight)
            && Orderly(s.arrived, s.started)
            && (forall c | c in s.queue :: !(c.signers !! s.pending))
            && (s.queue != [] ==> s.inFlight != {})
  {
    RunsKeepInv(START, events);
    var s := Reached(START, events);
    if s.queue != [] {
      assert s.queue[0] in s.queue;
      var k :| k in s.queue[0].signers && k in s.pending;
      var c :| c in s.inFlight && k in c.signers;
    }
  }

  /** The manager task: its local variables and one turn of its loop. */
  class Manager {
    var queue: seq<Cmd>
    var pending: set<Key>

    constructor ()
      ensures queue == [] && pending == {}
    {
      queue, pending := [], {};
    }

    method Turn(e: Event, next: nat) returns (started: seq<Cmd>)
      modifies this
      ensures var q := if e.Arrive? then old(queue) + [Cmd(next, e.signers)] else old(queue);
              var p := if e.Arrive? then old(pending) else old(pending) - e.cmd.signers;
              Scanned(queue, pending, started) == Scan(q, p)
    {
      match e {
        case Arrive(signers) => queue := queue + [Cmd(next, signers)];
        case Complete(cmd) => pending := pending - cmd.signers;
      }
      var newQueue, i := [], 0;
      ghost var before := pending;
      started := [];
      while i < |queue|
        invariant 0 <= i <= |queue| && Scan(queue[..i], before) == Scanned(newQueue, pending, started)
        invariant queue == old(queue) + (if e.Arrive? then [Cmd(next, e.signers)] else [])
      {
        assert queue[..i + 1][..i] == queue[..i];
        var cmd := queue[i];
        if cmd.signers !! pending {
          pending := pending + cmd.signers;
          started := started + [cmd];
        } else {
          newQueue := newQueue + [cmd];
        }
        i := i + 1;
      }
      assert queue[..i] == queue;
      queue := newQueue;
    }
  }
}
