/** The ROFL scheduler's passes over the market (rofl-scheduler/src/manager.rs) and its resource
    accounting (rofl-scheduler/src/config.rs). */
module Scheduler {
  import opened Basics

  const U16_MAX := 0xffff
  const U64_MAX := 0xffff_ffff_ffff_ffff

  type u16 = x: nat | x <= U16_MAX
  type u64 = x: nat | x <= U64_MAX

  type Id = nat
  type NodeId = nat
  type Hash = nat

  datatype MarketResources = MarketResources(memory: u64, cpus: u16, storage: u64)

  datatype Resources = Resources(instances: u16, memory: u64, cpus: u16, storage: u64)

  function SatAdd(a: nat, b: nat, max: nat): nat {
    if a + b <= max then a + b else max
  }

  /** Add an instance, saturating every field. */
  function Add(r: Resources, other: MarketResources): Resources {
    Resources(
      SatAdd(r.instances, 1, U16_MAX), SatAdd(r.memory, other.memory, U64_MAX),
      SatAdd(r.cpus, other.cpus, U16_MAX), SatAdd(r.storage, other.storage, U64_MAX))
  }

  predicate CanAllocate(capacity: Resources, r: Resources) {
    && r.instances <= capacity.instances && r.memory <= capacity.memory
    && r.cpus <= capacity.cpus && r.storage <= capacity.storage
  }

  const NOTHING := Resources(0, 0, 0, 0)

  datatype Status = Created | Accepted(node: NodeId) | Cancelled

  datatype Instance = Instance(
    id: Id, status: Status, paidUntil: nat, resources: MarketResources, deployment: Option<Hash>)

  datatype Command = Deploy(deployment: Hash, wipe: bool) | Terminate(wipe: bool) | Restart(wipe: bool) | Malformed

  /** Everything a pass finds out from the host and the market at one round. Querying the commands
      of an instance may fail. */
  datatype Pass = Pass(
    local: NodeId, now: nat, round: nat, running: map<Id, Hash>, volumes: set<Id>,
    instances: seq<Instance>, commands: Id -> Option<seq<Command>>)

  datatype Desired = Desired(deployment: Option<Hash>, wipe: bool, restart: bool)

  /** The desired state of an instance after its queued commands. */
  function AfterCommands(d: Desired, cmds: seq<Command>): Desired {
    if cmds == [] then d
    else
      var d := AfterCommands(d, cmds[..|cmds| - 1]);
      match cmds[|cmds| - 1]
      case Deploy(h, wipe) => d.(deployment := Some(h), wipe := d.wipe || wipe)
      case Terminate(wipe) => d.(deployment := None, wipe := d.wipe || wipe)
      case Restart(wipe) => d.(wipe := d.wipe || wipe, restart := true)
      case Malformed => d
  }

  datatype Start = Start(id: Id, deployment: Hash, wipe: bool)
  datatype Stop = Stop(id: Id, wipe: bool)

  const WIPE_DELAY := 10

  /** The state of a pass: `unknown` are the local instances not matched so far, `counters` the
      unmatched counts kept across passes, `known` the instances recognised in this pass. */
  datatype Discovery = Discovery(
    unknown: set<Id>, counters: map<Id, nat>, known: set<Id>, accepted: map<Id, Instance>,
    starts: seq<Start>, stops: seq<Stop>, removes: seq<Id>, used: Resources, failed: bool)

  function Begin(p: Pass, counters: map<Id, nat>): Discovery {
    Discovery(p.running.Keys + p.volumes, counters, {}, map[], [], [], [], NOTHING, false)
  }

  /** Compare what runs with what should run. */
  function Reconciled(p: Pass, d: Discovery, id: Id, want: Desired): Discovery {
    if id in p.running && want.deployment.Some? then
      if p.running[id] != want.deployment.value || want.restart
      then d.(starts := d.starts + [Start(id, want.deployment.value, want.wipe)])
      else d
    else if want.deployment.Some? then d.(starts := d.starts + [Start(id, want.deployment.value, want.wipe)])
    else if id in p.running then d.(stops := d.stops + [Stop(id, want.wipe)])
    else d
  }

  /** Visit one instance of the market. */
  function Visit(p: Pass, d: Discovery, i: Instance): Discovery {
    match i.status
    case Created => d
    case Cancelled => d.(removes := d.removes + [i.id])
    case Accepted(node) =>
      if node != p.local then d
      else
        var d := d.(unknown := d.unknown - {i.id}, counters := d.counters - {i.id}, known := d.known + {i.id});
        if i.paidUntil < p.now then
          d.(stops := d.stops + (if i.id in p.running then [Stop(i.id, true)] else []), removes := d.removes + [i.id])
        else
          var d := d.(accepted := d.accepted[i.id := i], used := Add(d.used, i.resources));
          match p.commands(i.id)
          case None => d.(failed := true)
          case Some(cmds) => Reconciled(p, d, i.id, AfterCommands(Desired(i.deployment, false, false), cmds))
  }

  function Visited(p: Pass, d: Discovery, instances: seq<Instance>): Discovery {
    if instances == [] then d
    else
      var d := Visited(p, d, instances[..|instances| - 1]);
      if d.failed then d else Visit(p, d, instances[|instances| - 1])
  }

  function Counted(counters: map<Id, nat>, unknown: set<Id>): map<Id, nat> {
    map id | id in counters.Keys + unknown ::
      (if id in counters then counters[id] else 0) + if id in unknown then 1 else 0
  }

  function Wiped(counters: map<Id, nat>): set<Id> {
    set id | id in counters && counters[id] > WIPE_DELAY
  }

  /** The stops for a set of ids, in some order. */
  predicate Stopping(stops: seq<Stop>, ids: set<Id>) {
    && (forall i | 0 <= i < |stops| :: stops[i].wipe && stops[i].id in ids)
    && (forall i, j | 0 <= i < j < |stops| :: stops[i].id != stops[j].id)
    && (forall id | id in ids :: Stop(id, true) in stops)
  }

  /** The part of a pass after all instances have been visited: `extra` are the wiping stops. */
  function Completed(d: Discovery, extra: seq<Stop>): Discovery {
    var counters := Counted(d.counters, d.unknown);
    d.(counters := counters - Wiped(counters), stops := d.stops + extra)
  }

  predicate DistinctIds(instances: seq<Instance>) {
    forall i, j | 0 <= i < j < |instances| :: instances[i].id != instances[j].id
  }

  /** Start and stop lists mention known instances, each at most once and in only one list. */
  predicate Jobs(starts: seq<Start>, stops: seq<Stop>, known: set<Id>) {
    && (forall i | 0 <= i < |starts| :: starts[i].id in known)
    && (forall i | 0 <= i < |stops| :: stops[i].id in known)
    && (forall i, j | 0 <= i < j < |starts| :: starts[i].id != starts[j].id)
    && (forall i, j | 0 <= i < j < |stops| :: stops[i].id != stops[j].id)
    && (forall i, j | 0 <= i < |starts| && 0 <= j < |stops| :: starts[i].id != stops[j].id)
  }

  lemma JobsGrow(starts: seq<Start>, stops: seq<Stop>, known: set<Id>, id: Id)
    requires Jobs(starts, stops, known) && id !in known
    ensures Jobs(starts, stops, known + {id})
    ensures forall h, w :: Jobs(starts + [Start(id, h, w)], stops, known + {id})
    ensures forall w :: Jobs(starts, stops + [Stop(id, w)], known + {id})
  {
  }

  lemma VisitKeepsJobs(p: Pass, d: Discovery, i: Instance)
    requires Jobs(d.starts, d.stops, d.known) && i.id !in d.known
    ensures var e := Visit(p, d, i); Jobs(e.starts, e.stops, e.known)
  {
    hide Jobs, Add, AfterCommands;
    JobsGrow(d.starts, d.stops, d.known, i.id);
    assert d.stops + [] == d.stops;
  }

  /** The instances known to a pass are those of the market that it has visited. */
  lemma {:induction false} VisitedIsKnown(p: Pass, counters: map<Id, nat>, instances: seq<Instance>, id: Id)
    requires id in Visited(p, Begin(p, counters), instances).known
    ensures exists i | 0 <= i < |instances| :: instances[i].id == id
  {
    hide Add, AfterCommands;
    if instances != [] {
      var init := instances[..|instances| - 1];
      if id in Visited(p, Begin(p, counters), init).known {
        VisitedIsKnown(p, counters, init, id);
        var i :| 0 <= i < |init| && init[i].id == id;
        assert instances[i].id == id;
      } else {
        assert instances[|instances| - 1].id == id;
      }
    }
  }

  lemma {:induction false} VisitedKeepsJobs(p: Pass, counters: map<Id, nat>, instances: seq<Instance>)
    requires DistinctIds(instances)
    ensures var d := Visited(p, Begin(p, counters), instances); Jobs(d.starts, d.stops, d.known)
  {
    hide Visit;
    if instances != [] {
      var init, last := instances[..|instances| - 1], instances[|instances| - 1];
      VisitedKeepsJobs(p, counters, init);
      var e := Visited(p, Begin(p, counters), init);
      assert forall i | 0 <= i < |init| :: init[i].id != last.id;
      if last.id in e.known {
        VisitedIsKnown(p, counters, init, last.id);
        assert false;
      }
      VisitKeepsJobs(p, e, last);
    }
  }

  /** What a pass has recognised it has struck from the unmatched instances and from the counters,
      and nothing else. */
  lemma {:induction false} VisitedBooks(p: Pass, counters: map<Id, nat>, instances: seq<Instance>)
    ensures var d := Visited(p, Begin(p, counters), instances);
            && d.counters == counters - d.known
            && d.unknown == p.running.Keys + p.volumes - d.known
  {
    if instances != [] {
      hide Visit;
      var init, last := instances[..|instances| - 1], instances[|instances| - 1];
      VisitedBooks(p, counters, init);
      VisitStrikes(p, Visited(p, Begin(p, counters), init), last);
    }
  }

  lemma VisitStrikes(p: Pass, d: Discovery, i: Instance)
    ensures var e := Visit(p, d, i);
            var struck := if i.status == Accepted(p.local) then {i.id} else {};
            e.known == d.known + struck && e.unknown == d.unknown - struck && e.counters == d.counters - struck
  {
    hide Add, AfterCommands;
  }

  lemma JobsJoin(starts: seq<Start>, stops: seq<Stop>, known: set<Id>, extra: seq<Stop>, ids: set<Id>)
    requires Jobs(starts, stops, known) && Stopping(extra, ids) && known !! ids
    ensures Jobs(starts, stops + extra, known + ids)
  {
    assert forall j | 0 <= j < |stops + extra| ::
        (stops + extra)[j] == if j < |stops| then stops[j] else extra[j - |stops|];
  }

  /** In no pass is an id queued for both start and stop, or twice for either. */
  lemma PassQueuesEachIdOnce(p: Pass, counters: map<Id, nat>, extra: seq<Stop>)
    requires DistinctIds(p.instances)
    requires var d := Visited(p, Begin(p, counters), p.instances);
             !d.failed && Stopping(extra, Wiped(Counted(d.counters, d.unknown)))
    ensures var d := Visited(p, Begin(p, counters), p.instances);
            var e := Completed(d, extra);
            && (forall i, j | 0 <= i < j < |e.starts| :: e.starts[i].id != e.starts[j].id)
            && (forall i, j | 0 <= i < j < |e.stops| :: e.stops[i].id != e.stops[j].id)
            && (forall i, j | 0 <= i < |e.starts| && 0 <= j < |e.stops| :: e.starts[i].id != e.stops[j].id)
  {
    hide Visited;
    var d := Visited(p, Begin(p, counters), p.instances);
    VisitedKeepsJobs(p, counters, p.instances);
    VisitedBooks(p, counters, p.instances);
    JobsJoin(d.starts, d.stops, d.known, extra, Wiped(Counted(d.counters, d.unknown)));
  }

  predicate Wipes(c: Command) {
    match c
    case Deploy(_, wipe) => wipe
    case Terminate(wipe) => wipe
    case Restart(wipe) => wipe
    case Malformed => false
  }

  /** What a command says about the deployment, if anything. */
  function Sets(c: Command): Option<Option<Hash>> {
    match c
    case Deploy(h, _) => Some(Some(h))
    case Terminate(_) => Some(None)
    case _ => None
  }

  /** The deployment that the last command about it sets, if there is one. */
  function LastSaid(deployment: Option<Hash>, cmds: seq<Command>): Option<Hash> {
    if cmds == [] then deployment
    else
      var last := Sets(cmds[|cmds| - 1]);
      if last.Some? then last.value else LastSaid(deployment, cmds[..|cmds| - 1])
  }

  /** The last command about the deployment decides it; wipes and restarts add up. */
  lemma {:induction false} CommandsDecide(d: Desired, cmds: seq<Command>)
    ensures var r := AfterCommands(d, cmds);
            && r.deployment == LastSaid(d.deployment, cmds)
            && (r.wipe <==> d.wipe || exists i | 0 <= i < |cmds| :: Wipes(cmds[i]))
            && (r.restart <==> d.restart || exists i | 0 <= i < |cmds| :: cmds[i].Restart?)
            && ((forall i | 0 <= i < |cmds| :: Sets(cmds[i]).None?) ==> r.deployment == d.deployment)
            && (forall i | 0 <= i < |cmds| && Sets(cmds[i]).Some? &&
                  (forall j | i < j < |cmds| :: Sets(cmds[j]).None?) ::
                  r.deployment == Sets(cmds[i]).value)
  {
    if cmds != [] {
      var init, last := cmds[..|cmds| - 1], cmds[|cmds| - 1];
      CommandsDecide(d, init);
      assert forall i | 0 <= i < |init| :: init[i] == cmds[i];
      assert cmds[|cmds| - 1] == last;
    }
  }

  /** What should run for an instance accepted on this node. */
  function Wanted(p: Pass, i: Instance): Option<Hash> {
    var cmds := p.commands(i.id);
    if i.paidUntil < p.now || cmds.None? then None
    else LastSaid(i.deployment, cmds.value)
  }

  function Stopped(running: map<Id, Hash>, stops: seq<Stop>): map<Id, Hash> {
    running - set s | s in stops :: s.id
  }

  /** What runs once the queued jobs have been done. Starting an instance replaces what it runs. */
  function Applied(running: map<Id, Hash>, starts: seq<Start>, stops: seq<Stop>): map<Id, Hash> {
    if starts == [] then Stopped(running, stops)
    else
      var last := starts[|starts| - 1];
      Applied(running, starts[..|starts| - 1], stops)[last.id := last.deployment]
  }

  lemma {:induction false} OneMoreStop(running: map<Id, Hash>, starts: seq<Start>, stops: seq<Stop>, s: Stop)
    requires forall i | 0 <= i < |starts| :: starts[i].id != s.id
    ensures Applied(running, starts, stops + [s]) == Applied(running, starts, stops) - {s.id}
  {
    if starts == [] {
      assert (set t | t in stops + [s] :: t.id) == (set t | t in stops :: t.id) + {s.id};
    } else {
      OneMoreStop(running, starts[..|starts| - 1], stops, s);
    }
  }

  lemma OneMoreStart(running: map<Id, Hash>, starts: seq<Start>, stops: seq<Stop>, s: Start)
    ensures Applied(running, starts + [s], stops) == Applied(running, starts, stops)[s.id := s.deployment]
  {
    assert (starts + [s])[..|starts|] == starts;
  }

  lemma {:induction false} Untouched(running: map<Id, Hash>, starts: seq<Start>, stops: seq<Stop>, id: Id)
    requires forall i | 0 <= i < |starts| :: starts[i].id != id
    requires forall i | 0 <= i < |stops| :: stops[i].id != id
    ensures Lookup(Applied(running, starts, stops), id) == Lookup(running, id)
  {
    if starts != [] {
      Untouched(running, starts[..|starts| - 1], stops, id);
    }
  }

  /** Comparing what runs with what should run settles one instance and no other. */
  lemma ReconciledSettles(p: Pass, d: Discovery, id: Id, want: Desired)
    requires Jobs(d.starts, d.stops, d.known) && id !in d.known
    ensures var e := Reconciled(p, d, id, want);
            var a, b := Applied(p.running, d.starts, d.stops), Applied(p.running, e.starts, e.stops);
            Lookup(b, id) == want.deployment && forall other | other != id :: Lookup(b, other) == Lookup(a, other)
  {
    hide Applied;
    Untouched(p.running, d.starts, d.stops, id);
    OneMoreStop(p.running, d.starts, d.stops, Stop(id, want.wipe));
    if want.deployment.Some? {
      OneMoreStart(p.running, d.starts, d.stops, Start(id, want.deployment.value, want.wipe));
    }
  }

  /** A visit settles the visited instance and no other. */
  lemma VisitReconciles(p: Pass, d: Discovery, i: Instance)
    requires Jobs(d.starts, d.stops, d.known) && i.id !in d.known && !Visit(p, d, i).failed
    ensures var e := Visit(p, d, i);
            var a, b := Applied(p.running, d.starts, d.stops), Applied(p.running, e.starts, e.stops);
            && (i.status == Accepted(p.local) ==> Lookup(b, i.id) == Wanted(p, i))
            && (i.status != Accepted(p.local) ==> b == a)
            && (forall id | id != i.id :: Lookup(b, id) == Lookup(a, id))
  {
    hide Add, AfterCommands, LastSaid, Applied, Reconciled;
    Untouched(p.running, d.starts, d.stops, i.id);
    OneMoreStop(p.running, d.starts, d.stops, Stop(i.id, true));
    assert d.stops + [] == d.stops;
    if i.status == Accepted(p.local) && p.now <= i.paidUntil {
      var own := {i.id};
      var e := d.(unknown := d.unknown - own, counters := d.counters - own, known := d.known + own,
                  accepted := d.accepted[i.id := i], used := Add(d.used, i.resources));
      var want := AfterCommands(Desired(i.deployment, false, false), p.commands(i.id).value);
      CommandsDecide(Desired(i.deployment, false, false), p.commands(i.id).value);
      ReconciledSettles(p, e.(known := d.known), i.id, want);
      ReconciledIgnoresKnown(p, e, d.known, i.id, want);
    }
  }

  lemma ReconciledIgnoresKnown(p: Pass, d: Discovery, known: set<Id>, id: Id, want: Desired)
    ensures Reconciled(p, d.(known := known), id, want) == Reconciled(p, d, id, want).(known := known)
  {
  }

  lemma {:induction false} VisitsReconcile(p: Pass, counters: map<Id, nat>, instances: seq<Instance>)
    requires DistinctIds(instances) && !Visited(p, Begin(p, counters), instances).failed
    ensures var d := Visited(p, Begin(p, counters), instances);
            var applied := Applied(p.running, d.starts, d.stops);
            && (forall i | 0 <= i < |instances| && instances[i].status == Accepted(p.local) ::
                  Lookup(applied, instances[i].id) == Wanted(p, instances[i]))
            && (forall id | id !in d.known :: Lookup(applied, id) == Lookup(p.running, id))
  {
    if instances != [] {
      hide Visit, Jobs, Wanted, Applied;
      var init, last := instances[..|instances| - 1], instances[|instances| - 1];
      VisitsReconcile(p, counters, init);
      VisitedKeepsJobs(p, counters, init);
      var d := Visited(p, Begin(p, counters), init);
      assert forall i | 0 <= i < |init| :: init[i].id != last.id && init[i] == instances[i];
      if last.id in d.known {
        VisitedIsKnown(p, counters, init, last.id);
        assert false;
      }
      VisitReconciles(p, d, last);
      VisitStrikes(p, d, last);
    }
  }

  lemma {:induction false} MoreStops(running: map<Id, Hash>, starts: seq<Start>, stops: seq<Stop>, extra: seq<Stop>,
                                     id: Id)
    requires forall i, j | 0 <= i < |starts| && 0 <= j < |extra| :: starts[i].id != extra[j].id
    ensures Lookup(Applied(running, starts, stops + extra), id) ==
            if exists j | 0 <= j < |extra| :: extra[j].id == id then None
            else Lookup(Applied(running, starts, stops), id)
  {
    if extra == [] {
      assert stops + extra == stops;
    } else {
      var init, last := extra[..|extra| - 1], extra[|extra| - 1];
      assert stops + extra == stops + init + [last];
      assert forall j | 0 <= j < |init| :: init[j] == extra[j];
      MoreStops(running, starts, stops, init, id);
      OneMoreStop(running, starts, stops + init, last);
    }
  }

  /** A completed pass, once its jobs are done, has every instance accepted on this node running
      exactly what is wanted of it, nothing running of what it wiped, and the rest as it was. */
  lemma PassReconciles(p: Pass, counters: map<Id, nat>, extra: seq<Stop>)
    requires DistinctIds(p.instances)
    requires var d := Visited(p, Begin(p, counters), p.instances);
             !d.failed && Stopping(extra, Wiped(Counted(d.counters, d.unknown)))
    ensures var d := Visited(p, Begin(p, counters), p.instances);
            var e := Completed(d, extra);
            var wiped := Wiped(Counted(d.counters, d.unknown));
            var applied := Applied(p.running, e.starts, e.stops);
            && (forall i | 0 <= i < |p.instances| && p.instances[i].status == Accepted(p.local) ::
                  Lookup(applied, p.instances[i].id) == Wanted(p, p.instances[i]))
            && (forall id | id in wiped :: id !in applied)
            && (forall id | id !in wiped && id !in d.known :: Lookup(applied, id) == Lookup(p.running, id))
  {
    hide Visited, Applied, Wanted;
    var d := Visited(p, Begin(p, counters), p.instances);
    var wiped := Wiped(Counted(d.counters, d.unknown));
    VisitsReconcile(p, counters, p.instances);
    VisitedKeepsJobs(p, counters, p.instances);
    VisitedBooks(p, counters, p.instances);
    forall id ensures (exists j | 0 <= j < |extra| :: extra[j].id == id) <==> id in wiped {
      if id in wiped {
        assert Stop(id, true) in extra;
      }
    }
    forall id ensures Lookup(Applied(p.running, d.starts, d.stops + extra), id) ==
                      if id in wiped then None else Lookup(Applied(p.running, d.starts, d.stops), id) {
      MoreStops(p.running, d.starts, d.stops, extra, id);
    }
    forall i | 0 <= i < |p.instances| && p.instances[i].status == Accepted(p.local)
      ensures p.instances[i].id !in wiped
    {
      LocalIsKnown(p, counters, p.instances, i);
    }
  }

  lemma {:induction false} LocalIsKnown(p: Pass, counters: map<Id, nat>, instances: seq<Instance>, i: nat)
    requires i < |instances| && instances[i].status == Accepted(p.local)
    requires !Visited(p, Begin(p, counters), instances).failed
    ensures instances[i].id in Visited(p, Begin(p, counters), instances).known
  {
    hide Visit;
    var init, last := instances[..|instances| - 1], instances[|instances| - 1];
    VisitStrikes(p, Visited(p, Begin(p, counters), init), last);
    if i < |init| {
      LocalIsKnown(p, counters, init, i);
    }
  }

  /** What a pass leaves in the books: the instances it recognised, and if it completed, those it
      saw unmatched and those it wiped. */
  datatype Record = Record(known: set<Id>, completed: bool, unmatched: set<Id>, wiped: set<Id>)

  /** A pass as seen from the counters. */
  function Recorded(p: Pass, counters: map<Id, nat>): (map<Id, nat>, Record) {
    var d := Visited(p, Begin(p, counters), p.instances);
    if d.failed then (d.counters, Record(d.known, false, {}, {}))
    else
      var c := Counted(d.counters, d.unknown);
      (c - Wiped(c), Record(d.known, true, d.unknown, Wiped(c)))
  }

  /** All passes so far, from the start of the scheduler. */
  function Passes(ps: seq<Pass>): (map<Id, nat>, seq<Record>) {
    if ps == [] then (map[], [])
    else
      var (counters, h) := Passes(ps[..|ps| - 1]);
      var (counters, r) := Recorded(ps[|ps| - 1], counters);
      (counters, h + [r])
  }

  /** The number of passes up to and including the last one that knew or wiped the instance. */
  function Since(h: seq<Record>, id: Id): (n: nat)
    ensures n <= |h|
  {
    if h == [] then 0
    else if id in h[|h| - 1].known || id in h[|h| - 1].wiped then |h|
    else Since(h[..|h| - 1], id)
  }

  /** How many completed passes after the first `from` saw the instance unmatched. */
  function Misses(h: seq<Record>, id: Id, from: nat): nat {
    if |h| <= from then 0
    else
      var last := h[|h| - 1];
      Misses(h[..|h| - 1], id, from) + if last.completed && id in last.unmatched then 1 else 0
  }

  function Held(counters: map<Id, nat>, id: Id): nat {
    if id in counters then counters[id] else 0
  }

  /** The counter of an instance is the number of completed passes that saw it unmatched since it was
      last known or last wiped, and it never exceeds the delay. */
  ghost predicate Booked(counters: map<Id, nat>, h: seq<Record>) {
    forall id :: Held(counters, id) == Misses(h, id, Since(h, id)) <= WIPE_DELAY
  }

  lemma MissesAppends(h: seq<Record>, r: Record, id: Id)
    ensures (h + [r])[..|h|] == h
    ensures Since(h + [r], id) == if id in r.known || id in r.wiped then |h| + 1 else Since(h, id)
    ensures Misses(h + [r], id, Since(h, id)) ==
            Misses(h, id, Since(h, id)) + if r.completed && id in r.unmatched then 1 else 0
  {
    assert (h + [r])[..|h|] == h;
  }

  lemma DiscoverKeepsBooks(p: Pass, counters: map<Id, nat>, h: seq<Record>)
    requires Booked(counters, h)
    ensures Booked(Recorded(p, counters).0, h + [Recorded(p, counters).1])
  {
    var (after, r) := Recorded(p, counters);
    VisitedBooks(p, counters, p.instances);
    forall id ensures Held(after, id) == Misses(h + [r], id, Since(h + [r], id)) <= WIPE_DELAY {
      assert Held(counters, id) == Misses(h, id, Since(h, id));
      MissesAppends(h, r, id);
    }
  }

  lemma {:induction false} BooksAreKept(ps: seq<Pass>)
    ensures Booked(Passes(ps).0, Passes(ps).1)
  {
    if ps != [] {
      BooksAreKept(ps[..|ps| - 1]);
      var (counters, h) := Passes(ps[..|ps| - 1]);
      DiscoverKeepsBooks(ps[|ps| - 1], counters, h);
    }
  }

  /** Over all passes: an instance is wiped as unknown exactly in the eleventh completed pass that
      sees it unmatched since it was last known or last wiped. */
  lemma WipeAfterElevenMisses(ps: seq<Pass>, p: Pass, id: Id)
    ensures var (counters, h) := Passes(ps);
            var r := Recorded(p, counters).1;
            && (id in r.wiped <==> r.completed && id in r.unmatched && Misses(h, id, Since(h, id)) + 1 == 11)
            && (id in r.wiped ==> id !in r.known)
  {
    BooksAreKept(ps);
    var (counters, h) := Passes(ps);
    VisitedBooks(p, counters, p.instances);
    assert Held(counters, id) == Misses(h, id, Since(h, id));
  }

  /** Exact, unbounded amounts. */
  datatype Amounts = Amounts(instances: nat, memory: nat, cpus: nat, storage: nat)

  function Plus(a: Amounts, r: MarketResources): Amounts {
    Amounts(a.instances + 1, a.memory + r.memory, a.cpus + r.cpus, a.storage + r.storage)
  }

  function Saturated(a: Amounts): Resources {
    Resources(SatAdd(a.instances, 0, U16_MAX), SatAdd(a.memory, 0, U64_MAX),
              SatAdd(a.cpus, 0, U16_MAX), SatAdd(a.storage, 0, U64_MAX))
  }

  ghost function Pick(m: map<Id, Instance>): (id: Id)
    requires m != map[]
    ensures id in m
  {
    assert m.Keys != {} by { assert m == map id | id in m.Keys :: m[id]; }
    var id :| id in m; id
  }

  /** The exact sum of the resources of all accepted instances. */
  ghost function Total(m: map<Id, Instance>): Amounts
    decreases |m|
  {
    if m == map[] then Amounts(0, 0, 0, 0)
    else
      var id := Pick(m);
      Plus(Total(m - {id}), m[id].resources)
  }

  lemma {:induction false} TotalOfRemove(m: map<Id, Instance>, k: Id)
    requires k in m
    ensures Total(m) == Plus(Total(m - {k}), m[k].resources)
    decreases |m|
  {
    var p := Pick(m);
    if p != k {
      TotalOfRemove(m - {p}, k);
      TotalOfRemove(m - {k}, p);
      assert m - {p} - {k} == m - {k} - {p};
    }
  }

  lemma TotalOfInsert(m: map<Id, Instance>, i: Instance)
    requires i.id !in m
    ensures Total(m[i.id := i]) == Plus(Total(m), i.resources)
  {
    TotalOfRemove(m[i.id := i], i.id);
    assert m[i.id := i] - {i.id} == m;
  }

  /** The running total, saturating at every step, is the saturated exact total. */
  lemma AddingSaturates(a: Amounts, r: MarketResources)
    ensures Add(Saturated(a), r) == Saturated(Plus(a, r))
  {
  }

  /** `used` accounts for exactly the accepted instances. */
  ghost predicate Accounts(accepted: map<Id, Instance>, used: Resources) {
    used == Saturated(Total(accepted))
  }

  /** Every accepted instance is one of the market accepted on this node. */
  lemma {:induction false} DiscoveryAccepts(p: Pass, counters: map<Id, nat>, instances: seq<Instance>, id: Id)
    requires id in Visited(p, Begin(p, counters), instances).accepted
    ensures exists i | 0 <= i < |instances| :: instances[i].id == id && instances[i].status == Accepted(p.local)
  {
    hide Add, AfterCommands;
    if instances != [] {
      var init := instances[..|instances| - 1];
      if id in Visited(p, Begin(p, counters), init).accepted {
        DiscoveryAccepts(p, counters, init, id);
        var i :| 0 <= i < |init| && init[i].id == id && init[i].status == Accepted(p.local);
        assert instances[i] == init[i];
      } else {
        assert instances[|instances| - 1].id == id;
      }
    }
  }

  lemma VisitAccounts(p: Pass, d: Discovery, i: Instance)
    requires Accounts(d.accepted, d.used) && i.id !in d.accepted
    ensures var e := Visit(p, d, i); Accounts(e.accepted, e.used)
  {
    hide Total, Saturated, Plus, Add, AfterCommands;
    TotalOfInsert(d.accepted, i);
    AddingSaturates(Total(d.accepted), i.resources);
  }

  /** After every visit the resources in use are the saturated exact total of the accepted. */
  lemma {:induction false} DiscoveryAccounts(p: Pass, counters: map<Id, nat>, instances: seq<Instance>)
    requires DistinctIds(instances)
    ensures var d := Visited(p, Begin(p, counters), instances); Accounts(d.accepted, d.used)
  {
    if instances != [] {
      hide Visit, Accounts;
      var init, last := instances[..|instances| - 1], instances[|instances| - 1];
      DiscoveryAccounts(p, counters, init);
      var d := Visited(p, Begin(p, counters), init);
      assert forall i | 0 <= i < |init| :: init[i].id != last.id;
      if last.id in d.accepted {
        DiscoveryAccepts(p, counters, init, last.id);
        assert false;
      }
      VisitAccounts(p, d, last);
    }
  }

  /** What the operator configured: the capacity, which instances are acceptable (offer and creator),
      and which nodes to take instances over from. */
  datatype Config = Config(capacity: Resources, acceptable: Instance -> bool, transfersFrom: NodeId -> bool)

  datatype Acceptance = Acceptance(accepted: map<Id, Instance>, used: Resources, accepts: seq<Id>, removes: seq<Id>)

  /** Evaluate a pending instance. */
  function Evaluate(cfg: Config, local: NodeId, a: Acceptance, i: Instance): Acceptance {
    if i.status.Cancelled? then a
    else if i.status.Accepted? && (i.status.node == local || !cfg.transfersFrom(i.status.node)) then a
    else if !cfg.acceptable(i) || !CanAllocate(cfg.capacity, Add(a.used, i.resources)) then
      // Instances taken over from another node are not up for removal.
      if i.status.Accepted? then a else a.(removes := a.removes + [i.id])
    else Acceptance(a.accepted[i.id := i], Add(a.used, i.resources), a.accepts + [i.id], a.removes)
  }

  function Evaluated(cfg: Config, local: NodeId, a: Acceptance, instances: seq<Instance>): Acceptance {
    if instances == [] then a
    else Evaluate(cfg, local, Evaluated(cfg, local, a, instances[..|instances| - 1]), instances[|instances| - 1])
  }

  ghost predicate Sound(cfg: Config, before: map<Id, Instance>, a: Acceptance, instances: seq<Instance>) {
    && Accounts(a.accepted, a.used)
    && (a.accepts != [] ==> CanAllocate(cfg.capacity, a.used))
    && forall id | id in a.accepted && id !in before :: exists i | 0 <= i < |instances| :: instances[i].id == id
  }

  lemma EvaluateAccounts(cfg: Config, local: NodeId, a: Acceptance, i: Instance)
    requires Accounts(a.accepted, a.used) && (a.accepts != [] ==> CanAllocate(cfg.capacity, a.used))
    requires i.id in a.accepted ==> i.status == Accepted(local)
    ensures var b := Evaluate(cfg, local, a, i);
            && Accounts(b.accepted, b.used) && (b.accepts != [] ==> CanAllocate(cfg.capacity, b.used))
            && (b.accepted == a.accepted || b.accepted == a.accepted[i.id := i])
  {
    hide Total, Saturated, Plus, Add, CanAllocate;
    if i.id !in a.accepted {
      TotalOfInsert(a.accepted, i);
      AddingSaturates(Total(a.accepted), i.resources);
    }
  }

  lemma {:induction false} EvaluationIsSound(cfg: Config, local: NodeId, start: Acceptance, instances: seq<Instance>)
    requires DistinctIds(instances) && Accounts(start.accepted, start.used) && start.accepts == []
    requires forall i | 0 <= i < |instances| && instances[i].id in start.accepted ::
               instances[i].status == Accepted(local)
    ensures Sound(cfg, start.accepted, Evaluated(cfg, local, start, instances), instances)
  {
    hide Evaluate, Accounts, CanAllocate;
    if instances != [] {
      var init, last := instances[..|instances| - 1], instances[|instances| - 1];
      EvaluationIsSound(cfg, local, start, init);
      var a := Evaluated(cfg, local, start, init);
      var b := Evaluate(cfg, local, a, last);
      assert forall i | 0 <= i < |init| :: init[i].id != last.id;
      assert last.id in a.accepted ==> last.status == Accepted(local);
      EvaluateAccounts(cfg, local, a, last);
      forall id | id in b.accepted && id !in start.accepted
        ensures exists i | 0 <= i < |instances| :: instances[i].id == id
      {
        if id in a.accepted {
          var i :| 0 <= i < |init| && init[i].id == id;
          assert instances[i].id == id;
        } else {
          assert instances[|instances| - 1].id == id;
        }
      }
    }
  }

  /** A whole pass: the instances found accepted, then the pending ones. */
  function FullPass(cfg: Config, p: Pass, counters: map<Id, nat>): Acceptance {
    var d := Visited(p, Begin(p, counters), p.instances);
    Evaluated(cfg, p.local, Acceptance(d.accepted, d.used, [], d.removes), p.instances)
  }

  /** The exact amounts are within capacity, in every field whose capacity is below its type's maximum. */
  predicate Within(total: Amounts, cap: Resources) {
    && (cap.instances < U16_MAX ==> total.instances <= cap.instances)
    && (cap.memory < U64_MAX ==> total.memory <= cap.memory)
    && (cap.cpus < U16_MAX ==> total.cpus <= cap.cpus)
    && (cap.storage < U64_MAX ==> total.storage <= cap.storage)
  }

  /** If a pass accepts any instance, the exact sum of every resource over all accepted instances is
      within capacity, for every field whose capacity is below its type's maximum. */
  lemma AcceptedFitsCapacity(cfg: Config, p: Pass, counters: map<Id, nat>)
    requires DistinctIds(p.instances)
    ensures var a := FullPass(cfg, p, counters);
            var total, cap := Total(a.accepted), cfg.capacity;
            && a.used == Saturated(total)
            && (a.accepts != [] ==> Within(total, cap))
  {
    hide Visited, Evaluated, Total;
    PassIsSound(cfg, p, counters);
  }

  lemma PassIsSound(cfg: Config, p: Pass, counters: map<Id, nat>)
    requires DistinctIds(p.instances)
    ensures var d := Visited(p, Begin(p, counters), p.instances);
            Sound(cfg, d.accepted, FullPass(cfg, p, counters), p.instances)
  {
    hide Visited, Evaluated, Total;
    var d := Visited(p, Begin(p, counters), p.instances);
    DiscoveryAccounts(p, counters, p.instances);
    forall i | 0 <= i < |p.instances| && p.instances[i].id in d.accepted
      ensures p.instances[i].status == Accepted(p.local)
    {
      DiscoveryAccepts(p, counters, p.instances, p.instances[i].id);
      var j :| 0 <= j < |p.instances| &&
        p.instances[j].id == p.instances[i].id && p.instances[j].status == Accepted(p.local);
      assert i == j;
    }
    EvaluationIsSound(cfg, p.local, Acceptance(d.accepted, d.used, [], d.removes), p.instances);
  }

  lemma PassAllocates(cfg: Config, p: Pass, counters: map<Id, nat>)
    requires DistinctIds(p.instances)
    ensures var a := FullPass(cfg, p, counters); a.accepts != [] ==> CanAllocate(cfg.capacity, a.used)
  {
    hide Total, Visited, Evaluated, Saturated;
    PassIsSound(cfg, p, counters);
  }

  predicate FitsIn(total: Amounts, cap: Resources) {
    && total.instances <= cap.instances && total.memory <= cap.memory
    && total.cpus <= cap.cpus && total.storage <= cap.storage
  }

  /** If the pass accepts anything, everything accepted fits the capacity, exactly counted. */
  ghost predicate PassFits(cfg: Config, p: Pass, counters: map<Id, nat>) {
    var a := FullPass(cfg, p, counters);
    a.accepts != [] ==> FitsIn(Total(a.accepted), cfg.capacity)
  }

  /** No field at its type's maximum, where saturation would defeat the check; except that a single
      instance cannot exceed the maximum of anything but the number of instances. */
  predicate Safe(cap: Resources) {
    && cap.instances < U16_MAX
    && (cap.instances <= 1 || (cap.memory < U64_MAX && cap.cpus < U16_MAX && cap.storage < U64_MAX))
  }

  lemma SingleTotal(m: map<Id, Instance>)
    requires Total(m).instances <= 1
    ensures Total(m).memory <= U64_MAX && Total(m).cpus <= U16_MAX && Total(m).storage <= U64_MAX
  {
    if m != map[] {
      var rest := m - {Pick(m)};
      assert Total(rest).instances == 0;
      assert rest == map[];
    }
  }

  lemma SafePassFits(cfg: Config, p: Pass, counters: map<Id, nat>)
    requires DistinctIds(p.instances) && Safe(cfg.capacity)
    ensures PassFits(cfg, p, counters)
  {
    hide Total, FullPass;
    AcceptedFitsCapacity(cfg, p, counters);
    PassAllocates(cfg, p, counters);
    var total := Total(FullPass(cfg, p, counters).accepted);
    if cfg.capacity.instances <= 1 && total.instances <= 1 {
      SingleTotal(FullPass(cfg, p, counters).accepted);
    }
  }

  /** As many instances as wanted, all asking for the same. */
  function Copies(r: MarketResources, n: nat): seq<Instance> {
    seq(n, i requires 0 <= i < n => Instance(i, Created, 0, r, None))
  }

  function Scaled(r: MarketResources, n: nat): Amounts {
    if n == 0 then Amounts(0, 0, 0, 0) else Plus(Scaled(r, n - 1), r)
  }

  function Accepting(cap: Resources): Config {
    Config(cap, _ => true, _ => false)
  }

  function PassOver(instances: seq<Instance>): Pass {
    Pass(0, 0, 0, map[], {}, instances, _ => None)
  }

  lemma {:induction false} CopiesAreNotOurs(r: MarketResources, n: nat, p: Pass, d: Discovery)
    ensures Visited(p, d, Copies(r, n)) == d
  {
    if n > 0 {
      assert Copies(r, n)[..n - 1] == Copies(r, n - 1);
      CopiesAreNotOurs(r, n - 1, p, d);
    }
  }

  lemma {:induction false} CopiesAreAccepted(cap: Resources, r: MarketResources, n: nat)
    requires forall k | 0 < k <= n :: CanAllocate(cap, Saturated(Scaled(r, k)))
    ensures var a := Evaluated(Accepting(cap), 0, Acceptance(map[], NOTHING, [], []), Copies(r, n));
            && |a.accepts| == n && a.used == Saturated(Scaled(r, n)) && Total(a.accepted) == Scaled(r, n)
            && (forall id | id in a.accepted :: id < n)
  {
    hide Saturated, Add, CanAllocate;
    if n == 0 {
      assert Saturated(Scaled(r, 0)) == NOTHING by { NothingSaturated(); }
      assert Total(map[]) == Scaled(r, 0);
    } else {
      hide Total;
      assert Copies(r, n)[..n - 1] == Copies(r, n - 1);
      CopiesAreAccepted(cap, r, n - 1);
      var a := Evaluated(Accepting(cap), 0, Acceptance(map[], NOTHING, [], []), Copies(r, n - 1));
      AddingSaturates(Scaled(r, n - 1), r);
      assert CanAllocate(cap, Saturated(Scaled(r, n)));
      TotalOfInsert(a.accepted, Copies(r, n)[n - 1]);
    }
  }

  lemma NothingSaturated()
    ensures Saturated(Amounts(0, 0, 0, 0)) == NOTHING
  {
  }

  lemma PassOverCopies(cap: Resources, r: MarketResources, n: nat)
    requires n > 0 && forall k | 0 < k <= n :: CanAllocate(cap, Saturated(Scaled(r, k)))
    requires !FitsIn(Scaled(r, n), cap)
    ensures DistinctIds(PassOver(Copies(r, n)).instances)
    ensures !PassFits(Accepting(cap), PassOver(Copies(r, n)), map[])
  {
    hide Saturated, Total, CanAllocate;
    var p := PassOver(Copies(r, n));
    CopiesAreNotOurs(r, n, p, Begin(p, map[]));
    CopiesAreAccepted(cap, r, n);
  }

  lemma {:induction false} NoResources(n: nat)
    ensures Scaled(MarketResources(0, 0, 0), n) == Amounts(n, 0, 0, 0)
  {
    if n > 0 {
      NoResources(n - 1);
    }
  }

  lemma TooManyInstances(cap: Resources, n: nat)
    requires cap.instances == U16_MAX && n == U16_MAX + 1
    ensures var p := PassOver(Copies(MarketResources(0, 0, 0), n));
            DistinctIds(p.instances) && !PassFits(Accepting(cap), p, map[])
  {
    hide Scaled, PassFits;
    var r := MarketResources(0, 0, 0);
    forall k: nat | 0 < k <= n ensures CanAllocate(cap, Saturated(Scaled(r, k))) {
      NoResources(k);
    }
    NoResources(n);
    PassOverCopies(cap, r, n);
  }

  lemma ScaledTwice(r: MarketResources)
    ensures Scaled(r, 1) == Amounts(1, r.memory, r.cpus, r.storage)
    ensures Scaled(r, 2) == Amounts(2, 2 * r.memory, 2 * r.cpus, 2 * r.storage)
  {
    assert Scaled(r, 0) == Amounts(0, 0, 0, 0);
  }

  lemma TwoLargeInstances(cap: Resources, r: MarketResources)
    requires cap.instances >= 2
    requires CanAllocate(cap, Saturated(Scaled(r, 1))) && CanAllocate(cap, Saturated(Scaled(r, 2)))
    requires !FitsIn(Scaled(r, 2), cap)
    ensures var p := PassOver(Copies(r, 2)); DistinctIds(p.instances) && !PassFits(Accepting(cap), p, map[])
  {
    hide Scaled, PassFits, Saturated, CanAllocate;
    forall k: nat | 0 < k <= 2 ensures CanAllocate(cap, Saturated(Scaled(r, k))) {
      assert k == 1 || k == 2;
    }
    PassOverCopies(cap, r, 2);
  }

  /** A pass that accepts too much, for every capacity that is not safe. */
  lemma UnsafeCapacityOverflows(cap: Resources) returns (p: Pass)
    requires !Safe(cap)
    ensures DistinctIds(p.instances) && !PassFits(Accepting(cap), p, map[])
  {
    hide PassFits, Scaled, Copies, DistinctIds, PassOver;
    if cap.instances == U16_MAX {
      var n: nat := U16_MAX + 1;
      p := PassOver(Copies(MarketResources(0, 0, 0), n));
      TooManyInstances(cap, n);
    } else {
      var r := if cap.memory == U64_MAX then MarketResources(U64_MAX, 0, 0)
               else if cap.cpus == U16_MAX then MarketResources(0, U16_MAX, 0)
               else MarketResources(0, 0, U64_MAX);
      p := PassOver(Copies(r, 2));
      ScaledTwice(r);
      TwoLargeInstances(cap, r);
    }
  }

  /** The check keeps every pass within capacity exactly if the capacity is safe. */
  lemma CapacityIsExact(cap: Resources)
    ensures (forall cfg: Config, p: Pass, counters | cfg.capacity == cap && DistinctIds(p.instances) ::
               PassFits(cfg, p, counters))
       <==> Safe(cap)
  {
    hide PassFits;
    if Safe(cap) {
      forall cfg: Config, p: Pass, counters | cfg.capacity == cap && DistinctIds(p.instances)
        ensures PassFits(cfg, p, counters)
      {
        SafePassFits(cfg, p, counters);
      }
    } else {
      var p := UnsafeCapacityOverflows(cap);
      assert !PassFits(Accepting(cap), p, map[]);
    }
  }

  /** A pass that has failed visits nothing more. */
  lemma {:induction false} FailedStays(p: Pass, d: Discovery, instances: seq<Instance>, n: nat)
    requires n <= |instances| && Visited(p, d, instances[..n]).failed
    ensures Visited(p, d, instances) == Visited(p, d, instances[..n])
    decreases |instances|
  {
    if n < |instances| {
      assert instances[..|instances| - 1][..n] == instances[..n];
      FailedStays(p, d, instances[..|instances| - 1], n);
    } else {
      assert instances[..n] == instances;
    }
  }

  /** The manager: the counters it keeps across passes and the local state of the current pass. */
  class Manager {
    var counters: map<Id, nat>
    var accepted: map<Id, Instance>
    var starts: seq<Start>
    var stops: seq<Stop>
    var removes: seq<Id>
    var accepts: seq<Id>
    var used: Resources
    var lastRound: nat

    constructor ()
      ensures counters == Passes([]).0 && lastRound == 0
    {
      counters, accepted, starts, stops, removes, accepts, used := map[], map[], [], [], [], [], NOTHING;
      lastRound := 0;
    }

    /** Fold the queued commands of an instance into its desired state. */
    static method DesiredState(deployment: Option<Hash>, cmds: seq<Command>) returns (want: Desired)
      ensures want == AfterCommands(Desired(deployment, false, false), cmds)
    {
      want := Desired(deployment, false, false);
      for i := 0 to |cmds|
        invariant want == AfterCommands(Desired(deployment, false, false), cmds[..i])
      {
        assert cmds[..i + 1][..i] == cmds[..i];
        match cmds[i] {
          case Deploy(h, wipe) => want := want.(deployment := Some(h), wipe := want.wipe || wipe);
          case Terminate(wipe) => want := want.(deployment := None, wipe := want.wipe || wipe);
          case Restart(wipe) => want := want.(wipe := want.wipe || wipe, restart := true);
          case Malformed =>
        }
      }
      assert cmds[..|cmds|] == cmds;
    }

    /** The pass so far, given the parts that are not fields. */
    ghost function Here(unknown: set<Id>, known: set<Id>, failed: bool): Discovery
      reads this
    {
      Discovery(unknown, counters, known, accepted, starts, stops, removes, used, failed)
    }

    /** Visit one instance accepted on this node. */
    method VisitAccepted(p: Pass, i: Instance, unknown: set<Id>, ghost known: set<Id>) returns (rest: set<Id>, ok: bool)
      requires i.status == Accepted(p.local)
      modifies this
      ensures Here(rest, known + {i.id}, !ok) == Visit(p, old(Here(unknown, known, false)), i)
      ensures accepts == old(accepts) && lastRound == old(lastRound)
    {
      hide AfterCommands, Add;
      rest, ok := unknown - {i.id}, true;
      counters := counters - {i.id};
      if i.paidUntil < p.now {
        if i.id in p.running {
          stops := stops + [Stop(i.id, true)];
        }
        assert old(stops) + [] == old(stops);
        removes := removes + [i.id];
        return;
      }
      accepted := accepted[i.id := i];
      used := Add(used, i.resources);
      match p.commands(i.id) {
        case None =>
          ok := false;
        case Some(cmds) =>
          var want := DesiredState(i.deployment, cmds);
          if i.id in p.running && want.deployment.Some? {
            if p.running[i.id] != want.deployment.value || want.restart {
              starts := starts + [Start(i.id, want.deployment.value, want.wipe)];
            }
          } else if want.deployment.Some? {
            starts := starts + [Start(i.id, want.deployment.value, want.wipe)];
          } else if i.id in p.running {
            stops := stops + [Stop(i.id, want.wipe)];
          }
      }
    }

    /** Count the unmatched instances. */
    method Count(unknown: set<Id>)
      modifies this`counters
      ensures counters == Counted(old(counters), unknown)
    {
      var rest := unknown;
      while rest != {}
        invariant rest <= unknown && counters == Counted(old(counters), unknown - rest)
      {
        var id :| id in rest;
        counters := counters[id := 1 + if id in counters then counters[id] else 0];
        rest := rest - {id};
      }
      assert unknown - {} == unknown;
    }

    /** Wipe the instances that have been unmatched for too long. */
    method Wipe()
      modifies this`counters, this`stops
      ensures counters == old(counters) - Wiped(old(counters))
      ensures exists extra :: Stopping(extra, Wiped(old(counters))) && stops == old(stops) + extra
    {
      var wiped := set id | id in counters && counters[id] > WIPE_DELAY;
      var rest := wiped;
      ghost var extra: seq<Stop> := [];
      while rest != {}
        invariant rest <= wiped && counters == old(counters) - (wiped - rest)
        invariant Stopping(extra, wiped - rest) && stops == old(stops) + extra
      {
        var id :| id in rest;
        counters := counters - {id};
        stops := stops + [Stop(id, true)];
        ghost var more := extra + [Stop(id, true)];
        rest := rest - {id};
        assert Stopping(more, wiped - rest) by {
          assert more[|extra|] == Stop(id, true);
          assert forall i | 0 <= i < |extra| :: more[i] == extra[i];
        }
        extra := more;
      }
      assert wiped - rest == wiped;
    }

    /** One discovery pass. It fails, leaving the counters alone, when a query for volumes, bundles,
        offers or instances fails, and otherwise exactly when the commands of an instance that is
        accepted here and paid for cannot be queried; the counters keep what it did until then. */
    method Discover(found: Option<Pass>) returns (ok: bool)
      modifies this
      ensures lastRound == old(lastRound)
      ensures found.None? ==> !ok && counters == old(counters)
      ensures found.Some? ==>
                var p := found.value;
                var d := Visited(p, Begin(p, old(counters)), p.instances);
                && counters == Recorded(p, old(counters)).0
                && ok == !d.failed
                && (ok ==> accepts == [] && exists extra ::
                      && Stopping(extra, Wiped(Counted(d.counters, d.unknown)))
                      && Here(d.unknown, d.known, false) == Completed(d, extra))
    {
      hide Recorded, Visited, Stopping, Completed;
      if found.None? {
        return false;
      }
      ok := DiscoverInstances(found.value);
    }

    method DiscoverInstances(p: Pass) returns (ok: bool)
      modifies this
      ensures lastRound == old(lastRound)
      ensures counters == Recorded(p, old(counters)).0
      ensures var d := Visited(p, Begin(p, old(counters)), p.instances);
              && ok == !d.failed
              && (ok ==> accepts == [] && exists extra ::
                    && Stopping(extra, Wiped(Counted(d.counters, d.unknown)))
                    && Here(d.unknown, d.known, false) == Completed(d, extra))
    {
      hide Visit, Counted, Wiped, Stopping;
      var unknown := p.running.Keys + p.volumes;
      ghost var known: set<Id> := {};
      ghost var d := Begin(p, counters);
      accepted, starts, stops, removes, accepts, used := map[], [], [], [], [], NOTHING;
      for n := 0 to |p.instances|
        invariant Here(unknown, known, false) == Visited(p, d, p.instances[..n])
        invariant accepts == [] && lastRound == old(lastRound)
      {
        var i := p.instances[n];
        assert p.instances[..n + 1][..n] == p.instances[..n];
        VisitCases(p, Here(unknown, known, false), i);
        match i.status {
          case Created =>
          case Cancelled =>
            removes := removes + [i.id];
          case Accepted(node) =>
            if node == p.local {
              unknown, ok := VisitAccepted(p, i, unknown, known);
              known := known + {i.id};
              if !ok {
                FailedStays(p, d, p.instances, n + 1);
                return;
              }
            }
        }
      }
      assert p.instances[..|p.instances|] == p.instances;
      Count(unknown);
      Wipe();
      ok := true;
    }

    /** Evaluate the pending instances against what is left of the capacity. */
    method ProcessPending(cfg: Config, p: Pass)
      modifies this`accepted, this`used, this`accepts, this`removes
      ensures Acceptance(accepted, used, accepts, removes) ==
              Evaluated(cfg, p.local, old(Acceptance(accepted, used, accepts, removes)), p.instances)
    {
      hide Add, CanAllocate;
      for n := 0 to |p.instances|
        invariant Acceptance(accepted, used, accepts, removes) ==
                  Evaluated(cfg, p.local, old(Acceptance(accepted, used, accepts, removes)), p.instances[..n])
      {
        var i := p.instances[n];
        assert p.instances[..n + 1][..n] == p.instances[..n];
        var transfer := false;
        match i.status {
          case Created =>
          case Accepted(node) =>
            if node == p.local || !cfg.transfersFrom(node) {
              continue;
            }
            transfer := true;
          case Cancelled =>
            continue;
        }
        var use := Add(used, i.resources);
        if !cfg.acceptable(i) || !CanAllocate(cfg.capacity, use) {
          if !transfer {
            removes := removes + [i.id];
          }
        } else {
          accepts, accepted, used := accepts + [i.id], accepted[i.id := i], use;
        }
      }
      assert p.instances[..|p.instances|] == p.instances;
    }

    /** A turn of the main loop: discover, then, unless the round has been dealt with already, evaluate
        the pending instances and process the jobs. `listed` and `processed` say whether the second
        query for instances and the processing of the jobs succeed. A round is done with once its jobs
        have been processed, and whatever is accepted fits with everything accepted before. */
    method Turn(cfg: Config, found: Option<Pass>, listed: bool, processed: bool) returns (acted: bool)
      requires found.Some? ==> DistinctIds(found.value.instances)
      modifies this
      ensures counters == if found.Some? then Recorded(found.value, old(counters)).0 else old(counters)
      ensures acted <==>
              && found.Some? && found.value.round > old(lastRound) && listed
              && !Visited(found.value, Begin(found.value, old(counters)), found.value.instances).failed
      ensures acted ==> Acceptance(accepted, used, accepts, removes) == FullPass(cfg, found.value, old(counters))
      ensures acted ==>
                var d := Visited(found.value, Begin(found.value, old(counters)), found.value.instances);
                && starts == d.starts
                && exists extra :: Stopping(extra, Wiped(Counted(d.counters, d.unknown))) && stops == d.stops + extra
      ensures acted && accepts != [] ==> Within(Total(accepted), cfg.capacity)
      ensures lastRound == if acted && processed then found.value.round else old(lastRound)
    {
      hide Visited, Evaluated, Total, Recorded;
      var ok := Discover(found);
      if !ok || found.value.round <= lastRound || !listed {
        return false;
      }
      ProcessPending(cfg, found.value);
      AcceptedFitsCapacity(cfg, found.value, old(counters));
      if processed {
        lastRound := found.value.round;
      }
      return true;
    }
  }

  lemma VisitCases(p: Pass, d: Discovery, i: Instance)
    ensures i.status.Created? || (i.status.Accepted? && i.status.node != p.local) ==> Visit(p, d, i) == d
    ensures i.status.Cancelled? ==> Visit(p, d, i) == d.(removes := d.removes + [i.id])
  {
  }
}
