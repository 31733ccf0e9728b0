/** What a pass of the ROFL scheduler decides about every instance of the market
    (rofl-scheduler/src/manager.rs): which jobs it queues, and which instances it accepts and removes. */
module Decisions {
  import opened Scheduler

  function StartsOf(starts: seq<Start>, id: Id): seq<Start> {
    if starts == [] then []
    else
      var last := starts[|starts| - 1];
      StartsOf(starts[..|starts| - 1], id) + if last.id == id then [last] else []
  }

  function StopsOf(stops: seq<Stop>, id: Id): seq<Stop> {
    if stops == [] then []
    else
      var last := stops[|stops| - 1];
      StopsOf(stops[..|stops| - 1], id) + if last.id == id then [last] else []
  }

  predicate Paid(p: Pass, i: Instance) {
    p.now <= i.paidUntil
  }

  predicate OurOwn(p: Pass, i: Instance) {
    i.status == Accepted(p.local)
  }

  /** The jobs for an instance with the given commands. It is started if it should run and does not, runs
      something else or is to be restarted, and stopped if it runs and should not; either job wipes if
      any of the commands asks for it. */
  predicate JobsFor(p: Pass, i: Instance, cmds: seq<Command>, starts: seq<Start>, stops: seq<Stop>) {
    var want := LastSaid(i.deployment, cmds);
    var wipe := exists k | 0 <= k < |cmds| :: Wipes(cmds[k]);
    var restart := exists k | 0 <= k < |cmds| :: cmds[k].Restart?;
    if want.Some? then
      && stops == []
      && starts == if i.id !in p.running || p.running[i.id] != want.value || restart
                   then [Start(i.id, want.value, wipe)] else []
    else
      && starts == []
      && stops == if i.id in p.running then [Stop(i.id, wipe)] else []
  }

  /** The jobs for an instance accepted here, paid for or not. */
  predicate Served(p: Pass, i: Instance, starts: seq<Start>, stops: seq<Stop>) {
    if Paid(p, i) then p.commands(i.id).Some? && JobsFor(p, i, p.commands(i.id).value, starts, stops)
    else starts == [] && stops == if i.id in p.running then [Stop(i.id, true)] else []
  }

  lemma {:induction false} NoneOf(starts: seq<Start>, stops: seq<Stop>, known: set<Id>, id: Id)
    requires Jobs(starts, stops, known) && id !in known
    ensures StartsOf(starts, id) == [] && StopsOf(stops, id) == []
    decreases |starts| + |stops|
  {
    if starts != [] {
      assert starts[|starts| - 1].id in known;
      NoneOf(starts[..|starts| - 1], stops, known, id);
    } else if stops != [] {
      assert stops[|stops| - 1].id in known;
      NoneOf(starts, stops[..|stops| - 1], known, id);
    }
  }

  lemma OneMore(starts: seq<Start>, stops: seq<Stop>, id: Id)
    ensures forall s: Start ::
              StartsOf(starts + [s], id) == StartsOf(starts, id) + if s.id == id then [s] else []
    ensures forall s: Stop ::
              StopsOf(stops + [s], id) == StopsOf(stops, id) + if s.id == id then [s] else []
  {
    forall s: Start ensures StartsOf(starts + [s], id) == StartsOf(starts, id) + if s.id == id then [s] else [] {
      assert (starts + [s])[..|starts|] == starts;
    }
    forall s: Stop ensures StopsOf(stops + [s], id) == StopsOf(stops, id) + if s.id == id then [s] else [] {
      assert (stops + [s])[..|stops|] == stops;
    }
  }

  lemma ReconciledServes(p: Pass, d: Discovery, i: Instance, cmds: seq<Command>, id: Id)
    requires StartsOf(d.starts, i.id) == [] && StopsOf(d.stops, i.id) == []
    ensures var e := Reconciled(p, d, i.id, AfterCommands(Desired(i.deployment, false, false), cmds));
            if id == i.id then JobsFor(p, i, cmds, StartsOf(e.starts, id), StopsOf(e.stops, id))
            else StartsOf(e.starts, id) == StartsOf(d.starts, id) && StopsOf(e.stops, id) == StopsOf(d.stops, id)
  {
    hide AfterCommands, LastSaid, StartsOf, StopsOf;
    OneMore(d.starts, d.stops, id);
    CommandsDecide(Desired(i.deployment, false, false), cmds);
  }

  /** A visit queues the jobs of the visited instance and no other. */
  lemma VisitServes(p: Pass, d: Discovery, i: Instance, id: Id)
    requires StartsOf(d.starts, i.id) == [] && StopsOf(d.stops, i.id) == [] && !Visit(p, d, i).failed
    ensures var e := Visit(p, d, i);
            && (OurOwn(p, i) && id == i.id ==> Served(p, i, StartsOf(e.starts, id), StopsOf(e.stops, id)))
            && (id != i.id ==>
                  StartsOf(e.starts, id) == StartsOf(d.starts, id) && StopsOf(e.stops, id) == StopsOf(d.stops, id))
  {
    hide Add, AfterCommands, Reconciled, JobsFor, StartsOf, StopsOf;
    OneMore(d.starts, d.stops, id);
    assert d.stops + [] == d.stops;
    if OurOwn(p, i) && Paid(p, i) {
      var own := {i.id};
      var e := d.(unknown := d.unknown - own, counters := d.counters - own, known := d.known + own,
                  accepted := d.accepted[i.id := i], used := Add(d.used, i.resources));
      ReconciledServes(p, e, i, p.commands(i.id).value, id);
    }
  }

  lemma {:induction false} VisitsServe(p: Pass, counters: map<Id, nat>, instances: seq<Instance>, i: nat)
    requires DistinctIds(instances) && !Visited(p, Begin(p, counters), instances).failed
    requires i < |instances| && OurOwn(p, instances[i])
    ensures var d := Visited(p, Begin(p, counters), instances);
            Served(p, instances[i], StartsOf(d.starts, instances[i].id), StopsOf(d.stops, instances[i].id))
  {
    hide Visit, Served, Jobs, StartsOf, StopsOf;
    var init, last := instances[..|instances| - 1], instances[|instances| - 1];
    var d := Visited(p, Begin(p, counters), init);
    assert forall k | 0 <= k < |init| :: init[k].id != last.id;
    if last.id in d.known {
      VisitedIsKnown(p, counters, init, last.id);
      assert false;
    }
    VisitedKeepsJobs(p, counters, init);
    NoneOf(d.starts, d.stops, d.known, last.id);
    VisitServes(p, d, last, instances[i].id);
    if i < |init| {
      VisitsServe(p, counters, init, i);
    }
  }

  lemma {:induction false} OtherStops(stops: seq<Stop>, extra: seq<Stop>, id: Id)
    requires forall k | 0 <= k < |extra| :: extra[k].id != id
    ensures StopsOf(stops + extra, id) == StopsOf(stops, id)
  {
    if extra == [] {
      assert stops + extra == stops;
    } else {
      var init := extra[..|extra| - 1];
      OtherStops(stops, init, id);
      assert (stops + extra)[..|stops + extra| - 1] == stops + init;
    }
  }

  /** A completed pass queues for every instance accepted here exactly the jobs that its payment, its
      commands and what it runs call for. */
  lemma PassServes(p: Pass, counters: map<Id, nat>, extra: seq<Stop>, i: nat)
    requires DistinctIds(p.instances) && i < |p.instances| && OurOwn(p, p.instances[i])
    requires var d := Visited(p, Begin(p, counters), p.instances);
             !d.failed && Stopping(extra, Wiped(Counted(d.counters, d.unknown)))
    ensures var e := Completed(Visited(p, Begin(p, counters), p.instances), extra);
            var id := p.instances[i].id;
            Served(p, p.instances[i], StartsOf(e.starts, id), StopsOf(e.stops, id))
  {
    hide Visited, Served;
    var d := Visited(p, Begin(p, counters), p.instances);
    VisitsServe(p, counters, p.instances, i);
    VisitedBooks(p, counters, p.instances);
    LocalIsKnown(p, counters, p.instances, i);
    OtherStops(d.stops, extra, p.instances[i].id);
  }

  /** What discovery makes of an instance, by its own record alone. */
  lemma {:induction false} VisitedKeeps(p: Pass, counters: map<Id, nat>, instances: seq<Instance>, i: nat)
    requires DistinctIds(instances) && !Visited(p, Begin(p, counters), instances).failed && i < |instances|
    ensures var d, x := Visited(p, Begin(p, counters), instances), instances[i];
            && (x.id in d.accepted <==> OurOwn(p, x) && Paid(p, x))
            && (x.id in d.removes <==> x.status.Cancelled? || (OurOwn(p, x) && !Paid(p, x)))
  {
    hide Visit;
    var init, last := instances[..|instances| - 1], instances[|instances| - 1];
    var d, x := Visited(p, Begin(p, counters), init), instances[i];
    VisitFiles(p, d, last, x.id);
    if i < |init| {
      assert instances[i].id != last.id;
      VisitedKeeps(p, counters, init, i);
    } else if last.id in d.accepted || last.id in d.removes {
      FiledIsVisited(p, counters, init, last.id);
      assert false;
    }
  }

  lemma VisitFiles(p: Pass, d: Discovery, i: Instance, id: Id)
    requires !Visit(p, d, i).failed
    ensures var e := Visit(p, d, i);
            && (id in e.accepted <==> id in d.accepted || (id == i.id && OurOwn(p, i) && Paid(p, i)))
            && (id in e.removes <==>
                  || id in d.removes
                  || (id == i.id && (i.status.Cancelled? || (OurOwn(p, i) && !Paid(p, i)))))
  {
    hide AfterCommands, Add;
  }

  lemma {:induction false} FiledIsVisited(p: Pass, counters: map<Id, nat>, instances: seq<Instance>, id: Id)
    requires var d := Visited(p, Begin(p, counters), instances);
             !d.failed && (id in d.accepted || id in d.removes)
    ensures exists k | 0 <= k < |instances| :: instances[k].id == id
  {
    hide Visit;
    if instances != [] {
      var init, last := instances[..|instances| - 1], instances[|instances| - 1];
      VisitFiles(p, Visited(p, Begin(p, counters), init), last, id);
      if id != last.id {
        FiledIsVisited(p, counters, init, id);
        var k :| 0 <= k < |init| && init[k].id == id;
        assert instances[k].id == id;
      }
    }
  }

  /** The instance is up for acceptance. */
  predicate Pending(cfg: Config, local: NodeId, i: Instance) {
    i.status.Created? || (i.status.Accepted? && i.status.node != local && cfg.transfersFrom(i.status.node))
  }

  /** The exact sum of the resources of the instances kept and of those before position `n` that have
      been accepted. */
  function Load(p: Pass, accepts: seq<Id>, instances: seq<Instance>, n: nat): Amounts {
    if instances == [] then Amounts(0, 0, 0, 0)
    else
      var init, last := instances[..|instances| - 1], instances[|instances| - 1];
      var rest := Load(p, accepts, init, n);
      if (OurOwn(p, last) && Paid(p, last)) || (|init| < n && last.id in accepts)
      then Plus(rest, last.resources)
      else rest
  }

  lemma {:induction false} LoadOfAll(p: Pass, accepts: seq<Id>, instances: seq<Instance>, n: nat)
    requires |instances| <= n
    ensures Load(p, accepts, instances, n) == Load(p, accepts, instances, |instances|)
  {
    if instances != [] {
      var init := instances[..|instances| - 1];
      LoadOfAll(p, accepts, init, n);
      LoadOfAll(p, accepts, init, |instances|);
    }
  }

  lemma {:induction false} LoadGrows(p: Pass, accepts: seq<Id>, instances: seq<Instance>, n: nat)
    requires n < |instances|
    ensures var x, before := instances[n], Load(p, accepts, instances, n);
            Load(p, accepts, instances, n + 1) ==
              if x.id in accepts && !(OurOwn(p, x) && Paid(p, x)) then Plus(before, x.resources) else before
  {
    var init := instances[..|instances| - 1];
    if n < |init| {
      LoadGrows(p, accepts, init, n);
    } else {
      LoadOfAll(p, accepts, init, n + 1);
    }
  }

  lemma {:induction false} KeptLoad(p: Pass, counters: map<Id, nat>, accepts: seq<Id>, instances: seq<Instance>)
    requires !Visited(p, Begin(p, counters), instances).failed
    ensures Visited(p, Begin(p, counters), instances).used == Saturated(Load(p, accepts, instances, 0))
  {
    hide Saturated, Add, AfterCommands;
    if instances == [] {
      NothingSaturated();
    } else {
      var init, last := instances[..|instances| - 1], instances[|instances| - 1];
      KeptLoad(p, counters, accepts, init);
      AddingSaturates(Load(p, accepts, init, 0), last.resources);
    }
  }

  lemma {:induction false} EvaluatedElsewhere(cfg: Config, local: NodeId, start: Acceptance, instances: seq<Instance>,
                                              id: Id)
    requires forall k | 0 <= k < |instances| :: instances[k].id != id
    ensures var a := Evaluated(cfg, local, start, instances);
            && (id in a.accepts <==> id in start.accepts)
            && (id in a.removes <==> id in start.removes)
            && (id in a.accepted <==> id in start.accepted)
  {
    hide Add, CanAllocate;
    if instances != [] {
      EvaluatedElsewhere(cfg, local, start, instances[..|instances| - 1], id);
    }
  }

  /** An instance is accepted or removed at its own turn or not at all. */
  lemma {:induction false} EvaluatedAtItsTurn(cfg: Config, local: NodeId, start: Acceptance, instances: seq<Instance>,
                                              i: nat)
    requires DistinctIds(instances) && i < |instances| && start.accepts == []
    ensures var a, x := Evaluated(cfg, local, start, instances), instances[i];
            var use := Add(Evaluated(cfg, local, start, instances[..i]).used, x.resources);
            var good := cfg.acceptable(x) && CanAllocate(cfg.capacity, use);
            && (x.id in a.accepts <==> Pending(cfg, local, x) && good)
            && (x.id in a.removes <==> x.id in start.removes || (x.status.Created? && !good))
            && (x.id in a.accepted <==> x.id in start.accepted || x.id in a.accepts)
  {
    hide Add, CanAllocate;
    var init, last := instances[..|instances| - 1], instances[|instances| - 1];
    if i < |init| {
      EvaluatedAtItsTurn(cfg, local, start, init, i);
      assert init[..i] == instances[..i];
    } else {
      assert forall k | 0 <= k < |init| :: init[k].id != last.id;
      EvaluatedElsewhere(cfg, local, start, init, last.id);
    }
  }

  /** At every turn the resources in use are the saturated exact sum of what is kept and of what has been
      accepted before. */
  lemma {:induction false} UsedIsLoad(cfg: Config, p: Pass, counters: map<Id, nat>, n: nat)
    requires DistinctIds(p.instances) && !Visited(p, Begin(p, counters), p.instances).failed && n <= |p.instances|
    ensures var d := Visited(p, Begin(p, counters), p.instances);
            var start := Acceptance(d.accepted, d.used, [], d.removes);
            Evaluated(cfg, p.local, start, p.instances[..n]).used ==
              Saturated(Load(p, FullPass(cfg, p, counters).accepts, p.instances, n))
  {
    hide Visited, Saturated, Load, Add, CanAllocate;
    var accepts := FullPass(cfg, p, counters).accepts;
    if n == 0 {
      KeptLoad(p, counters, accepts, p.instances);
    } else {
      var d, x := Visited(p, Begin(p, counters), p.instances), p.instances[n - 1];
      var start := Acceptance(d.accepted, d.used, [], d.removes);
      assert p.instances[..n][..n - 1] == p.instances[..n - 1];
      UsedIsLoad(cfg, p, counters, n - 1);
      EvaluatedAtItsTurn(cfg, p.local, start, p.instances, n - 1);
      LoadGrows(p, accepts, p.instances, n - 1);
      AddingSaturates(Load(p, accepts, p.instances, n - 1), x.resources);
    }
  }

  lemma SaturatedFits(total: Amounts, cap: Resources)
    ensures CanAllocate(cap, Saturated(total)) <==> Within(total, cap)
  {
  }

  /** What a completed pass does with an instance of the market. It accepts it exactly if the instance is
      pending and acceptable and, together with all that is kept and all that has been accepted before
      it, fits the capacity in every field not at its type's maximum. It puts it up for removal exactly
      if it is cancelled, accepted here but not paid for, or created and not accepted. */
  lemma PassAccepts(cfg: Config, p: Pass, counters: map<Id, nat>, i: nat)
    requires DistinctIds(p.instances) && !Visited(p, Begin(p, counters), p.instances).failed && i < |p.instances|
    ensures var a, x := FullPass(cfg, p, counters), p.instances[i];
            var load := Plus(Load(p, a.accepts, p.instances, i), x.resources);
            var kept := OurOwn(p, x) && Paid(p, x);
            && (x.id in a.accepts <==> Pending(cfg, p.local, x) && cfg.acceptable(x) && Within(load, cfg.capacity))
            && (x.id in a.removes <==>
                  || x.status.Cancelled?
                  || (OurOwn(p, x) && !Paid(p, x))
                  || (x.status.Created? && x.id !in a.accepts))
            && (x.id in a.accepted <==> kept || x.id in a.accepts)
  {
    hide Visited, Evaluated, Load, Saturated, Add, CanAllocate, Within;
    var a, d, x := FullPass(cfg, p, counters), Visited(p, Begin(p, counters), p.instances), p.instances[i];
    var load := Load(p, a.accepts, p.instances, i);
    VisitedKeeps(p, counters, p.instances, i);
    EvaluatedAtItsTurn(cfg, p.local, Acceptance(d.accepted, d.used, [], d.removes), p.instances, i);
    UsedIsLoad(cfg, p, counters, i);
    AddingSaturates(load, x.resources);
    SaturatedFits(Plus(load, x.resources), cfg.capacity);
  }

  /** The ids of the instances in a set, in the order of the market. */
  function IdsIn(instances: seq<Instance>, ids: seq<Id>): seq<Id> {
    if instances == [] then []
    else
      var last := instances[|instances| - 1].id;
      IdsIn(instances[..|instances| - 1], ids) + if last in ids then [last] else []
  }

  lemma {:induction false} AcceptsAreOrdered(cfg: Config, local: NodeId, start: Acceptance, instances: seq<Instance>,
                                             ids: seq<Id>)
    requires DistinctIds(instances) && start.accepts == []
    requires forall i | 0 <= i < |instances| ::
               instances[i].id in ids <==> instances[i].id in Evaluated(cfg, local, start, instances).accepts
    ensures Evaluated(cfg, local, start, instances).accepts == IdsIn(instances, ids)
  {
    hide Add, CanAllocate;
    if instances != [] {
      var init, last := instances[..|instances| - 1], instances[|instances| - 1];
      assert forall i | 0 <= i < |init| :: init[i].id != last.id && instances[i] == init[i];
      EvaluatedElsewhere(cfg, local, start, init, last.id);
      AcceptsAreOrdered(cfg, local, start, init, ids);
    }
  }

  /** Every accepted instance is accepted once, in the order of the market. */
  lemma PassAcceptsInOrder(cfg: Config, p: Pass, counters: map<Id, nat>)
    requires DistinctIds(p.instances)
    ensures var accepts := FullPass(cfg, p, counters).accepts; accepts == IdsIn(p.instances, accepts)
  {
    hide Visited, Evaluated;
    var d := Visited(p, Begin(p, counters), p.instances);
    AcceptsAreOrdered(cfg, p.local, Acceptance(d.accepted, d.used, [], d.removes), p.instances,
                      FullPass(cfg, p, counters).accepts);
  }
}
