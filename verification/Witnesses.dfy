/** Runs that show the assumptions of the main theorems are needed: what one lost write, one failed cleanup, one
    timed-out creation and one clash of job names can do, and when a PrePullImage stays for ever. */
module Witnesses {
  import opened RateLimiting
  import opened Cluster
  import opened Pass
  import opened System
  import opened Lifecycle
  import opened Progress
  import opened JobLimit
  import opened Ledger

  /** A world in which every call succeeds and nothing else happens. */
  const FAIR := Env(false, 0, Some([]), [], false, {})

  predicate FlawlessRun(steps: seq<Step>) {
    forall i :: 0 <= i < |steps| ==> Flawless(steps[i])
  }

  lemma OneMoreStep(nm: Namer, w: World, steps: seq<Step>, step: Step)
    ensures Run(nm, w, steps + [step]) == Apply(nm, Run(nm, w, steps), step)
  {
    assert (steps + [step])[..|steps|] == steps;
  }

  lemma RunOfNothing(nm: Namer, w: World)
    ensures Run(nm, w, []) == w
  {
  }

  /** The record of a PrePullImage with listed target nodes, ready for its first pass. */
  function Ready(image: string, nodes: seq<string>): PrePullImage {
    Initialised(Submitted(image, nodes, 0).(finalizer := true), nodes)
  }

  /** Submitting a PrePullImage and reconciling it twice brings it to InProgress. */
  lemma Prepares(nm: Namer, w: World, steps: seq<Step>, key: Key, image: string, nodes: seq<string>)
    returns (more: seq<Step>)
    requires key !in Run(nm, w, steps).ppis && nodes != []
    ensures more == steps + [Submit(key, image, nodes, 0), Visit(key, FAIR), Visit(key, FAIR)]
    ensures var v := Run(nm, w, steps); Run(nm, w, more) == v.(ppis := v.ppis[key := Ready(image, nodes)])
  {
    hide Run;
    var v := Run(nm, w, steps);
    var p := Submitted(image, nodes, 0);
    var q := p.(finalizer := true);
    var s1 := steps + [Submit(key, image, nodes, 0)];
    OneMoreStep(nm, w, steps, Submit(key, image, nodes, 0));
    assert Run(nm, w, s1) == v.(ppis := v.ppis[key := p]);
    var s2 := s1 + [Visit(key, FAIR)];
    OneMoreStep(nm, w, s1, Visit(key, FAIR));
    assert v.ppis[key := p][key := q] == v.ppis[key := q];
    assert Run(nm, w, s2) == v.(ppis := v.ppis[key := q]);
    more := s2 + [Visit(key, FAIR)];
    OneMoreStep(nm, w, s2, Visit(key, FAIR));
    assert v.ppis[key := q][key := Ready(image, nodes)] == v.ppis[key := Ready(image, nodes)];
  }

  // ---------------------------------------------------------------------------------------------
  // A PrePullImage without nodes
  // ---------------------------------------------------------------------------------------------

  /** A flawless run after which the record of a finished PrePullImage never changes again, unless somebody asks
      for its deletion: all it takes is that no node matches. */
  lemma NoNodesNeverExpires(nm: Namer, maxPulls: int, maxPerNode: int, key: Key, image: string, max: int)
    returns (steps: seq<Step>)
    ensures FlawlessRun(steps)
    ensures var w := Run(nm, Start(maxPulls, maxPerNode), steps);
            && key in w.ppis && !w.ppis[key].deleting && w.ppis[key].phase.PhaseCompleted?
            && w.ppis[key].nodeStatus == [] && w.ppis[key].completionTime == None
            && forall later :: Unasked(later, key) ==>
                 key in Run(nm, w, later).ppis && Run(nm, w, later).ppis[key] == w.ppis[key]
  {
    hide Run;
    var w0 := Start(maxPulls, maxPerNode);
    RunOfNothing(nm, w0);
    steps := [] + [Submit(key, image, [], max)];
    OneMoreStep(nm, w0, [], Submit(key, image, [], max));
    OneMoreStep(nm, w0, steps, Visit(key, FAIR));
    steps := steps + [Visit(key, FAIR)];
    OneMoreStep(nm, w0, steps, Visit(key, FAIR));
    steps := steps + [Visit(key, FAIR)];
    hide Reconcile;
    RunsKeepAllOk(nm, maxPulls, maxPerNode, steps);
    NeverExpiresExactlyWhen(nm, Run(nm, w0, steps), key);
  }

  // ---------------------------------------------------------------------------------------------
  // A lost write
  // ---------------------------------------------------------------------------------------------

  predicate Distinct(nodes: seq<string>) {
    forall i, j :: 0 <= i < j < |nodes| ==> nodes[i] != nodes[j]
  }

  /** The first n entries were started, one on each node. */
  predicate StartedFirst(s: State, nodes: seq<string>, n: nat)
    requires n <= |nodes|
  {
    && s.limiter.Valid() && s.limiter.current == n
    && (forall j :: n <= j < |nodes| ==> s.limiter.Count(nodes[j]) == 0)
    && s.starts == multiset(nodes[..n]) && s.stops == multiset{}
  }

  function Min(a: int, b: int): int {
    if a < b then a else b
  }

  lemma StartsWithSlot(nm: Namer, key: Key, p: PrePullImage, s: State, i: nat, nodes: seq<string>)
    requires i < |nodes| == |s.entries| && Distinct(nodes) && i < s.limiter.maxPulls
    requires StartedFirst(s, nodes, i) && s.entries[i].status.Pending? && s.entries[i].node == nodes[i]
    ensures StartedFirst(Handle(nm, key, p, s, i, CALM), nodes, i + 1)
  {
    assert s.limiter.Grants(nodes[i]);
    AcquireHolds(s.limiter, nodes[i], Whole);
    assert nodes[..i + 1] == nodes[..i] + [nodes[i]];
  }

  lemma WaitsWithout(nm: Namer, key: Key, p: PrePullImage, s: State, i: nat)
    requires i < |s.entries| && s.limiter.current == s.limiter.maxPulls && s.entries[i].status.Pending?
    ensures var t := Handle(nm, key, p, s, i, CALM); t.limiter == s.limiter && t.starts == s.starts && t.stops == s.stops
  {
  }

  /** The next entry starts if there is a slot left, and waits otherwise. */
  lemma StartsNext(nm: Namer, key: Key, p: PrePullImage, s: State, i: nat, nodes: seq<string>)
    requires i < |nodes| == |s.entries| && Distinct(nodes) && 0 < s.limiter.maxPulls
    requires StartedFirst(s, nodes, Min(i, s.limiter.maxPulls)) && s.entries[i].status.Pending? && s.entries[i].node == nodes[i]
    ensures StartedFirst(Handle(nm, key, p, s, i, CALM), nodes, Min(i + 1, s.limiter.maxPulls))
  {
    hide Handle;
    if i < s.limiter.maxPulls {
      StartsWithSlot(nm, key, p, s, i, nodes);
    } else {
      WaitsWithout(nm, key, p, s, i);
    }
  }

  lemma {:induction false} PassStartsFirst(nm: Namer, key: Key, p: PrePullImage, s0: State, nodes: seq<string>, n: nat)
    requires n <= |nodes| && Distinct(nodes) && s0.entries == Initial(nodes)
    requires s0 == Begin(s0.limiter, s0.store, s0.metrics, s0.entries)
    requires s0.limiter.Valid() && s0.limiter == s0.limiter.Fresh()
    ensures StartedFirst(After(nm, key, p, s0, [], n), nodes, Min(n, s0.limiter.maxPulls))
    decreases n
  {
    hide Handle;
    if n > 0 {
      PassStartsFirst(nm, key, p, s0, nodes, n - 1);
      PassKeepsValid(nm, key, p, s0, [], n - 1);
      EntriesMove(nm, key, p, s0, [], n - 1);
      hide StartedFirst;
      var s := After(nm, key, p, s0, [], n - 1);
      assert s.entries[n - 1] == Initial(nodes)[n - 1];
      StartsNext(nm, key, p, s, n - 1, nodes);
    }
  }

  const LOSSY := FAIR.(writeFails := true)

  /** A first pass over at least as many nodes as the cluster limit, whose write is lost. */
  lemma SlotsLeftBehind(nm: Namer, v: World, key: Key, image: string, nodes: seq<string>)
    requires v.limiter.Valid() && v.limiter == v.limiter.Fresh() && v.limiter.maxPulls <= |nodes| && Distinct(nodes)
    requires key in v.ppis && v.ppis[key] == Ready(image, nodes)
    ensures var w := Reconcile(nm, v, key, LOSSY).world;
            && w.ppis == v.ppis && w.limiter.current == w.limiter.maxPulls
            && w.past.lostStarts == v.past.lostStarts + multiset(nodes[..v.limiter.maxPulls])
            && w.past.lostStops == v.past.lostStops + multiset{}
  {
    var s0 := Begin(v.limiter, v.store, v.metrics, v.ppis[key].nodeStatus);
    PassStartsFirst(nm, key, v.ppis[key], s0, nodes, |nodes|);
    PassKeepsValid(nm, key, v.ppis[key], s0, [], |nodes|);
  }

  lemma NonePullingYet(key: Key, image: string, nodes: seq<string>)
    ensures Everywhere(map[key := Ready(image, nodes)], Using(Whole)) == 0
  {
    EverywherePut(map[], key, Ready(image, nodes), Using(Whole));
    InitialTallies(nodes, 0);
    assert Everywhere(map[], Using(Whole)) == 0;
  }

  lemma StarvedByLoss(nm: Namer, v: World, key: Key, image: string, nodes: seq<string>)
    requires v.limiter.Valid() && v.limiter == v.limiter.Fresh() && v.limiter.maxPulls <= |nodes| && Distinct(nodes)
    requires v.ppis == map[key := Ready(image, nodes)] && v.past.lostStarts == v.past.lostStops == multiset{}
    ensures var w := Reconcile(nm, v, key, LOSSY).world;
            && w.past.lostStarts == multiset(nodes[..v.limiter.maxPulls]) && w.past.lostStops == multiset{}
            && w.ppis == v.ppis && Starved(w)
  {
    SlotsLeftBehind(nm, v, key, image, nodes);
    NonePullingYet(key, image, nodes);
    hide Reconcile;
    hide Everywhere;
    hide Ready;
  }

  /** The run: everything succeeds but the write after the first pass. */
  lemma LosesOneWrite(nm: Namer, maxPulls: int, maxPerNode: int, key: Key, image: string, nodes: seq<string>)
    returns (before: seq<Step>)
    requires NewLimiter(maxPulls, maxPerNode).maxPulls <= |nodes| && Distinct(nodes)
    ensures FlawlessRun(before)
    ensures var w := Run(nm, Start(maxPulls, maxPerNode), before + [Visit(key, LOSSY)]);
            && w.past.lostStarts == multiset(nodes[..NewLimiter(maxPulls, maxPerNode).maxPulls]) && w.past.lostStops == multiset{}
            && w.ppis == map[key := Ready(image, nodes)] && Starved(w)
  {
    hide Run;
    hide Starved;
    hide Ready;
    hide Reconcile;
    var w0 := Start(maxPulls, maxPerNode);
    RunOfNothing(nm, w0);
    before := Prepares(nm, w0, [], key, image, nodes);
    StarvedByLoss(nm, Run(nm, w0, before), key, image, nodes);
    OneMoreStep(nm, w0, before, Visit(key, LOSSY));
  }

  /** One lost status write is enough, whatever the limits: if the object lists at least as many distinct nodes as
      pulls may run in the cluster, the slots it leaves behind starve every PrePullImage until the operator is restarted. */
  lemma OneLostWriteStarves(nm: Namer, maxPulls: int, maxPerNode: int, key: Key, image: string, nodes: seq<string>)
    returns (before: seq<Step>)
    requires NewLimiter(maxPulls, maxPerNode).maxPulls <= |nodes| && Distinct(nodes)
    ensures FlawlessRun(before)
    ensures var w := Run(nm, Start(maxPulls, maxPerNode), before + [Visit(key, FAIR.(writeFails := true))]);
            && w.past.lostStarts == multiset(nodes[..NewLimiter(maxPulls, maxPerNode).maxPulls]) && w.past.lostStops == multiset{}
            && key in w.ppis && w.ppis[key].phase.InProgress?
            && forall later :: NoRestart(later) ==> Starved(Run(nm, w, later))
  {
    hide Run;
    before := LosesOneWrite(nm, maxPulls, maxPerNode, key, image, nodes);
    var steps := before + [Visit(key, LOSSY)];
    var w := Run(nm, Start(maxPulls, maxPerNode), steps);
    RunsKeepAllOk(nm, maxPulls, maxPerNode, steps);
    forall later | NoRestart(later) ensures Starved(Run(nm, w, later)) {
      StarvedForEver(nm, w, later);
    }
  }

  // ---------------------------------------------------------------------------------------------
  // One pull from beginning to end
  // ---------------------------------------------------------------------------------------------

  /** A live InProgress record with one entry. */
  predicate Lone(p: PrePullImage) {
    p.finalizer && !p.deleting && p.phase.InProgress? && |p.nodeStatus| == 1
  }

  /** A pass over a single entry. */
  lemma SinglePass(nm: Namer, w: World, key: Key, env: Env)
    requires key in w.ppis && |w.ppis[key].nodeStatus| == 1
    ensures PassOver(nm, w, key, env)
         == Handle(nm, key, w.ppis[key], Begin(w.limiter, w.store, w.metrics, w.ppis[key].nodeStatus), 0, At(env.weather, 0))
  {
    var s0 := Begin(w.limiter, w.store, w.metrics, w.ppis[key].nodeStatus);
    assert After(nm, key, w.ppis[key], s0, env.weather, 0) == s0;
  }

  /** A job that is in the store already is adopted as it is; otherwise a new one is made. */
  lemma VisitStarts(nm: Namer, w: World, key: Key)
    requires w.limiter.Valid() && w.limiter == w.limiter.Fresh()
    requires key in w.ppis && Lone(w.ppis[key]) && w.ppis[key].nodeStatus[0].status.Pending?
    requires var name := nm(key.name, w.ppis[key].nodeStatus[0].node);
      name in w.store.jobs ==> !w.store.jobs[name].tie.Loose?
    ensures var p, v := w.ppis[key], Reconcile(nm, w, key, FAIR).world;
            var e := p.nodeStatus[0];
            var name := nm(key.name, e.node);
            && v.limiter == w.limiter.Acquire(e.node)
            && v.store == w.store.Put(name, Job(key, p.image, e.node, 0, 0, 0, 0, Bound))
            && key in v.ppis && v.ppis == w.ppis[key := v.ppis[key]] && Lone(v.ppis[key]) && v.ppis[key].image == p.image
            && v.ppis[key].nodeStatus[0].node == e.node
            && v.ppis[key].nodeStatus[0].status.Pulling? && v.ppis[key].nodeStatus[0].jobName == name
  {
    SinglePass(nm, w, key, FAIR);
  }

  lemma VisitSucceeds(nm: Namer, w: World, key: Key)
    requires key in w.ppis && Lone(w.ppis[key]) && w.ppis[key].nodeStatus[0].status.Pulling?
    requires StatusOf(w.store, w.ppis[key].nodeStatus[0].jobName).JobSucceeded?
    ensures var p, v := w.ppis[key], Reconcile(nm, w, key, FAIR).world;
            var e := p.nodeStatus[0];
            && v.limiter == w.limiter.Release(e.node) && v.store == w.store
            && key in v.ppis && v.ppis == w.ppis[key := v.ppis[key]] && v.ppis[key].image == p.image
            && v.ppis[key].finalizer && !v.ppis[key].deleting
            && v.ppis[key].phase.PhaseCompleted? && v.ppis[key].completionTime == Some(0)
            && v.ppis[key].nodeStatus == [e.(status := Completed)]
  {
    SinglePass(nm, w, key, FAIR);
  }

  function DoneJob(key: Key, image: string, node: string): Job {
    Job(key, image, node, 0, 1, 0, 0, Bound)
  }

  /** What one finished pull leaves: its record, its job, and a limiter as good as new. */
  predicate HasPulled(w: World, l: Limiter, key: Key, image: string, node: string, name: string) {
    && w.limiter == l && w.ppis.Keys == {key}
    && w.ppis[key].finalizer && !w.ppis[key].deleting
    && w.ppis[key].phase.PhaseCompleted? && w.ppis[key].completionTime == Some(0)
    && |w.ppis[key].nodeStatus| == 1 && w.ppis[key].nodeStatus[0].status.Completed?
    && w.store == JobStore(map[name := DoneJob(key, image, node)], {(image, node)})
  }

  /** One pull from submission to success, on a quiet operator. */
  lemma PullsOnce(nm: Namer, maxPulls: int, maxPerNode: int, key: Key, image: string, node: string)
    returns (steps: seq<Step>)
    ensures FlawlessRun(steps)
    ensures HasPulled(Run(nm, Start(maxPulls, maxPerNode), steps), NewLimiter(maxPulls, maxPerNode),
                      key, image, node, nm(key.name, node))
  {
    hide Run;
    hide Reconcile;
    var w0, name := Start(maxPulls, maxPerNode), nm(key.name, node);
    RunOfNothing(nm, w0);
    steps := Prepares(nm, w0, [], key, image, [node]);
    var w1 := Run(nm, w0, steps);
    VisitStarts(nm, w1, key);
    OneMoreStep(nm, w0, steps, Visit(key, FAIR));
    steps := steps + [Visit(key, FAIR)];
    var report := Outside(Report(name, 0, 1, 0));
    OneMoreStep(nm, w0, steps, report);
    steps := steps + [report];
    VisitSucceeds(nm, Run(nm, w0, steps), key);
    OneMoreStep(nm, w0, steps, Visit(key, FAIR));
    steps := steps + [Visit(key, FAIR)];
    ReleaseUndoesAcquire(w0.limiter, node);
  }

  /** From such a state, a PrePullImage whose only node gets the name of the finished job is Completed at once. */
  lemma AdoptsAndSucceeds(nm: Namer, w0: World, before: seq<Step>, key: Key, image: string, node: string)
    returns (steps: seq<Step>)
    requires var w, name := Run(nm, w0, before), nm(key.name, node);
      && w.limiter.Valid() && w.limiter == w.limiter.Fresh() && key !in w.ppis
      && name in w.store.jobs && w.store.jobs[name].succeeded > 0 && !w.store.jobs[name].tie.Loose?
    ensures |before| <= |steps| && steps[..|before|] == before && FlawlessRun(steps[|before|..])
    ensures var w, v := Run(nm, w0, before), Run(nm, w0, steps);
            && v.store == w.store && key in v.ppis && v.ppis[key].image == image
            && |v.ppis[key].nodeStatus| == 1 && v.ppis[key].nodeStatus[0].node == node
            && v.ppis[key].nodeStatus[0].status.Completed?
  {
    hide Run;
    hide Reconcile;
    var w := Run(nm, w0, before);
    steps := Prepares(nm, w0, before, key, image, [node]);
    VisitStarts(nm, Run(nm, w0, steps), key);
    OneMoreStep(nm, w0, steps, Visit(key, FAIR));
    steps := steps + [Visit(key, FAIR)];
    assert Run(nm, w0, steps).store == w.store;
    VisitSucceeds(nm, Run(nm, w0, steps), key);
    OneMoreStep(nm, w0, steps, Visit(key, FAIR));
    steps := steps + [Visit(key, FAIR)];
    var visit := Visit(key, FAIR);
    assert steps[|before|..] == [Submit(key, image, [node], 0), visit, visit, visit, visit];
  }

  /** A lost wake-up: a flawless run, and then a reconcile at age exactly the time to live, which returns without error,
      changes nothing and asks for no other. */
  lemma WakeUpIsLost(nm: Namer, maxPulls: int, maxPerNode: int, key: Key, image: string, node: string)
    returns (steps: seq<Step>)
    ensures FlawlessRun(steps)
    ensures var w, env := Run(nm, Start(maxPulls, maxPerNode), steps), FAIR.(now := COMPLETED_TTL);
            && key in w.ppis && FlawlessEnv(env)
            && Reconcile(nm, w, key, env) == Reply(w, RequeueAfter(0)) && !WokenAgain(w, key, Reconcile(nm, w, key, env))
  {
    hide Run;
    steps := PullsOnce(nm, maxPulls, maxPerNode, key, image, node);
  }

  // ---------------------------------------------------------------------------------------------
  // Over the limit
  // ---------------------------------------------------------------------------------------------

  /** With all slots free, another PrePullImage starts a job of its own. */
  lemma StartsAnother(nm: Namer, w0: World, before: seq<Step>, key: Key, image: string, node: string)
    returns (steps: seq<Step>)
    requires var w := Run(nm, w0, before);
      && w.limiter.Valid() && w.limiter == w.limiter.Fresh() && key !in w.ppis && nm(key.name, node) !in w.store.jobs
    ensures |before| <= |steps| && steps[..|before|] == before && FlawlessRun(steps[|before|..])
    ensures var w, v := Run(nm, w0, before), Run(nm, w0, steps);
            && v.limiter == w.limiter.Acquire(node)
            && v.store == w.store.Put(nm(key.name, node), Job(key, image, node, 0, 0, 0, 0, Bound))
            && key in v.ppis && v.ppis == w.ppis[key := v.ppis[key]]
            && |v.ppis[key].nodeStatus| == 1 && v.ppis[key].nodeStatus[0].status.Pulling?
  {
    hide Run;
    hide Reconcile;
    steps := Prepares(nm, w0, before, key, image, [node]);
    VisitStarts(nm, Run(nm, w0, steps), key);
    OneMoreStep(nm, w0, steps, Visit(key, FAIR));
    steps := steps + [Visit(key, FAIR)];
    var visit := Visit(key, FAIR);
    assert steps[|before|..] == [Submit(key, image, [node], 0), visit, visit, visit];
  }

  /** What the second pull of each of the following runs makes of the first. */
  lemma TwoJobs(w: World, n1: string, n2: string)
    requires n1 != n2 && n1 in w.store.jobs && n2 in w.store.jobs
    requires Unfinished(w.store.jobs[n1]) && Unfinished(w.store.jobs[n2])
    ensures |UnfinishedOn(w, Whole)| >= 2
  {
    SubsetSize({n1, n2}, UnfinishedOn(w, Whole));
  }

  /** One pull has started, on a quiet operator. */
  lemma OneStarts(nm: Namer, maxPerNode: int, key: Key, image: string, node: string) returns (steps: seq<Step>)
    ensures FlawlessRun(steps)
    ensures var w := Run(nm, Start(1, maxPerNode), steps);
            && w.limiter == NewLimiter(1, maxPerNode).Acquire(node) && w.ppis.Keys == {key} && Lone(w.ppis[key])
            && w.ppis[key].nodeStatus[0].node == node && w.ppis[key].nodeStatus[0].status.Pulling?
            && w.ppis[key].nodeStatus[0].jobName == nm(key.name, node)
            && w.store == JobStore(map[nm(key.name, node) := Job(key, image, node, 0, 0, 0, 0, Bound)], {})
  {
    hide Run;
    hide Reconcile;
    var w0 := Start(1, maxPerNode);
    RunOfNothing(nm, w0);
    steps := Prepares(nm, w0, [], key, image, [node]);
    VisitStarts(nm, Run(nm, w0, steps), key);
    OneMoreStep(nm, w0, steps, Visit(key, FAIR));
    steps := steps + [Visit(key, FAIR)];
  }

  lemma FinalizerLeavesRunningJob(nm: Namer, w: World, l: Limiter, key: Key, name: string, job: Job)
    requires key in w.ppis && w.ppis.Keys == {key} && w.ppis[key].deleting && w.ppis[key].finalizer
    requires |w.ppis[key].nodeStatus| == 1 && w.ppis[key].nodeStatus[0].status.Pulling?
    requires l.Valid() && w.limiter == l.Acquire(w.ppis[key].nodeStatus[0].node)
    requires job.owner == key && w.store == JobStore(map[name := job], {})
    ensures var v := Reconcile(nm, w, key, FAIR.(kept := {name})).world;
            && v.ppis == map[] && v.limiter == l && v.store == JobStore(map[name := job.(tie := Orphaned)], {})
  {
    var es := w.ppis[key].nodeStatus;
    assert es[..0] == [];
    ReleaseUndoesAcquire(l, es[0].node);
    assert ReleaseAll(w.limiter, es) == l;
    hide Tally;
    hide PullingNodes;
    hide ReleaseAll;
    var store := w.store.Cleanup(key.name, {name});
    assert store.jobs == map[name := job];
    assert store.Orphan(key).jobs == map[name := job.(tie := Orphaned)];
    assert w.ppis - {key} == map[];
  }

  /** One failed cleanup puts two jobs on a cluster that allows one. */
  lemma LeftoverRunsOver(nm: Namer, maxPerNode: int, k1: Key, n1: string, k2: Key, n2: string, image: string)
    returns (steps: seq<Step>)
    requires nm(k1.name, n1) != nm(k2.name, n2)
    ensures forall i :: 0 <= i < |steps| ==> FlawlessButCleanup(steps[i])
    ensures |UnfinishedOn(Run(nm, Start(1, maxPerNode), steps), Whole)| > NewLimiter(1, maxPerNode).maxPulls
  {
    hide Run;
    var w0, name := Start(1, maxPerNode), nm(k1.name, n1);
    var first := OneStarts(nm, maxPerNode, k1, image, n1);
    var w1 := Run(nm, w0, first);
    OneMoreStep(nm, w0, first, RequestDelete(k1));
    var second := first + [RequestDelete(k1)];
    var w2 := Run(nm, w0, second);
    assert w2.ppis == w1.ppis[k1 := w1.ppis[k1].(deleting := true)];
    FinalizerLeavesRunningJob(nm, w2, NewLimiter(1, maxPerNode), k1, name, Job(k1, image, n1, 0, 0, 0, 0, Bound));
    var clumsy := FAIR.(kept := {name});
    OneMoreStep(nm, w0, second, Visit(k1, clumsy));
    hide Reconcile;
    var before := second + [Visit(k1, clumsy)];
    steps := StartsAnother(nm, w0, before, k2, image, n2);
    TwoJobs(Run(nm, w0, steps), name, nm(k2.name, n2));
    assert steps == before + steps[|before|..];
    forall i | 0 <= i < |steps| ensures FlawlessButCleanup(steps[i]) {
      if i < |first| {
        assert Flawless(first[i]);
      } else if i >= |before| {
        assert Flawless(steps[|before|..][i - |before|]);
      }
    }
  }

  const TIMEOUT := FAIR.(weather := [Weather([], TimedOut, false, false)])

  lemma TimeoutLeavesJob(nm: Namer, w: World, key: Key)
    requires w.limiter.Valid() && w.limiter == w.limiter.Fresh() && key in w.ppis && Lone(w.ppis[key])
    requires w.ppis[key].nodeStatus[0].status.Pending? && nm(key.name, w.ppis[key].nodeStatus[0].node) !in w.store.jobs
    ensures var v, e := Reconcile(nm, w, key, TIMEOUT).world, w.ppis[key].nodeStatus[0];
            && v.limiter == w.limiter && v.ppis.Keys == w.ppis.Keys
            && v.store == w.store.Put(nm(key.name, e.node), Job(key, w.ppis[key].image, e.node, 0, 0, 0, 0, Loose))
  {
    SinglePass(nm, w, key, TIMEOUT);
    assert TIMEOUT.weather[0] == At(TIMEOUT.weather, 0);
  }

  /** One timed-out creation, on a quiet operator. */
  lemma OneTimesOut(nm: Namer, maxPerNode: int, key: Key, image: string, node: string) returns (first: seq<Step>)
    ensures FlawlessRun(first)
    ensures var w := Run(nm, Start(1, maxPerNode), first + [Visit(key, TIMEOUT)]);
            && w.limiter == NewLimiter(1, maxPerNode) && w.ppis.Keys == {key}
            && w.store == JobStore(map[nm(key.name, node) := Job(key, image, node, 0, 0, 0, 0, Loose)], {})
  {
    hide Run;
    var w0 := Start(1, maxPerNode);
    RunOfNothing(nm, w0);
    first := Prepares(nm, w0, [], key, image, [node]);
    TimeoutLeavesJob(nm, Run(nm, w0, first), key);
    OneMoreStep(nm, w0, first, Visit(key, TIMEOUT));
    hide Reconcile;
  }

  /** So does one creation that reports an error although the job was made. */
  lemma TimeoutRunsOver(nm: Namer, maxPerNode: int, k1: Key, n1: string, k2: Key, n2: string, image: string)
    returns (first: seq<Step>, rest: seq<Step>)
    requires nm(k1.name, n1) != nm(k2.name, n2) && k1 != k2
    ensures FlawlessRun(first) && FlawlessRun(rest)
    ensures |UnfinishedOn(Run(nm, Start(1, maxPerNode), first + [Visit(k1, TIMEOUT)] + rest), Whole)|
          > NewLimiter(1, maxPerNode).maxPulls
  {
    hide Run;
    hide Flawless;
    first := OneTimesOut(nm, maxPerNode, k1, image, n1);
    var w0, before := Start(1, maxPerNode), first + [Visit(k1, TIMEOUT)];
    var steps := StartsAnother(nm, w0, before, k2, image, n2);
    rest := steps[|before|..];
    assert steps == before + rest;
    TwoJobs(Run(nm, w0, steps), nm(k1.name, n1), nm(k2.name, n2));
  }

  lemma StopIsLost(nm: Namer, w: World, l: Limiter, key: Key)
    requires l.Valid() && key in w.ppis && Lone(w.ppis[key]) && w.ppis[key].nodeStatus[0].status.Pulling?
    requires w.limiter == l.Acquire(w.ppis[key].nodeStatus[0].node)
    requires StatusOf(w.store, w.ppis[key].nodeStatus[0].jobName).JobSucceeded?
    ensures var v := Reconcile(nm, w, key, LOSSY).world;
            v.limiter == l && v.ppis == w.ppis && v.store.jobs.Keys == w.store.jobs.Keys
  {
    SinglePass(nm, w, key, LOSSY);
    ReleaseUndoesAcquire(l, w.ppis[key].nodeStatus[0].node);
  }

  lemma OnePulling(es: seq<NodeStatus>)
    requires |es| == 1 && es[0].status.Pulling?
    ensures Tally(es, Using(Whole)) == 1
  {
    assert es[..0] == [];
  }

  lemma TwoPulling(ppis: map<Key, PrePullImage>, k1: Key, k2: Key)
    requires k1 != k2 && k1 in ppis && k2 in ppis && |ppis[k1].nodeStatus| == |ppis[k2].nodeStatus| == 1
    requires ppis[k1].nodeStatus[0].status.Pulling? && ppis[k2].nodeStatus[0].status.Pulling?
    ensures Everywhere(ppis, Using(Whole)) >= 2
  {
    var rest := ppis - {k1};
    EverywhereDrop(ppis, k1, Using(Whole));
    UsingEverywhere(rest, Whole);
    OnePulling(ppis[k1].nodeStatus);
    OnePulling(rest[k2].nodeStatus);
  }

  /** And one lost record of a stop puts two Pulling entries on it. */
  lemma LostStopPullsOver(nm: Namer, maxPerNode: int, k1: Key, n1: string, k2: Key, n2: string, image: string)
    returns (first: seq<Step>, rest: seq<Step>)
    requires nm(k1.name, n1) != nm(k2.name, n2) && k1 != k2
    ensures FlawlessRun(first) && FlawlessRun(rest)
    ensures Pulls(Run(nm, Start(1, maxPerNode), first + [Visit(k1, LOSSY)] + rest), Whole) > NewLimiter(1, maxPerNode).maxPulls
  {
    hide Run;
    hide Reconcile;
    var w0, report := Start(1, maxPerNode), Outside(Report(nm(k1.name, n1), 0, 1, 0));
    first := OneStarts(nm, maxPerNode, k1, image, n1);
    OneMoreStep(nm, w0, first, report);
    first := first + [report];
    StopIsLost(nm, Run(nm, w0, first), NewLimiter(1, maxPerNode), k1);
    OneMoreStep(nm, w0, first, Visit(k1, LOSSY));
    var before := first + [Visit(k1, LOSSY)];
    var steps := StartsAnother(nm, w0, before, k2, image, n2);
    rest := steps[|before|..];
    assert steps == before + rest;
    TwoPulling(Run(nm, w0, steps).ppis, k1, k2);
    assert Pulls(Run(nm, w0, steps), Whole) >= 2;
    assert NewLimiter(1, maxPerNode).maxPulls == 1;
  }

  // ---------------------------------------------------------------------------------------------
  // Clashing names
  // ---------------------------------------------------------------------------------------------

  /** Freedom from clashes is needed: whenever pulls of two PrePullImages that differ in image or node get one job
      name, there is a flawless run that records the second as Completed although it never happened. */
  lemma ClashBreaksSoundness(nm: Namer, maxPulls: int, maxPerNode: int,
                             k1: Key, i1: string, n1: string, k2: Key, i2: string, n2: string)
    returns (steps: seq<Step>)
    requires k1 != k2 && nm(k1.name, n1) == nm(k2.name, n2) && (i1, n1) != (i2, n2)
    ensures FlawlessRun(steps)
    ensures var w := Run(nm, Start(maxPulls, maxPerNode), steps);
            && k2 in w.ppis && w.ppis[k2].image == i2 && |w.ppis[k2].nodeStatus| == 1
            && w.ppis[k2].nodeStatus[0].node == n2 && w.ppis[k2].nodeStatus[0].status.Completed?
            && (i2, n2) !in w.store.pulled
  {
    hide Run;
    hide Flawless;
    var w0 := Start(maxPulls, maxPerNode);
    var before := PullsOnce(nm, maxPulls, maxPerNode, k1, i1, n1);
    steps := AdoptsAndSucceeds(nm, w0, before, k2, i2, n2);
    assert steps == steps[..|before|] + steps[|before|..];
  }

  /** Nothing fails but the cleanup of deleted PrePullImages. */
  predicate FlawlessButCleanup(step: Step) {
    match step
    case Visit(_, env) => FlawlessEnv(env.(kept := {}))
    case _ => Flawless(step)
  }

  lemma FinalizerLeavesJob(nm: Namer, w: World, l: Limiter, key: Key, image: string, node: string, name: string)
    requires key in w.ppis && w.ppis[key].deleting
    requires HasPulled(w.(ppis := w.ppis[key := w.ppis[key].(deleting := false)]), l, key, image, node, name)
    ensures var v := Reconcile(nm, w, key, FAIR.(kept := {name})).world;
            && v.ppis == map[] && v.limiter == w.limiter
            && v.store == JobStore(map[name := DoneJob(key, image, node).(tie := Orphaned)], {(image, node)})
  {
    NothingToRelease(w.limiter, w.ppis[key].nodeStatus);
    hide Tally;
    hide PullingNodes;
    hide ReleaseAll;
    var store := w.store.Cleanup(key.name, {name});
    assert store.jobs == map[name := DoneJob(key, image, node)];
    assert store.Orphan(key).jobs == map[name := DoneJob(key, image, node).(tie := Orphaned)];
    assert w.ppis - {key} == map[];
  }

  /** That cleanup succeeds is needed, too, names being as good as they may: a PrePullImage that is deleted, with its
      job left behind, and submitted again for another image is recorded as Completed although that image was never
      pulled, in a run in which nothing else fails. */
  lemma LeftoverBreaksSoundness(nm: Namer, maxPulls: int, maxPerNode: int, key: Key, i1: string, i2: string, node: string)
    returns (steps: seq<Step>)
    requires i1 != i2
    ensures forall i :: 0 <= i < |steps| ==> FlawlessButCleanup(steps[i])
    ensures var w := Run(nm, Start(maxPulls, maxPerNode), steps);
            && key in w.ppis && w.ppis[key].image == i2 && |w.ppis[key].nodeStatus| == 1
            && w.ppis[key].nodeStatus[0].node == node && w.ppis[key].nodeStatus[0].status.Completed?
            && (i2, node) !in w.store.pulled
  {
    hide Run;
    var w0, name := Start(maxPulls, maxPerNode), nm(key.name, node);
    var first := PullsOnce(nm, maxPulls, maxPerNode, key, i1, node);
    var w1 := Run(nm, w0, first);
    OneMoreStep(nm, w0, first, RequestDelete(key));
    var second := first + [RequestDelete(key)];
    var w2 := Run(nm, w0, second);
    assert w2.ppis[key := w2.ppis[key].(deleting := false)] == w1.ppis;
    FinalizerLeavesJob(nm, w2, w1.limiter, key, i1, node, name);
    var clumsy := FAIR.(kept := {name});
    OneMoreStep(nm, w0, second, Visit(key, clumsy));
    hide Reconcile;
    var before := second + [Visit(key, clumsy)];
    steps := AdoptsAndSucceeds(nm, w0, before, key, i2, node);
    assert steps == before + steps[|before|..];
    forall i | 0 <= i < |steps| ensures FlawlessButCleanup(steps[i]) {
      if i < |first| {
        assert Flawless(first[i]);
      } else if i >= |before| {
        assert Flawless(steps[|before|..][i - |before|]);
      }
    }
  }

  // ---------------------------------------------------------------------------------------------
  // A clash within one PrePullImage
  // ---------------------------------------------------------------------------------------------

  /** A live record with two entries for different nodes, which share a job name. */
  predicate Pair(nm: Namer, key: Key, p: PrePullImage) {
    && p.finalizer && !p.deleting && |p.nodeStatus| == 2
    && p.nodeStatus[0].node != p.nodeStatus[1].node
    && nm(key.name, p.nodeStatus[0].node) == nm(key.name, p.nodeStatus[1].node)
  }

  lemma DoublePass(nm: Namer, w: World, key: Key, env: Env)
    requires key in w.ppis && |w.ppis[key].nodeStatus| == 2
    ensures var p := w.ppis[key];
            var s1 := Handle(nm, key, p, Begin(w.limiter, w.store, w.metrics, p.nodeStatus), 0, At(env.weather, 0));
            PassOver(nm, w, key, env) == Handle(nm, key, p, s1, 1, At(env.weather, 1))
  {
    var s0 := Begin(w.limiter, w.store, w.metrics, w.ppis[key].nodeStatus);
    assert After(nm, key, w.ppis[key], s0, env.weather, 0) == s0;
    assert After(nm, key, w.ppis[key], s0, env.weather, 1) == Handle(nm, key, w.ppis[key], s0, 0, At(env.weather, 0));
  }

  /** The first entry is pulling under the shared name; the second waits for a slot, or has adopted the job. */
  predicate Halfway(w: World, l: Limiter, key: Key, name: string)
    requires key in w.ppis && |w.ppis[key].nodeStatus| == 2
  {
    var p := w.ppis[key];
    var e, f := p.nodeStatus[0], p.nodeStatus[1];
    && p.phase.InProgress? && e.status.Pulling? && e.jobName == name
    && ((f.status.Pending? && w.limiter == l.Acquire(e.node))
        || (f.status.Pulling? && f.jobName == name && w.limiter == l.Acquire(e.node).Acquire(f.node)))
  }

  /** Both entries are Pending. The first starts, and the second too if there is a slot for it. */
  lemma PairStarts(nm: Namer, w: World, key: Key)
    requires w.limiter.Valid() && w.limiter == w.limiter.Fresh()
    requires key in w.ppis && Pair(nm, key, w.ppis[key]) && w.ppis[key].phase.InProgress?
    requires w.ppis[key].nodeStatus[0].status.Pending? && w.ppis[key].nodeStatus[1].status.Pending?
    requires nm(key.name, w.ppis[key].nodeStatus[0].node) !in w.store.jobs
    ensures var p, v := w.ppis[key], Reconcile(nm, w, key, FAIR).world;
            var name := nm(key.name, p.nodeStatus[0].node);
            && v.store == w.store.Put(name, Job(key, p.image, p.nodeStatus[0].node, 0, 0, 0, 0, Bound))
            && key in v.ppis && v.ppis[key].image == p.image && Pair(nm, key, v.ppis[key])
            && v.ppis[key].nodeStatus[1].node == p.nodeStatus[1].node
            && Halfway(v, w.limiter, key, name)
  {
    DoublePass(nm, w, key, FAIR);
  }

  /** The job has succeeded. The first entry is Completed, and the second if it had adopted the job; otherwise it
      adopts it now, in the first entry's slot. */
  lemma PairSucceeds(nm: Namer, w: World, l: Limiter, key: Key, name: string)
    requires l.Valid() && l == l.Fresh()
    requires key in w.ppis && Pair(nm, key, w.ppis[key]) && name == nm(key.name, w.ppis[key].nodeStatus[0].node)
    requires Halfway(w, l, key, name) && StatusOf(w.store, name).JobSucceeded? && !w.store.jobs[name].tie.Loose?
    ensures var p, v := w.ppis[key], Reconcile(nm, w, key, FAIR).world;
            && v.store == w.store && key in v.ppis && v.ppis[key].image == p.image && Pair(nm, key, v.ppis[key])
            && v.ppis[key].nodeStatus[1].node == p.nodeStatus[1].node
            && var f := v.ppis[key].nodeStatus[1];
               if f.status.Pulling? then
                 f.jobName == name && v.ppis[key].phase.InProgress? && v.ppis[key].nodeStatus[0].status.Completed?
               else f.status.Completed? && v.ppis[key].phase.PhaseCompleted? && v.ppis[key].completionTime == Some(0)
  {
    DoublePass(nm, w, key, FAIR);
    ReleaseUndoesAcquire(l, w.ppis[key].nodeStatus[0].node);
  }

  lemma PairFinishes(nm: Namer, w: World, key: Key, name: string)
    requires key in w.ppis && Pair(nm, key, w.ppis[key]) && StatusOf(w.store, name).JobSucceeded?
    requires var p, f := w.ppis[key], w.ppis[key].nodeStatus[1];
      if f.status.Pulling? then f.jobName == name && p.phase.InProgress? && p.nodeStatus[0].status.Completed?
      else f.status.Completed? && p.phase.PhaseCompleted? && p.completionTime == Some(0)
    ensures var p, v := w.ppis[key], Reconcile(nm, w, key, FAIR).world;
            && v.store == w.store && key in v.ppis && v.ppis[key].image == p.image && |v.ppis[key].nodeStatus| == 2
            && v.ppis[key].nodeStatus[1].node == p.nodeStatus[1].node && v.ppis[key].nodeStatus[1].status.Completed?
  {
    DoublePass(nm, w, key, FAIR);
  }

  /** The same within one PrePullImage: if two of its nodes get one job name, some flawless run records the second
      as Completed on the strength of the first one's job. */
  lemma ClashWithinOne(nm: Namer, maxPulls: int, maxPerNode: int, key: Key, image: string, n1: string, n2: string)
    returns (steps: seq<Step>)
    requires nm(key.name, n1) == nm(key.name, n2) && n1 != n2
    ensures FlawlessRun(steps)
    ensures var w := Run(nm, Start(maxPulls, maxPerNode), steps);
            && key in w.ppis && w.ppis[key].image == image && |w.ppis[key].nodeStatus| == 2
            && w.ppis[key].nodeStatus[1].node == n2 && w.ppis[key].nodeStatus[1].status.Completed?
            && (image, n2) !in w.store.pulled
  {
    hide Run;
    hide Reconcile;
    var w0, name := Start(maxPulls, maxPerNode), nm(key.name, n1);
    RunOfNothing(nm, w0);
    steps := Prepares(nm, w0, [], key, image, [n1, n2]);
    PairStarts(nm, Run(nm, w0, steps), key);
    OneMoreStep(nm, w0, steps, Visit(key, FAIR));
    steps := steps + [Visit(key, FAIR)];
    var report := Outside(Report(name, 0, 1, 0));
    OneMoreStep(nm, w0, steps, report);
    steps := steps + [report];
    PairSucceeds(nm, Run(nm, w0, steps), w0.limiter, key, name);
    OneMoreStep(nm, w0, steps, Visit(key, FAIR));
    steps := steps + [Visit(key, FAIR)];
    PairFinishes(nm, Run(nm, w0, steps), key, name);
    OneMoreStep(nm, w0, steps, Visit(key, FAIR));
    steps := steps + [Visit(key, FAIR)];
  }
}
