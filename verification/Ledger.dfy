/** The limiter's counters against the Pulling entries they stand for, for the cluster and every node at
    once, over every run: lost writes, failed calls and restarts included. */
module Ledger {
  import opened RateLimiting
  import opened Cluster
  import opened Pass
  import opened System
  import opened Lifecycle

  // ---------------------------------------------------------------------------------------------
  // One pass
  // ---------------------------------------------------------------------------------------------

  /** Units held beyond what the local copy's Pulling entries account for. */
  function Excess(s: State, slot: Slot): int {
    s.limiter.Held(slot) - Tally(s.entries, Using(slot))
  }

  function Positive(x: int): nat {
    if x > 0 then x else 0
  }

  /** From state s to state t of a pass, the Pulling entries change by the starts less the stops, and the
      excess stays what it was unless it was a shortfall, which the floors in Release may make smaller. */
  predicate Balanced(s: State, t: State, slot: Slot) {
    && Tally(t.entries, Using(slot)) - Tally(s.entries, Using(slot))
       == (Share(t.starts, slot) - Share(s.starts, slot)) - (Share(t.stops, slot) - Share(s.stops, slot))
    && Share(s.starts, slot) <= Share(t.starts, slot)
    && Share(s.stops, slot) <= Share(t.stops, slot)
    && Excess(s, slot) <= Excess(t, slot) <= Positive(Excess(s, slot))
  }

  lemma HandleBalances(nm: Namer, key: Key, p: PrePullImage, s: State, i: nat, w: Weather, slot: Slot)
    requires i < |s.entries| && s.limiter.Valid()
    ensures Balanced(s, Handle(nm, key, p, s, i, w), slot)
  {
    var e, t := s.entries[i], Handle(nm, key, p, s, i, w);
    TallyUpdate(s.entries, i, t.entries[i], Using(slot));
    AcquireHolds(s.limiter, e.node, slot);
    ReleaseHolds(s.limiter, e.node, slot);
    HeldWithinLimit(s.limiter, slot);
    TallyBounds(s.entries, Using(slot));
  }

  lemma BalancedOnwards(r: State, s: State, t: State, slot: Slot)
    requires Balanced(r, s, slot) && Balanced(s, t, slot)
    ensures Balanced(r, t, slot)
  {
  }

  lemma {:induction false} PassBalances(nm: Namer, key: Key, p: PrePullImage, s0: State, weather: seq<Weather>, n: nat, slot: Slot)
    requires n <= |s0.entries| && s0.limiter.Valid()
    ensures Balanced(s0, After(nm, key, p, s0, weather, n), slot)
    decreases n
  {
    hide Handle;
    if n > 0 {
      PassBalances(nm, key, p, s0, weather, n - 1, slot);
      PassKeepsValid(nm, key, p, s0, weather, n - 1);
      var s := After(nm, key, p, s0, weather, n - 1);
      HandleBalances(nm, key, p, s, n - 1, At(weather, n - 1), slot);
      BalancedOnwards(s0, s, After(nm, key, p, s0, weather, n), slot);
    }
  }

  /** Exact slot conservation: if the limiter holds at least the units of the PrePullImage's own Pulling
      entries, a pass changes every counter by exactly the change in those entries, whatever the world
      answers and whether or not the result is written. */
  lemma PassConservesSlots(nm: Namer, w: World, key: Key, env: Env, slot: Slot)
    requires key in w.ppis && w.limiter.Valid()
    requires Tally(w.ppis[key].nodeStatus, Using(slot)) <= w.limiter.Held(slot)
    ensures var s := PassOver(nm, w, key, env);
            && s.limiter == HandleInProgress(nm, w, key, env).world.limiter
            && s.limiter.Held(slot) - w.limiter.Held(slot)
               == Tally(s.entries, Using(slot)) - Tally(w.ppis[key].nodeStatus, Using(slot))
  {
    var p := w.ppis[key];
    PassBalances(nm, key, p, Begin(w.limiter, w.store, w.metrics, p.nodeStatus), env.weather, |p.nodeStatus|, slot);
  }

  lemma {:induction false} PullingNodesShare(es: seq<NodeStatus>, slot: Slot)
    ensures Share(PullingNodes(es), slot) == Tally(es, Using(slot))
  {
    if es != [] {
      PullingNodesShare(es[..|es| - 1], slot);
    }
  }

  /** What the finalizer does: every Pulling entry gives back its units, down to zero at most. */
  lemma {:induction false} FinalizerBalances(l: Limiter, es: seq<NodeStatus>, slot: Slot)
    requires l.Valid()
    ensures var left := l.Held(slot) - Tally(es, Using(slot)); left <= ReleaseAll(l, es).Held(slot) <= Positive(left)
  {
    HeldWithinLimit(l, slot);
    if es != [] {
      var before, e := es[..|es| - 1], es[|es| - 1];
      FinalizerBalances(l, before, slot);
      ReleaseAllValid(l, before);
      ReleaseHolds(ReleaseAll(l, before), e.node, slot);
      TallyBounds(before, Using(slot));
    }
  }

  // ---------------------------------------------------------------------------------------------
  // Runs
  // ---------------------------------------------------------------------------------------------

  /** Pulling entries, over all PrePullImages, that take the slot. */
  ghost function Pulls(w: World, slot: Slot): int {
    Everywhere(w.ppis, Using(slot))
  }

  /** The counter of a slot exceeds the Pulling entries by no more than the starts whose record was lost
      since the last restart, and falls short of them by no more than one limit per restart and the stops
      whose record was lost. */
  ghost predicate InLedger(w: World, slot: Slot) {
    && w.limiter.Held(slot) <= Pulls(w, slot) + Share(w.past.lostStarts, slot)
    && Pulls(w, slot) <= w.limiter.Held(slot) + w.past.restarts * w.limiter.Limit(slot) + Share(w.past.lostStops, slot)
  }

  lemma InProgressInLedger(nm: Namer, w: World, key: Key, env: Env, slot: Slot)
    requires w.limiter.Valid() && key in w.ppis && InLedger(w, slot)
    ensures InLedger(HandleInProgress(nm, w, key, env).world, slot)
  {
    var p, s := w.ppis[key], PassOver(nm, w, key, env);
    var s0 := Begin(w.limiter, w.store, w.metrics, p.nodeStatus);
    PassBalances(nm, key, p, s0, env.weather, |p.nodeStatus|, slot);
    PassKeepsValid(nm, key, p, s0, env.weather, |p.nodeStatus|);
    UsingEverywhere(w.ppis, slot);
    EverywherePut(w.ppis, key, Concluded(p, s, env.now), Using(slot));
    assert Share(s0.starts, slot) == Share(s0.stops, slot) == 0;
  }

  lemma DeletionInLedger(w: World, key: Key, env: Env, slot: Slot)
    requires w.limiter.Valid() && key in w.ppis && InLedger(w, slot)
    ensures InLedger(HandleDeletion(w, key, env).world, slot)
  {
    var p := w.ppis[key];
    if p.finalizer {
      FinalizerBalances(w.limiter, p.nodeStatus, slot);
      PullingNodesShare(p.nodeStatus, slot);
      ReleaseAllValid(w.limiter, p.nodeStatus);
      UsingEverywhere(w.ppis, slot);
      EverywhereDrop(w.ppis, key, Using(slot));
    }
  }

  lemma UnchangedEntries(ppis: map<Key, PrePullImage>, key: Key, q: PrePullImage, m: Measure)
    requires key in ppis && Tally(q.nodeStatus, m) == Tally(ppis[key].nodeStatus, m)
    ensures Everywhere(ppis[key := q], m) == Everywhere(ppis, m)
  {
    EverywherePut(ppis, key, q, m);
  }

  /** Objects without a finalizer have no entries. */
  predicate Deletable(ppis: map<Key, PrePullImage>, key: Key) {
    key in ppis ==> ppis[key].finalizer || ppis[key].nodeStatus == []
  }

  /** So deleting one takes nothing with it. */
  lemma DeleteTakesNothing(ppis: map<Key, PrePullImage>, key: Key, m: Measure)
    requires Deletable(ppis, key)
    ensures Everywhere(Delete(ppis, key), m) == Everywhere(ppis, m)
  {
    if key in ppis {
      if ppis[key].finalizer {
        UnchangedEntries(ppis, key, ppis[key].(deleting := true), m);
      } else {
        EverywhereDrop(ppis, key, m);
      }
    }
  }

  /** What a step needs to be in order. */
  predicate StepOk(nm: Namer, w: World, step: Step) {
    && w.limiter.Valid()
    && match step
       case Visit(k, _) => OkAt(nm, w, k)
       case Crash(k, _) => OkAt(nm, w, k)
       case RequestDelete(k) => Deletable(w.ppis, k)
       case _ => true
  }

  lemma AllOkSteps(nm: Namer, w: World, step: Step)
    requires AllOk(nm, w)
    ensures StepOk(nm, w, step)
  {
    match step
    case RequestDelete(k) => assert k in w.ppis ==> PpiOk(nm, k, w.ppis[k]);
    case _ =>
  }

  lemma ReconcileInLedger(nm: Namer, w: World, key: Key, env: Env, slot: Slot)
    requires OkAt(nm, w, key) && InLedger(w, slot)
    ensures InLedger(Reconcile(nm, w, key, env).world, slot)
  {
    if key in w.ppis {
      var p := w.ppis[key];
      assert PpiOk(nm, key, p);
      if p.deleting {
        DeletionInLedger(w, key, env, slot);
      } else if !p.finalizer {
        UnchangedEntries(w.ppis, key, p.(finalizer := true), Using(slot));
      } else if p.phase.InProgress? {
        InProgressInLedger(nm, w, key, env, slot);
      } else if Early(p.phase) {
        if Targets(p, env).Some? {
          InitialTallies(Targets(p, env).value, 0);
          UnchangedEntries(w.ppis, key, Initialised(p, Targets(p, env).value), Using(slot));
        }
      } else {
        DeleteTakesNothing(w.ppis, key, Using(slot));
      }
    }
  }

  /** The process ends in state w, or in the middle of a reconcile, in state u. */
  lemma RestartInLedger(w: World, u: World, slot: Slot)
    requires w.limiter.Valid() && InLedger(w, slot)
    requires u.ppis == w.ppis && u.limiter.Fresh() == w.limiter.Fresh()
    requires u.past.restarts == w.past.restarts && u.past.lostStops == w.past.lostStops
    ensures InLedger(Restarted(u), slot)
  {
    HeldWithinLimit(w.limiter, slot);
    UsingEverywhere(w.ppis, slot);
    assert (w.past.restarts + 1) * w.limiter.Limit(slot) == w.past.restarts * w.limiter.Limit(slot) + w.limiter.Limit(slot);
  }

  lemma StepInLedger(nm: Namer, w: World, step: Step, slot: Slot)
    requires StepOk(nm, w, step) && InLedger(w, slot)
    ensures InLedger(Apply(nm, w, step), slot)
  {
    match step
    case Submit(k, image, names, max) => EverywherePut(w.ppis, k, Submitted(image, names, max), Using(slot));
    case RequestDelete(k) => DeleteTakesNothing(w.ppis, k, Using(slot));
    case Visit(k, env) => ReconcileInLedger(nm, w, k, env, slot);
    case Outside(d) =>
    case Restart => RestartInLedger(w, w, slot);
    case Crash(k, env) =>
      FailedWriteKeeps(nm, w, k, env.(writeFails := true));
      var v := Reconcile(nm, w, k, env.(writeFails := true)).world;
      hide Reconcile;
      RestartInLedger(w, v.(past := Died(w.past, v.past)), slot);
  }

  /** The ledger holds for every slot in every reachable state of every run, with no assumption at all. */
  lemma {:induction false} RunsInLedger(nm: Namer, maxPulls: int, maxPerNode: int, steps: seq<Step>, slot: Slot)
    ensures InLedger(Run(nm, Start(maxPulls, maxPerNode), steps), slot)
  {
    if steps == [] {
    } else {
      var before := steps[..|steps| - 1];
      RunsInLedger(nm, maxPulls, maxPerNode, before, slot);
      RunsKeepAllOk(nm, maxPulls, maxPerNode, before);
      AllOkSteps(nm, Run(nm, Start(maxPulls, maxPerNode), before), steps[|steps| - 1]);
      StepInLedger(nm, Run(nm, Start(maxPulls, maxPerNode), before), steps[|steps| - 1], slot);
    }
  }

  // ---------------------------------------------------------------------------------------------
  // What it means
  // ---------------------------------------------------------------------------------------------

  /** Restart bound: after k restarts at most k + 1 limits' worth of entries are Pulling, on every node and
      in the cluster; lost stops add one each. */
  lemma RestartBound(nm: Namer, maxPulls: int, maxPerNode: int, steps: seq<Step>, slot: Slot)
    ensures var w := Run(nm, Start(maxPulls, maxPerNode), steps);
            Pulls(w, slot) <= (w.past.restarts + 1) * NewLimiter(maxPulls, maxPerNode).Limit(slot) + Share(w.past.lostStops, slot)
  {
    hide Run;
    RunsInLedger(nm, maxPulls, maxPerNode, steps, slot);
    RunsKeepAllOk(nm, maxPulls, maxPerNode, steps);
    var w := Run(nm, Start(maxPulls, maxPerNode), steps);
    HeldWithinLimit(w.limiter, slot);
    assert (w.past.restarts + 1) * w.limiter.Limit(slot) == w.past.restarts * w.limiter.Limit(slot) + w.limiter.Limit(slot);
  }

  // ---------------------------------------------------------------------------------------------
  // The exact law
  // ---------------------------------------------------------------------------------------------

  /** Without restarts and lost stops, a counter is the Pulling entries it stands for and the lost starts. */
  ghost predicate Leaks(w: World, slot: Slot) {
    w.past.restarts == 0 && w.past.lostStops == multiset{} ==>
      w.limiter.Held(slot) == Pulls(w, slot) + Share(w.past.lostStarts, slot)
  }

  lemma InProgressLeaks(nm: Namer, w: World, key: Key, env: Env, slot: Slot)
    requires w.limiter.Valid() && key in w.ppis && Leaks(w, slot)
    ensures Leaks(HandleInProgress(nm, w, key, env).world, slot)
  {
    var p, s := w.ppis[key], PassOver(nm, w, key, env);
    PassBalances(nm, key, p, Begin(w.limiter, w.store, w.metrics, p.nodeStatus), env.weather, |p.nodeStatus|, slot);
    UsingEverywhere(w.ppis, slot);
    EverywherePut(w.ppis, key, Concluded(p, s, env.now), Using(slot));
    NoneLost(w.past.lostStops, s.stops, slot);
  }

  lemma DeletionLeaks(w: World, key: Key, env: Env, slot: Slot)
    requires w.limiter.Valid() && key in w.ppis && Leaks(w, slot)
    ensures Leaks(HandleDeletion(w, key, env).world, slot)
  {
    var es := w.ppis[key].nodeStatus;
    FinalizerBalances(w.limiter, es, slot);
    PullingNodesShare(es, slot);
    UsingEverywhere(w.ppis, slot);
    EverywhereDrop(w.ppis, key, Using(slot));
    NoneLost(w.past.lostStops, PullingNodes(es), slot);
    HeldWithinLimit(w.limiter, slot);
  }

  lemma NoneLost(a: multiset<string>, b: multiset<string>, slot: Slot)
    ensures a + b == multiset{} ==> a == multiset{} && Share(b, slot) == 0
  {
    if a + b == multiset{} {
      forall x ensures a[x] == 0 && b[x] == 0 {
        assert (a + b)[x] == a[x] + b[x];
      }
      assert a == b == multiset{};
    }
  }

  lemma ReconcileLeaks(nm: Namer, w: World, key: Key, env: Env, slot: Slot)
    requires OkAt(nm, w, key) && Leaks(w, slot)
    ensures Leaks(Reconcile(nm, w, key, env).world, slot)
  {
    if key in w.ppis && !env.getFails {
      var p := w.ppis[key];
      if p.deleting {
        DeletionLeaks(w, key, env, slot);
      } else if p.finalizer && p.phase.InProgress? {
        InProgressLeaks(nm, w, key, env, slot);
      } else {
        QuietWeights(nm, w, key, env, Using(slot));
      }
    }
  }

  lemma StepLeaks(nm: Namer, w: World, step: Step, slot: Slot)
    requires StepOk(nm, w, step) && Leaks(w, slot)
    ensures Leaks(Apply(nm, w, step), slot)
  {
    match step
    case Submit(k, image, names, max) => EverywherePut(w.ppis, k, Submitted(image, names, max), Using(slot));
    case RequestDelete(k) => DeleteTakesNothing(w.ppis, k, Using(slot));
    case Visit(k, env) => ReconcileLeaks(nm, w, k, env, slot);
    case _ =>
  }

  lemma {:induction false} RunsLeak(nm: Namer, maxPulls: int, maxPerNode: int, steps: seq<Step>, slot: Slot)
    ensures Leaks(Run(nm, Start(maxPulls, maxPerNode), steps), slot)
  {
    if steps != [] {
      var before := steps[..|steps| - 1];
      RunsLeak(nm, maxPulls, maxPerNode, before, slot);
      RunsKeepAllOk(nm, maxPulls, maxPerNode, before);
      AllOkSteps(nm, Run(nm, Start(maxPulls, maxPerNode), before), steps[|steps| - 1]);
      StepLeaks(nm, Run(nm, Start(maxPulls, maxPerNode), before), steps[|steps| - 1], slot);
    }
  }

  /** What a lost write costs, exactly: after any run without restarts and lost stops, every counter is the
      number of Pulling entries it stands for, over all PrePullImages, plus the starts on it whose record was
      lost. So it is exact if and only if there was none, and it never recovers from one. */
  lemma LeakIsExact(nm: Namer, maxPulls: int, maxPerNode: int, steps: seq<Step>, slot: Slot)
    requires var past := Run(nm, Start(maxPulls, maxPerNode), steps).past; past.restarts == 0 && past.lostStops == multiset{}
    ensures var w, limit := Run(nm, Start(maxPulls, maxPerNode), steps), NewLimiter(maxPulls, maxPerNode).Limit(slot);
            && w.limiter.Held(slot) == Pulls(w, slot) + Share(w.past.lostStarts, slot) <= limit
            && (w.limiter.Held(slot) == Pulls(w, slot) <==> Share(w.past.lostStarts, slot) == 0)
  {
    hide Run;
    RunsLeak(nm, maxPulls, maxPerNode, steps, slot);
    RunsKeepAllOk(nm, maxPulls, maxPerNode, steps);
    HeldWithinLimit(Run(nm, Start(maxPulls, maxPerNode), steps).limiter, slot);
  }

  /** No write that records a start or a stop has been lost. */
  predicate Recorded(w: World) {
    w.past.lostStarts == multiset{} && w.past.lostStops == multiset{}
  }

  /** With no lost write and no restart the limiter is exact: every counter is the number of Pulling entries
      it stands for, over all PrePullImages, so at most the limit are Pulling. */
  lemma ExactWithoutLosses(nm: Namer, maxPulls: int, maxPerNode: int, steps: seq<Step>, slot: Slot)
    requires var w := Run(nm, Start(maxPulls, maxPerNode), steps); Recorded(w) && w.past.restarts == 0
    ensures var w := Run(nm, Start(maxPulls, maxPerNode), steps);
            w.limiter.Held(slot) == Pulls(w, slot) <= NewLimiter(maxPulls, maxPerNode).Limit(slot)
  {
    hide Run;
    LeakIsExact(nm, maxPulls, maxPerNode, steps, slot);
    assert Share(multiset{}, slot) == 0;
  }

  // ---------------------------------------------------------------------------------------------
  // Between restarts
  // ---------------------------------------------------------------------------------------------

  /** Between restarts the shortfall left by an earlier restart never grows: a step that loses no record of a
      stop leaves every counter at least as close to its Pulling entries as it was. */
  lemma ShortfallNeverGrows(nm: Namer, w: World, step: Step, slot: Slot)
    requires AllOk(nm, w) && !step.Restart? && !step.Crash?
    requires Apply(nm, w, step).past.lostStops == w.past.lostStops
    ensures var v := Apply(nm, w, step);
            Pulls(v, slot) - v.limiter.Held(slot) <= Pulls(w, slot) - w.limiter.Held(slot)
  {
    match step
    case Submit(k, image, names, max) => EverywherePut(w.ppis, k, Submitted(image, names, max), Using(slot));
    case RequestDelete(k) => DeleteTakesNothing(w.ppis, k, Using(slot));
    case Visit(k, env) => VisitShortfall(nm, w, k, env, slot);
    case Outside(d) =>
  }

  lemma VisitShortfall(nm: Namer, w: World, key: Key, env: Env, slot: Slot)
    requires AllOk(nm, w) && Reconcile(nm, w, key, env).world.past.lostStops == w.past.lostStops
    ensures var v := Reconcile(nm, w, key, env).world;
            Pulls(v, slot) - v.limiter.Held(slot) <= Pulls(w, slot) - w.limiter.Held(slot)
  {
    if key in w.ppis && !env.getFails {
      var p := w.ppis[key];
      assert PpiOk(nm, key, p);
      if p.deleting {
        FinalizerBalances(w.limiter, p.nodeStatus, slot);
        PullingNodesShare(p.nodeStatus, slot);
        EverywhereDrop(w.ppis, key, Using(slot));
        NothingAdded(w.past.lostStops, PullingNodes(p.nodeStatus), slot);
      } else if p.finalizer && p.phase.InProgress? {
        var s := PassOver(nm, w, key, env);
        PassBalances(nm, key, p, Begin(w.limiter, w.store, w.metrics, p.nodeStatus), env.weather, |p.nodeStatus|, slot);
        EverywherePut(w.ppis, key, Concluded(p, s, env.now), Using(slot));
        NothingAdded(w.past.lostStops, s.stops, slot);
      } else {
        QuietWeights(nm, w, key, env, Using(slot));
      }
    }
  }

  lemma NothingAdded(a: multiset<string>, b: multiset<string>, slot: Slot)
    ensures a + b == a ==> Share(b, slot) == 0
  {
    if a + b == a {
      forall x ensures b[x] == 0 {
        assert (a + b)[x] == a[x] + b[x];
      }
      assert b == multiset{};
    }
  }

  /** A reconcile that is neither a pass nor a deletion moves no weight. */
  lemma QuietWeights(nm: Namer, w: World, key: Key, env: Env, m: Measure)
    requires OkAt(nm, w, key) && (m.Using? || m == Retries)
    requires key in w.ppis && !w.ppis[key].deleting && !(w.ppis[key].finalizer && w.ppis[key].phase.InProgress?)
    ensures var v := Reconcile(nm, w, key, env).world;
            && v.metrics == w.metrics && v.past == w.past && v.limiter == w.limiter
            && Everywhere(v.ppis, m) == Everywhere(w.ppis, m)
  {
    var p := w.ppis[key];
    assert PpiOk(nm, key, p);
    UnchangedEntries(w.ppis, key, p.(finalizer := true), m);
    DeleteTakesNothing(w.ppis, key, m);
    if Early(p.phase) && Targets(p, env).Some? {
      InitialTallies(Targets(p, env).value, 0);
      UnchangedEntries(w.ppis, key, Initialised(p, Targets(p, env).value), m);
    }
  }
}
