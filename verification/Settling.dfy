/** With a world that cooperates, every PrePullImage settles, however many compete for the limiter: a round of
    visits makes at least one move, and the number of moves is bounded. */
module Settling {
  import opened RateLimiting
  import opened Sums
  import opened Cluster
  import opened Pass
  import opened System
  import opened Lifecycle
  import opened Ledger
  import opened Progress

  /** No counter exceeds the Pulling entries it stands for. */
  ghost predicate NoOvercount(w: World) {
    forall s :: w.limiter.Held(s) <= Pulls(w, s)
  }

  /** This holds after every run without lost starts, with any number of restarts. */
  lemma RunsDoNotOvercount(nm: Namer, maxPulls: int, maxPerNode: int, steps: seq<Step>)
    requires Run(nm, Start(maxPulls, maxPerNode), steps).past.lostStarts == multiset{}
    ensures NoOvercount(Run(nm, Start(maxPulls, maxPerNode), steps))
  {
    hide Run;
    var w := Run(nm, Start(maxPulls, maxPerNode), steps);
    forall s ensures w.limiter.Held(s) <= Pulls(w, s) {
      RunsInLedger(nm, maxPulls, maxPerNode, steps, s);
    }
  }

  predicate Settled(p: PrePullImage) {
    PhaseRank(p.phase) == 2
  }

  predicate AllSettled(w: World) {
    forall k :: k in w.ppis ==> Settled(w.ppis[k])
  }

  // ---------------------------------------------------------------------------------------------
  // What lies ahead
  // ---------------------------------------------------------------------------------------------

  /** How many moves a PrePullImage has ahead: its status changes, and before them the finalizer and the node
      list, if a node list has at most n nodes. */
  function Ahead(p: PrePullImage, n: nat): int {
    if Early(p.phase) then
      (if p.finalizer then 1 else 2) + Budget(if p.names != [] then |p.names| else n, Attempts(p))
    else Left(p)
  }

  lemma BudgetGrows(m: nat, n: nat, attempts: nat)
    requires m <= n
    ensures 0 <= Budget(m, attempts) <= Budget(n, attempts)
  {
    assert n * (2 * attempts + 2) == m * (2 * attempts + 2) + (n - m) * (2 * attempts + 2);
  }

  lemma AheadUntilSettled(nm: Namer, key: Key, p: PrePullImage, n: nat)
    requires PpiOk(nm, key, p)
    ensures 0 <= Ahead(p, n)
    ensures Ahead(p, n) == 0 <==> Settled(p)
  {
    BudgetGrows(0, if p.names != [] then |p.names| else n, Attempts(p));
    LeftIsNonNegative(nm, key, p);
    if p.phase.InProgress? {
      InProgressHasLeft(nm, key, p);
    } else if Settled(p) {
      assert forall i :: 0 <= i < |p.nodeStatus| ==> Terminal(p.nodeStatus[i].status);
      TallyBounds(p.nodeStatus, Rank(Attempts(p)));
    }
  }

  /** The moves ahead of all PrePullImages together. */
  ghost function TotalAhead(ppis: map<Key, PrePullImage>, n: nat): int {
    Sum(map k | k in ppis :: Ahead(ppis[k], n))
  }

  lemma AheadPut(ppis: map<Key, PrePullImage>, k: Key, p: PrePullImage, n: nat)
    requires k in ppis
    ensures TotalAhead(ppis[k := p], n) == TotalAhead(ppis, n) - Ahead(ppis[k], n) + Ahead(p, n)
  {
    var f, after := map q | q in ppis :: Ahead(ppis[q], n), ppis[k := p];
    assert (map q | q in after :: Ahead(after[q], n)) == f[k := Ahead(p, n)];
    SumPut(f, k, Ahead(p, n));
  }

  lemma AheadDrop(ppis: map<Key, PrePullImage>, k: Key, n: nat)
    requires k in ppis
    ensures TotalAhead(ppis - {k}, n) == TotalAhead(ppis, n) - Ahead(ppis[k], n)
  {
    var f, after := map q | q in ppis :: Ahead(ppis[q], n), ppis - {k};
    assert (map q | q in after :: Ahead(after[q], n)) == f - {k};
    SumRemove(f, k);
  }

  lemma NothingAhead(nm: Namer, w: World, n: nat)
    requires AllOk(nm, w)
    ensures 0 <= TotalAhead(w.ppis, n)
    ensures TotalAhead(w.ppis, n) == 0 <==> AllSettled(w)
  {
    var f := map k | k in w.ppis :: Ahead(w.ppis[k], n);
    forall k | k in w.ppis ensures 0 <= f[k] && (f[k] == 0 <==> Settled(w.ppis[k])) {
      assert PpiOk(nm, k, w.ppis[k]);
      AheadUntilSettled(nm, k, w.ppis[k], n);
    }
    SumNonNegative(f);
    if AllSettled(w) {
      SumOfZeros(f);
    }
  }

  lemma {:induction false} SumOfZeros(m: map<Key, int>)
    requires forall k :: k in m ==> m[k] == 0
    ensures Sum(m) == 0
    decreases |m|
  {
    if k :| k in m {
      SumRemove(m, k);
      Shrinks(m, k);
      SumOfZeros(m - {k});
    }
  }

  // ---------------------------------------------------------------------------------------------
  // One visit
  // ---------------------------------------------------------------------------------------------

  /** A visit whose write is recorded, and whose node list, if any, has at most n nodes. */
  predicate Recording(env: Env, n: nat) {
    !env.writeFails && (env.listed.Some? ==> |env.listed.value| <= n)
  }

  /** The visit can get somewhere. Without Pulling entries that takes working job creations; otherwise one job
      must be found to have ended. Before the first pass, the target nodes must be known. */
  predicate Cooperates(nm: Namer, w: World, key: Key, env: Env)
    requires key in w.ppis
  {
    var p := w.ppis[key];
    var s0 := Begin(w.limiter, w.store, w.metrics, p.nodeStatus);
    && !env.getFails && !env.writeFails
    && (Early(p.phase) ==> Targets(p, env).Some?)
    && (p.phase.InProgress? && NonePulling(p.nodeStatus) ==> AllAccepted(env.weather))
    && (p.phase.InProgress? && !NonePulling(p.nodeStatus) ==>
          exists i :: 0 <= i < |p.nodeStatus| && p.nodeStatus[i].status.Pulling? && Ripe(nm, key, p, s0, env.weather, i))
  }

  /** A pass that changes no status changes nothing at all. */
  lemma IdlePass(nm: Namer, w: World, key: Key, env: Env)
    requires AllOk(nm, w) && key in w.ppis && w.ppis[key].phase.InProgress?
    requires !StatusChanged(w.ppis[key].nodeStatus, PassOver(nm, w, key, env).entries)
    ensures Concluded(w.ppis[key], PassOver(nm, w, key, env), env.now) == w.ppis[key]
  {
    var p, s := w.ppis[key], PassOver(nm, w, key, env);
    PassConcludes(nm, w, key, env);
    hide PassOver;
    assert PpiOk(nm, key, p);
    forall i | 0 <= i < |p.nodeStatus| ensures s.entries[i] == p.nodeStatus[i] {
      assert Move(p.nodeStatus[i], s.entries[i], p.maxAttempts);
    }
    assert s.entries == p.nodeStatus;
  }

  /** A move was made, or the record is as before except that its deletion may have been requested. */
  predicate Onward(p: PrePullImage, q: PrePullImage, n: nat) {
    Ahead(q, n) < Ahead(p, n) || q == p.(deleting := q.deleting)
  }

  lemma PassOnward(nm: Namer, w: World, key: Key, env: Env, n: nat)
    requires AllOk(nm, w) && key in w.ppis && w.ppis[key].phase.InProgress?
    ensures var p := w.ppis[key];
            var q := Concluded(p, PassOver(nm, w, key, env), env.now);
            if StatusChanged(p.nodeStatus, q.nodeStatus) then Ahead(q, n) < Ahead(p, n) else q == p
  {
    var p, s := w.ppis[key], PassOver(nm, w, key, env);
    assert PpiOk(nm, key, p);
    PassConcludes(nm, w, key, env);
    PassLowersRank(nm, key, p, s.entries);
    if !StatusChanged(p.nodeStatus, s.entries) {
      IdlePass(nm, w, key, env);
    }
  }

  lemma InitialisedOnward(nm: Namer, key: Key, p: PrePullImage, nodes: seq<string>, n: nat)
    requires PpiOk(nm, key, p) && Early(p.phase) && p.finalizer
    requires if p.names != [] then nodes == p.names else |nodes| <= n
    ensures Ahead(Initialised(p, nodes), n) < Ahead(p, n)
  {
    InitialTallies(nodes, Attempts(p));
    BudgetGrows(|nodes|, if p.names != [] then |p.names| else n, Attempts(p));
  }

  /** What a recording visit does to the record: it goes if it is being deleted, or it moves onward. */
  lemma VisitOnward(nm: Namer, w: World, key: Key, env: Env, n: nat)
    requires AllOk(nm, w) && key in w.ppis && Recording(env, n)
    ensures var p, v := w.ppis[key], Reconcile(nm, w, key, env).world;
            if p.deleting && !env.getFails then v.ppis == w.ppis - {key}
            else key in v.ppis && v.ppis == w.ppis[key := v.ppis[key]] && Onward(p, v.ppis[key], n)
    ensures var p, v := w.ppis[key], Reconcile(nm, w, key, env).world;
            !p.deleting && !env.getFails && Early(p.phase) && Targets(p, env).Some? ==> Ahead(v.ppis[key], n) < Ahead(p, n)
  {
    var p := w.ppis[key];
    assert PpiOk(nm, key, p);
    if !env.getFails && !p.deleting {
      if p.finalizer && p.phase.InProgress? {
        PassOnward(nm, w, key, env, n);
      } else if p.finalizer && Early(p.phase) && Targets(p, env).Some? {
        InitialisedOnward(nm, key, p, Targets(p, env).value, n);
      }
    }
  }

  lemma PassDoesNotOvercount(nm: Namer, w: World, key: Key, env: Env, slot: Slot)
    requires w.limiter.Valid() && key in w.ppis && w.limiter.Held(slot) <= Pulls(w, slot) && !env.writeFails
    ensures var v := HandleInProgress(nm, w, key, env).world; v.limiter.Held(slot) <= Pulls(v, slot)
  {
    var p := w.ppis[key];
    UsingEverywhere(w.ppis, slot);
    PassBalances(nm, key, p, Begin(w.limiter, w.store, w.metrics, p.nodeStatus), env.weather, |p.nodeStatus|, slot);
    EverywherePut(w.ppis, key, Concluded(p, PassOver(nm, w, key, env), env.now), Using(slot));
  }

  lemma DeletionDoesNotOvercount(w: World, key: Key, env: Env, slot: Slot)
    requires w.limiter.Valid() && key in w.ppis && w.limiter.Held(slot) <= Pulls(w, slot) && !env.writeFails
    ensures var v := HandleDeletion(w, key, env).world; v.limiter.Held(slot) <= Pulls(v, slot)
  {
    UsingEverywhere(w.ppis, slot);
    FinalizerBalances(w.limiter, w.ppis[key].nodeStatus, slot);
    EverywhereDrop(w.ppis, key, Using(slot));
  }

  lemma VisitDoesNotOvercount(nm: Namer, w: World, key: Key, env: Env)
    requires AllOk(nm, w) && NoOvercount(w) && !env.writeFails
    ensures NoOvercount(Reconcile(nm, w, key, env).world)
  {
    var v := Reconcile(nm, w, key, env).world;
    forall slot ensures v.limiter.Held(slot) <= Pulls(v, slot) {
      assert w.limiter.Held(slot) <= Pulls(w, slot);
      hide HandleInProgress;
      hide HandleDeletion;
      if key in w.ppis && !env.getFails {
        var p := w.ppis[key];
        if p.deleting {
          DeletionDoesNotOvercount(w, key, env, slot);
        } else if p.finalizer && p.phase.InProgress? {
          PassDoesNotOvercount(nm, w, key, env, slot);
        } else {
          QuietWeights(nm, w, key, env, Using(slot));
        }
      }
    }
  }

  /** The heart of the matter: a cooperative visit to an unsettled PrePullImage makes a move, if it has a Pulling
      entry of its own or nothing is pulling anywhere. */
  lemma CooperativeVisitMoves(nm: Namer, w: World, key: Key, env: Env, n: nat)
    requires AllOk(nm, w) && NoOvercount(w) && key in w.ppis && !Settled(w.ppis[key])
    requires Recording(env, n) && Cooperates(nm, w, key, env)
    requires NonePulling(w.ppis[key].nodeStatus) ==> Pulls(w, Whole) == 0
    ensures var p, v := w.ppis[key], Reconcile(nm, w, key, env).world;
            && (!p.deleting ==> key in v.ppis && Ahead(v.ppis[key], n) < Ahead(p, n))
            && TotalAhead(v.ppis, n) < TotalAhead(w.ppis, n)
  {
    var p, v := w.ppis[key], Reconcile(nm, w, key, env).world;
    assert PpiOk(nm, key, p);
    AheadUntilSettled(nm, key, p, n);
    VisitOnward(nm, w, key, env, n);
    if p.deleting {
      AheadDrop(w.ppis, key, n);
    } else {
      if p.phase.InProgress? {
        PassOnward(nm, w, key, env, n);
        PassMovesExactlyWhen(nm, w, key, env);
        if NonePulling(p.nodeStatus) {
          FirstStart(nm, w, key, env);
        }
      }
      AheadPut(w.ppis, key, v.ppis[key], n);
    }
  }

  lemma FirstStart(nm: Namer, w: World, key: Key, env: Env)
    requires AllOk(nm, w) && NoOvercount(w) && Pulls(w, Whole) == 0
    requires key in w.ppis && w.ppis[key].phase.InProgress? && NonePulling(w.ppis[key].nodeStatus) && AllAccepted(env.weather)
    ensures StatusChanged(w.ppis[key].nodeStatus, PassOver(nm, w, key, env).entries)
  {
    var es := w.ppis[key].nodeStatus;
    assert PpiOk(nm, key, w.ppis[key]);
    PassStartsExactlyWhen(nm, w, key, env);
    var i :| 0 <= i < |es| && !Terminal(es[i].status);
    NodesWithinWhole(w.ppis, es[i].node);
    assert w.limiter.Held(Whole) <= 0 && w.limiter.Held(OnNode(es[i].node)) <= 0;
    assert es[i].status.Pending? && w.limiter.Grants(es[i].node);
  }

  // ---------------------------------------------------------------------------------------------
  // Steps between visits
  // ---------------------------------------------------------------------------------------------

  /** Everything but a new PrePullImage and a visit whose write fails: restarts and crashes included. */
  predicate Harmless(step: Step, n: nat) {
    match step
    case Submit(_, _, _, _) => false
    case Visit(_, env) => Recording(env, n)
    case _ => true
  }

  /** Nothing has moved: every unsettled record is as before, up to requested deletion. */
  predicate Still(ppis: map<Key, PrePullImage>, qs: map<Key, PrePullImage>) {
    && qs.Keys <= ppis.Keys
    && (forall k :: k in ppis && !Settled(ppis[k]) ==> k in qs && qs[k] == ppis[k].(deleting := qs[k].deleting))
    && (forall k :: k in qs && Settled(ppis[k]) ==> Settled(qs[k]))
  }

  ghost predicate Nearer(ppis: map<Key, PrePullImage>, qs: map<Key, PrePullImage>, n: nat) {
    TotalAhead(qs, n) < TotalAhead(ppis, n) || (TotalAhead(qs, n) == TotalAhead(ppis, n) && Still(ppis, qs))
  }

  /** Nothing but one record moves. */
  lemma OneRecordNearer(nm: Namer, w: World, key: Key, q: PrePullImage, n: nat)
    requires AllOk(nm, w) && key in w.ppis && Onward(w.ppis[key], q, n) && (Settled(w.ppis[key]) ==> Settled(q))
    ensures Nearer(w.ppis, w.ppis[key := q], n)
  {
    AheadPut(w.ppis, key, q, n);
  }

  lemma OneFewerNearer(nm: Namer, w: World, key: Key, n: nat)
    requires AllOk(nm, w) && key in w.ppis
    ensures Nearer(w.ppis, w.ppis - {key}, n)
  {
    assert PpiOk(nm, key, w.ppis[key]);
    AheadUntilSettled(nm, key, w.ppis[key], n);
    AheadDrop(w.ppis, key, n);
    hide Settled;
    hide Ahead;
    hide PpiOk;
  }

  lemma VisitNearer(nm: Namer, w: World, key: Key, env: Env, n: nat)
    requires AllOk(nm, w) && Recording(env, n)
    ensures Nearer(w.ppis, Reconcile(nm, w, key, env).world.ppis, n)
  {
    assert OkAt(nm, w, key);
    hide AllOk;
    hide OkAt;
    hide Nearer;
    var v := Reconcile(nm, w, key, env).world;
    if key in w.ppis {
      VisitOnward(nm, w, key, env, n);
      ReconcileAdvances(nm, w, key, env);
      hide Reconcile;
      hide Onward;
      if w.ppis[key].deleting && !env.getFails {
        OneFewerNearer(nm, w, key, n);
      } else {
        OneRecordNearer(nm, w, key, v.ppis[key], n);
      }
    } else {
      NowhereNearer(w.ppis, n);
    }
  }

  lemma NowhereNearer(ppis: map<Key, PrePullImage>, n: nat)
    ensures Nearer(ppis, ppis, n)
  {
  }

  lemma RequestNearer(nm: Namer, w: World, key: Key, n: nat)
    requires AllOk(nm, w)
    ensures Nearer(w.ppis, Delete(w.ppis, key), n)
  {
    hide AllOk;
    hide Nearer;
    if key in w.ppis {
      OneFewerNearer(nm, w, key, n);
      OneRecordNearer(nm, w, key, w.ppis[key].(deleting := true), n);
    } else {
      NowhereNearer(w.ppis, n);
    }
  }

  lemma StepNearer(nm: Namer, w: World, step: Step, n: nat)
    requires AllOk(nm, w) && NoOvercount(w) && Harmless(step, n)
    ensures var v := Apply(nm, w, step); AllOk(nm, v) && NoOvercount(v) && Nearer(w.ppis, v.ppis, n)
  {
    StepForward(nm, w, step);
    match step
    case Visit(k, env) =>
      VisitDoesNotOvercount(nm, w, k, env);
      VisitNearer(nm, w, k, env, n);
    case RequestDelete(k) =>
      RequestNearer(nm, w, k, n);
      forall s ensures w.limiter.Held(s) <= Everywhere(Delete(w.ppis, k), Using(s)) {
        DeleteTakesNothing(w.ppis, k, Using(s));
        assert w.limiter.Held(s) <= Pulls(w, s);
      }
    case Outside(d) => SamePulls(w, Apply(nm, w, step));
    case Restart => RestartDoesNotOvercount(w, w);
    case Crash(k, env) =>
      FailedWriteKeeps(nm, w, k, env.(writeFails := true));
      var v := Reconcile(nm, w, k, env.(writeFails := true)).world;
      hide Reconcile;
      RestartDoesNotOvercount(w, v.(past := Died(w.past, v.past)));
  }

  lemma SamePulls(w: World, v: World)
    requires NoOvercount(w) && v.ppis == w.ppis && v.limiter == w.limiter
    ensures NoOvercount(v)
  {
    forall s ensures v.limiter.Held(s) <= Pulls(v, s) {
      assert w.limiter.Held(s) <= Pulls(w, s);
    }
  }

  lemma RestartDoesNotOvercount(w: World, u: World)
    requires u.ppis == w.ppis
    ensures NoOvercount(Restarted(u))
  {
    forall s ensures Restarted(u).limiter.Held(s) <= Pulls(Restarted(u), s) {
      UsingEverywhere(u.ppis, s);
    }
  }

  lemma NearerOnwards(ppis: map<Key, PrePullImage>, qs: map<Key, PrePullImage>, rs: map<Key, PrePullImage>, n: nat)
    requires Nearer(ppis, qs, n) && Nearer(qs, rs, n)
    ensures Nearer(ppis, rs, n)
  {
  }

  lemma {:induction false} StepsKeep(nm: Namer, w: World, steps: seq<Step>, n: nat)
    requires AllOk(nm, w) && NoOvercount(w)
    requires forall j :: 0 <= j < |steps| ==> Harmless(steps[j], n)
    ensures AllOk(nm, Run(nm, w, steps)) && NoOvercount(Run(nm, w, steps))
  {
    hide AllOk;
    hide NoOvercount;
    hide Harmless;
    hide Apply;
    if steps != [] {
      StepsKeep(nm, w, steps[..|steps| - 1], n);
      StepNearer(nm, Run(nm, w, steps[..|steps| - 1]), steps[|steps| - 1], n);
    }
  }

  /** From the i-th step on. */
  lemma {:induction false} StepsNearer(nm: Namer, w: World, steps: seq<Step>, i: nat, n: nat)
    requires AllOk(nm, w) && NoOvercount(w) && i <= |steps|
    requires forall j :: 0 <= j < |steps| ==> Harmless(steps[j], n)
    ensures AllOk(nm, Run(nm, w, steps[..i])) && NoOvercount(Run(nm, w, steps[..i]))
    ensures AllOk(nm, Run(nm, w, steps)) && NoOvercount(Run(nm, w, steps))
    ensures Nearer(Run(nm, w, steps[..i]).ppis, Run(nm, w, steps).ppis, n)
    decreases |steps|
  {
    hide AllOk;
    hide NoOvercount;
    hide Harmless;
    hide Nearer;
    hide Apply;
    StepsKeep(nm, w, steps[..i], n);
    StepsKeep(nm, w, steps, n);
    if i == |steps| {
      assert steps[..i] == steps;
      NowhereNearer(Run(nm, w, steps).ppis, n);
    } else {
      var before := steps[..|steps| - 1];
      assert before[..i] == steps[..i];
      StepsNearer(nm, w, before, i, n);
      StepNearer(nm, Run(nm, w, before), steps[|steps| - 1], n);
      NearerOnwards(Run(nm, w, steps[..i]).ppis, Run(nm, w, before).ppis, Run(nm, w, steps).ppis, n);
    }
  }

  // ---------------------------------------------------------------------------------------------
  // Rounds
  // ---------------------------------------------------------------------------------------------

  /** Step i of the round visits key, and cooperates if there is still something to do. */
  ghost predicate Attends(nm: Namer, w: World, steps: seq<Step>, key: Key, i: nat)
    requires i < |steps|
  {
    var u := Run(nm, w, steps[..i]);
    && steps[i].Visit? && steps[i].key == key
    && (key in u.ppis && !Settled(u.ppis[key]) ==> Cooperates(nm, u, key, steps[i].env))
  }

  /** Every PrePullImage that is unsettled at the start gets a cooperative visit, in any order, and with any other
      harmless steps in between. */
  ghost predicate Round(nm: Namer, w: World, steps: seq<Step>, n: nat) {
    && (forall i :: 0 <= i < |steps| ==> Harmless(steps[i], n))
    && (forall k :: k in w.ppis && !Settled(w.ppis[k]) ==> exists i :: 0 <= i < |steps| && Attends(nm, w, steps, k, i))
  }

  /** If nothing is pulling and nothing has moved, still nothing is pulling. */
  lemma StillNonePulling(nm: Namer, w: World, u: World)
    requires AllOk(nm, w) && AllOk(nm, u) && Still(w.ppis, u.ppis)
    requires forall k :: k in w.ppis ==> NonePulling(w.ppis[k].nodeStatus)
    ensures Pulls(u, Whole) == 0
  {
    forall k | k in u.ppis ensures NonePulling(u.ppis[k].nodeStatus) {
      assert PpiOk(nm, k, u.ppis[k]);
    }
    NoPulls(u.ppis);
  }

  lemma {:induction false} NoPulls(ppis: map<Key, PrePullImage>)
    requires forall k :: k in ppis ==> NonePulling(ppis[k].nodeStatus)
    ensures Everywhere(ppis, Using(Whole)) == 0
    decreases |ppis|
  {
    if k :| k in ppis {
      assert (ppis - {k}).Keys == ppis.Keys - {k};
      NoPulls(ppis - {k});
      EverywhereDrop(ppis, k, Using(Whole));
      StarvedTallies(ppis[k].nodeStatus);
    }
  }

  /** Whom to look at: an object with a Pulling entry, or if there is none, any unsettled one. */
  lemma Pick(nm: Namer, w: World) returns (key: Key)
    requires AllOk(nm, w) && !AllSettled(w)
    ensures key in w.ppis && !Settled(w.ppis[key])
    ensures NonePulling(w.ppis[key].nodeStatus) ==> forall k :: k in w.ppis ==> NonePulling(w.ppis[k].nodeStatus)
  {
    if k :| k in w.ppis && !NonePulling(w.ppis[k].nodeStatus) {
      key := k;
      assert PpiOk(nm, k, w.ppis[k]);
    } else {
      key :| key in w.ppis && !Settled(w.ppis[key]);
    }
  }

  /** The visit to the picked object makes a move, if nothing has moved before it. */
  lemma AttendedMoves(nm: Namer, w: World, steps: seq<Step>, key: Key, i: nat, n: nat)
    requires AllOk(nm, w) && key in w.ppis && !Settled(w.ppis[key])
    requires NonePulling(w.ppis[key].nodeStatus) ==> forall k :: k in w.ppis ==> NonePulling(w.ppis[k].nodeStatus)
    requires i < |steps| && Harmless(steps[i], n) && Attends(nm, w, steps, key, i)
    requires AllOk(nm, Run(nm, w, steps[..i])) && NoOvercount(Run(nm, w, steps[..i]))
    requires Still(w.ppis, Run(nm, w, steps[..i]).ppis)
    ensures TotalAhead(Run(nm, w, steps[..i + 1]).ppis, n) < TotalAhead(Run(nm, w, steps[..i]).ppis, n)
  {
    hide Run;
    hide AllOk;
    hide NoOvercount;
    hide Cooperates;
    hide TotalAhead;
    var u := Run(nm, w, steps[..i]);
    OneStepMore(nm, w, steps, i);
    if NonePulling(w.ppis[key].nodeStatus) {
      StillNonePulling(nm, w, u);
    }
    CooperativeVisitMoves(nm, u, key, steps[i].env, n);
  }

  /** What leads up to step i. */
  lemma UpToStep(nm: Namer, w: World, steps: seq<Step>, i: nat, n: nat)
    requires AllOk(nm, w) && NoOvercount(w) && i <= |steps|
    requires forall j :: 0 <= j < |steps| ==> Harmless(steps[j], n)
    ensures var u := Run(nm, w, steps[..i]); AllOk(nm, u) && NoOvercount(u) && Nearer(w.ppis, u.ppis, n)
  {
    hide AllOk;
    hide NoOvercount;
    hide Nearer;
    StepsNearer(nm, w, steps[..i], 0, n);
    assert steps[..i][..0] == [];
    NoSteps(nm, w);
  }

  lemma NotFarther(nm: Namer, w: World, steps: seq<Step>, i: nat, n: nat)
    requires AllOk(nm, w) && NoOvercount(w) && i <= |steps|
    requires forall j :: 0 <= j < |steps| ==> Harmless(steps[j], n)
    ensures TotalAhead(Run(nm, w, steps).ppis, n) <= TotalAhead(Run(nm, w, steps[..i]).ppis, n)
  {
    hide AllOk;
    hide NoOvercount;
    hide Run;
    StepsNearer(nm, w, steps, i, n);
  }

  /** A round makes at least one move, as long as something is unsettled, whoever competes for the slots. */
  lemma RoundMoves(nm: Namer, w: World, steps: seq<Step>, n: nat)
    requires AllOk(nm, w) && NoOvercount(w) && Round(nm, w, steps, n)
    requires !AllSettled(w)
    ensures TotalAhead(Run(nm, w, steps).ppis, n) < TotalAhead(w.ppis, n)
  {
    hide AllOk;
    hide NoOvercount;
    hide Attends;
    hide Still;
    hide TotalAhead;
    hide Run;
    hide NonePulling;
    hide Harmless;
    var key := Pick(nm, w);
    var i :| 0 <= i < |steps| && Attends(nm, w, steps, key, i);
    UpToStep(nm, w, steps, i, n);
    NotFarther(nm, w, steps, i, n);
    NotFarther(nm, w, steps, i + 1, n);
    if TotalAhead(Run(nm, w, steps[..i]).ppis, n) == TotalAhead(w.ppis, n) {
      AttendedMoves(nm, w, steps, key, i, n);
    }
  }

  lemma NoSteps(nm: Namer, w: World)
    ensures Run(nm, w, []) == w
  {
  }

  lemma OneStepMore(nm: Namer, w: World, steps: seq<Step>, i: nat)
    requires i < |steps|
    ensures Run(nm, w, steps[..i + 1]) == Apply(nm, Run(nm, w, steps[..i]), steps[i])
  {
    assert steps[..i + 1][..i] == steps[..i];
  }

  lemma AfterOneRound(nm: Namer, w: World, steps: seq<Step>, n: nat)
    requires AllOk(nm, w) && NoOvercount(w) && Round(nm, w, steps, n)
    ensures var v := Run(nm, w, steps);
            && AllOk(nm, v) && NoOvercount(v)
            && (if TotalAhead(w.ppis, n) > 0 then TotalAhead(v.ppis, n) < TotalAhead(w.ppis, n) else TotalAhead(v.ppis, n) <= 0)
  {
    hide Run;
    StepsNearer(nm, w, steps, 0, n);
    assert steps[..0] == [];
    NoSteps(nm, w);
    NothingAhead(nm, w, n);
    if TotalAhead(w.ppis, n) > 0 {
      RoundMoves(nm, w, steps, n);
    }
  }

  ghost function AfterRounds(nm: Namer, w: World, rounds: seq<seq<Step>>): World
    decreases rounds
  {
    if rounds == [] then w else AfterRounds(nm, Run(nm, w, rounds[0]), rounds[1..])
  }

  ghost predicate AllRounds(nm: Namer, w: World, rounds: seq<seq<Step>>, n: nat)
    decreases rounds
  {
    rounds == [] || (Round(nm, w, rounds[0], n) && AllRounds(nm, Run(nm, w, rounds[0]), rounds[1..], n))
  }

  /** Liveness under contention: from any state in which no counter is over its entries, any number of
      PrePullImages sharing the limiter are all in a terminal phase after as many rounds as they have moves
      ahead together. */
  lemma {:induction false} EverythingSettles(nm: Namer, w: World, rounds: seq<seq<Step>>, n: nat)
    requires AllOk(nm, w) && NoOvercount(w) && AllRounds(nm, w, rounds, n)
    requires TotalAhead(w.ppis, n) <= |rounds|
    ensures AllSettled(AfterRounds(nm, w, rounds))
    decreases |rounds|
  {
    hide Run;
    hide AllOk;
    hide NoOvercount;
    hide Round;
    hide TotalAhead;
    if rounds == [] {
      NothingAhead(nm, w, n);
    } else {
      AfterOneRound(nm, w, rounds[0], n);
      EverythingSettles(nm, Run(nm, w, rounds[0]), rounds[1..], n);
    }
  }

  /** So after every run, with any failures and restarts, in which no start lost its record since the last
      restart, as many rounds as there are moves ahead settle everything. */
  lemma EverythingSettlesAfterAnyRun(nm: Namer, maxPulls: int, maxPerNode: int, steps: seq<Step>,
                                     rounds: seq<seq<Step>>, n: nat)
    requires Run(nm, Start(maxPulls, maxPerNode), steps).past.lostStarts == multiset{}
    requires AllRounds(nm, Run(nm, Start(maxPulls, maxPerNode), steps), rounds, n)
    requires TotalAhead(Run(nm, Start(maxPulls, maxPerNode), steps).ppis, n) <= |rounds|
    ensures AllSettled(AfterRounds(nm, Run(nm, Start(maxPulls, maxPerNode), steps), rounds))
  {
    hide Run;
    RunsKeepAllOk(nm, maxPulls, maxPerNode, steps);
    RunsDoNotOvercount(nm, maxPulls, maxPerNode, steps);
    EverythingSettles(nm, Run(nm, Start(maxPulls, maxPerNode), steps), rounds, n);
  }

  // ---------------------------------------------------------------------------------------------
  // There always is a way
  // ---------------------------------------------------------------------------------------------

  /** No call fails, and the job of every Pulling entry is gone by the time it is looked up. */
  function Gentle(p: PrePullImage): Env {
    Env(false, 0, Some([]),
        seq(|p.nodeStatus|, i requires 0 <= i < |p.nodeStatus| =>
              Weather([Vanish(p.nodeStatus[i].jobName)], Accepted, false, false)),
        false, {})
  }

  lemma GentleCooperates(nm: Namer, w: World, key: Key)
    requires key in w.ppis
    ensures Cooperates(nm, w, key, Gentle(w.ppis[key])) && FlawlessEnv(Gentle(w.ppis[key]))
  {
    var p, env := w.ppis[key], Gentle(w.ppis[key]);
    var s0 := Begin(w.limiter, w.store, w.metrics, p.nodeStatus);
    forall i | 0 <= i < |p.nodeStatus| && p.nodeStatus[i].status.Pulling? ensures Ripe(nm, key, p, s0, env.weather, i) {
      var store, name := After(nm, key, p, s0, env.weather, i).store, p.nodeStatus[i].jobName;
      assert DriftedAll(store, [Vanish(name)]) == DriftedAll(store.Remove(name), []);
    }
  }

  lemma GentleVisitMoves(nm: Namer, w: World) returns (key: Key)
    requires AllOk(nm, w) && NoOvercount(w) && !AllSettled(w)
    ensures key in w.ppis && FlawlessEnv(Gentle(w.ppis[key]))
    ensures var v := Reconcile(nm, w, key, Gentle(w.ppis[key])).world;
            AllOk(nm, v) && NoOvercount(v) && TotalAhead(v.ppis, 0) < TotalAhead(w.ppis, 0)
  {
    hide Cooperates;
    hide FlawlessEnv;
    key := Pick(nm, w);
    if NonePulling(w.ppis[key].nodeStatus) {
      NoPulls(w.ppis);
    }
    GentleCooperates(nm, w, key);
    CooperativeVisitMoves(nm, w, key, Gentle(w.ppis[key]), 0);
    VisitDoesNotOvercount(nm, w, key, Gentle(w.ppis[key]));
    StepForward(nm, w, Visit(key, Gentle(w.ppis[key])));
  }

  /** No dead ends: after every run without lost starts since the last restart, there is a way on, in which no call
      fails, to a state where everything is settled. */
  lemma {:induction false} NoDeadEnds(nm: Namer, w: World, before: seq<Step>) returns (steps: seq<Step>)
    requires AllOk(nm, Run(nm, w, before)) && NoOvercount(Run(nm, w, before))
    ensures AllSettled(Run(nm, w, steps))
    ensures |before| <= |steps| && steps[..|before|] == before
    ensures forall i :: |before| <= i < |steps| ==> Flawless(steps[i])
    decreases TotalAhead(Run(nm, w, before).ppis, 0)
  {
    hide Run;
    hide AllOk;
    hide NoOvercount;
    hide TotalAhead;
    hide Gentle;
    hide Reconcile;
    var v := Run(nm, w, before);
    steps := before;
    if !AllSettled(v) {
      NothingAhead(nm, v, 0);
      var key := GentleVisitMoves(nm, v);
      var more := before + [Visit(key, Gentle(v.ppis[key]))];
      OneStepMore(nm, w, more, |before|);
      assert more[..|before|] == before && more[..|before| + 1] == more;
      NothingAhead(nm, Run(nm, w, more), 0);
      steps := NoDeadEnds(nm, w, more);
      assert steps[..|before|] == steps[..|more|][..|before|];
      assert steps[|before|] == more[|before|];
    }
  }

  // ---------------------------------------------------------------------------------------------
  // One PrePullImage by itself
  // ---------------------------------------------------------------------------------------------

  /** No other PrePullImage is pulling. */
  ghost predicate Alone(w: World, key: Key) {
    key in w.ppis && Pulls(w, Whole) == Tally(w.ppis[key].nodeStatus, Using(Whole))
  }

  /** Visits one after another, each recorded and cooperative for as long as the PrePullImage is unsettled. */
  ghost predicate CooperativeVisits(nm: Namer, w: World, key: Key, envs: seq<Env>, n: nat)
    decreases envs
  {
    key in w.ppis && (!Settled(w.ppis[key]) && envs != [] ==>
      && Recording(envs[0], n) && Cooperates(nm, w, key, envs[0])
      && CooperativeVisits(nm, Reconcile(nm, w, key, envs[0]).world, key, envs[1..], n))
  }

  /** The world after visiting key until it is settled. */
  function AfterVisits(nm: Namer, w: World, key: Key, envs: seq<Env>): World
    decreases envs
  {
    if envs == [] || key !in w.ppis || Settled(w.ppis[key]) then w
    else AfterVisits(nm, Reconcile(nm, w, key, envs[0]).world, key, envs[1..])
  }

  lemma StaysAlone(nm: Namer, w: World, key: Key, env: Env, n: nat)
    requires AllOk(nm, w) && Alone(w, key) && Recording(env, n)
    requires !w.ppis[key].deleting && !Settled(w.ppis[key])
    ensures var v := Reconcile(nm, w, key, env).world; Alone(v, key) && !v.ppis[key].deleting
  {
    var v := Reconcile(nm, w, key, env).world;
    VisitOnward(nm, w, key, env, n);
    assert PpiOk(nm, key, w.ppis[key]);
    assert v.ppis == w.ppis[key := v.ppis[key]];
    assert !v.ppis[key].deleting;
    hide Reconcile;
    EverywherePut(w.ppis, key, v.ppis[key], Using(Whole));
  }

  lemma LoneVisit(nm: Namer, w: World, key: Key, env: Env, n: nat)
    requires AllOk(nm, w) && NoOvercount(w) && Alone(w, key) && !w.ppis[key].deleting && !Settled(w.ppis[key])
    requires Recording(env, n) && Cooperates(nm, w, key, env)
    ensures var v := Reconcile(nm, w, key, env).world;
            && AllOk(nm, v) && NoOvercount(v) && Alone(v, key) && !v.ppis[key].deleting
            && Ahead(v.ppis[key], n) < Ahead(w.ppis[key], n)
  {
    hide Cooperates;
    hide NoOvercount;
    OwnPulls(w, key);
    CooperativeVisitMoves(nm, w, key, env, n);
    StaysAlone(nm, w, key, env, n);
    VisitDoesNotOvercount(nm, w, key, env);
    StepForward(nm, w, Visit(key, env));
    hide Reconcile;
    hide AllOk;
    hide Ahead;
  }

  /** A PrePullImage that nobody competes with needs no more visits than it has moves ahead itself, whatever else
      is still unsettled. */
  lemma {:induction false} Settles(nm: Namer, w: World, key: Key, envs: seq<Env>, n: nat)
    requires AllOk(nm, w) && NoOvercount(w) && Alone(w, key) && !w.ppis[key].deleting
    requires CooperativeVisits(nm, w, key, envs, n) && Ahead(w.ppis[key], n) <= |envs|
    ensures var v := AfterVisits(nm, w, key, envs); key in v.ppis && Settled(v.ppis[key])
    decreases |envs|
  {
    assert PpiOk(nm, key, w.ppis[key]);
    AheadUntilSettled(nm, key, w.ppis[key], n);
    hide AllOk;
    hide NoOvercount;
    hide Cooperates;
    hide Recording;
    hide Ahead;
    hide Settled;
    hide PpiOk;
    hide Reconcile;
    if !Settled(w.ppis[key]) {
      LoneVisit(nm, w, key, envs[0], n);
      Settles(nm, Reconcile(nm, w, key, envs[0]).world, key, envs[1..], n);
    }
  }

  lemma OwnPulls(w: World, key: Key)
    requires Alone(w, key)
    ensures NonePulling(w.ppis[key].nodeStatus) ==> Pulls(w, Whole) == 0
  {
    if NonePulling(w.ppis[key].nodeStatus) {
      StarvedTallies(w.ppis[key].nodeStatus);
    }
  }
}
