/** What holds of every PrePullImage in every reachable state: phases, summaries, attempts, termination. */
module Lifecycle {
  import opened RateLimiting
  import opened Cluster
  import opened Pass
  import opened System

  /** MaxAttempts may be zero or negative; then there is no retry. */
  function Attempts(p: PrePullImage): nat {
    if p.maxAttempts > 0 then p.maxAttempts else 0
  }

  /** Attempt accounting: an entry has been started once per retry, and once more unless it is Pending; it
      fails only when every retry is used up. */
  predicate EntryOk(nm: Namer, key: Key, attempts: nat, e: NodeStatus) {
    && 0 <= e.retryCount <= attempts
    && e.starts == e.retryCount + (if e.status.Pending? then 0 else 1)
    && (e.status.Failed? ==> e.retryCount == attempts)
    && (e.status.Pulling? ==> e.jobName == nm(key.name, e.node))
  }

  /** The most status changes that n entries can make. */
  function Budget(n: nat, attempts: nat): int {
    n * (2 * attempts + 2)
  }

  /** One entry for each target node, in order. */
  predicate Serves(es: seq<NodeStatus>, nodes: seq<string>) {
    |es| == |nodes| && forall i :: 0 <= i < |es| ==> es[i].node == nodes[i]
  }

  predicate PpiOk(nm: Namer, key: Key, p: PrePullImage) {
    && (p.deleting || !Early(p.phase) ==> p.finalizer)
    && (forall i :: 0 <= i < |p.nodeStatus| ==> EntryOk(nm, key, Attempts(p), p.nodeStatus[i]))
    && (p.names != [] && !Early(p.phase) ==> Serves(p.nodeStatus, p.names))
    && p.summary == Recount(p.nodeStatus)
    && (if Early(p.phase) then p.nodeStatus == [] else p.phase == PhaseOf(p.nodeStatus))
    && (p.completionTime.Some? <==> !Early(p.phase) && !p.phase.InProgress? && p.nodeStatus != [])
    && 0 <= p.moves
    && p.moves + Tally(p.nodeStatus, Rank(Attempts(p))) <= Budget(|p.nodeStatus|, Attempts(p))
  }

  /** Enough for a step that concerns one key only. */
  predicate OkAt(nm: Namer, w: World, key: Key) {
    w.limiter.Valid() && (key in w.ppis ==> PpiOk(nm, key, w.ppis[key]))
  }

  predicate AllOk(nm: Namer, w: World) {
    w.limiter.Valid() && forall k :: k in w.ppis ==> PpiOk(nm, k, w.ppis[k])
  }

  // ---------------------------------------------------------------------------------------------
  // One pass
  // ---------------------------------------------------------------------------------------------

  /** A move keeps the accounts of the entry and never raises its rank; a change of status lowers it. */
  lemma MoveKeepsEntryOk(nm: Namer, key: Key, p: PrePullImage, e: NodeStatus, f: NodeStatus)
    requires EntryOk(nm, key, Attempts(p), e) && Move(e, f, p.maxAttempts) && Named(nm, key, e, f)
    ensures EntryOk(nm, key, Attempts(p), f)
    ensures 0 <= Weight(Rank(Attempts(p)), f) <= Weight(Rank(Attempts(p)), e)
    ensures e.status != f.status ==> Weight(Rank(Attempts(p)), f) < Weight(Rank(Attempts(p)), e)
  {
  }

  /** Termination measure: over a pass the rank never rises, and falls if any entry changes status. */
  lemma PassLowersRank(nm: Namer, key: Key, p: PrePullImage, fs: seq<NodeStatus>)
    requires forall i :: 0 <= i < |p.nodeStatus| ==> EntryOk(nm, key, Attempts(p), p.nodeStatus[i])
    requires Moved(nm, key, p.nodeStatus, fs, |p.nodeStatus|, p.maxAttempts)
    ensures forall i :: 0 <= i < |fs| ==> EntryOk(nm, key, Attempts(p), fs[i])
    ensures Tally(fs, Rank(Attempts(p))) + Bit(StatusChanged(p.nodeStatus, fs)) <= Tally(p.nodeStatus, Rank(Attempts(p)))
  {
    var es, m := p.nodeStatus, Rank(Attempts(p));
    forall i | 0 <= i < |es|
      ensures EntryOk(nm, key, Attempts(p), fs[i]) && Weight(m, fs[i]) <= Weight(m, es[i])
      ensures es[i].status != fs[i].status ==> Weight(m, fs[i]) < Weight(m, es[i])
    {
      MoveKeepsEntryOk(nm, key, p, es[i], fs[i]);
    }
    TallyMonotone(fs, es, m);
  }

  /** Summary refinement and the phase decision, for any pass whose moves and counters are in order. */
  lemma Concludes(nm: Namer, key: Key, p: PrePullImage, s: State, now: int)
    requires p.phase.InProgress? && Moved(nm, key, p.nodeStatus, s.entries, |p.nodeStatus|, p.maxAttempts)
    requires Counted(p.nodeStatus, s, |p.nodeStatus|)
    ensures var q := Concluded(p, s, now);
            && q.summary == Recount(q.nodeStatus)
            && q.phase == PhaseOf(q.nodeStatus)
            && (PpiOk(nm, key, p) ==> PpiOk(nm, key, q) && Forward(nm, key, p, q))
  {
    var q := Concluded(p, s, now);
    assert s.entries[..|p.nodeStatus|] == s.entries;
    PhaseFromCounts(s.entries);
    TallyBounds(s.entries, InStatus(Failed));
    if PpiOk(nm, key, p) {
      PassLowersRank(nm, key, p, q.nodeStatus);
    }
  }

  /** The same for every pass that runs in one go, whatever the world answers, and when it asks for a requeue. */
  lemma PassConcludes(nm: Namer, w: World, key: Key, env: Env)
    requires key in w.ppis && w.ppis[key].phase.InProgress?
    ensures var p, s := w.ppis[key], PassOver(nm, w, key, env);
            var q := Concluded(p, s, env.now);
            && Moved(nm, key, p.nodeStatus, q.nodeStatus, |p.nodeStatus|, p.maxAttempts)
            && q.summary == Recount(q.nodeStatus)
            && q.phase == PhaseOf(q.nodeStatus)
            && (s.needsRequeue <==> exists i :: 0 <= i < |p.nodeStatus| && NeedsAttention(p.nodeStatus[i], q.nodeStatus[i]))
            && (PpiOk(nm, key, p) ==> PpiOk(nm, key, q) && Forward(nm, key, p, q))
  {
    hide After;
    var p, s := w.ppis[key], PassOver(nm, w, key, env);
    var s0 := Begin(w.limiter, w.store, w.metrics, p.nodeStatus);
    EntriesMove(nm, key, p, s0, env.weather, |p.nodeStatus|);
    CountersAreARecount(nm, key, p, s0, env.weather, |p.nodeStatus|);
    Concludes(nm, key, p, s, env.now);
  }

  lemma {:induction false} InitialTallies(nodes: seq<string>, m: nat)
    ensures Recount(Initial(nodes)) == Summary(|nodes|, |nodes|, 0, 0, 0)
    ensures Tally(Initial(nodes), Rank(m)) == Budget(|nodes|, m)
    ensures Tally(Initial(nodes), Retries) == 0
    ensures forall s :: Tally(Initial(nodes), Using(s)) == 0
  {
    if nodes != [] {
      var n := |nodes| - 1;
      assert Initial(nodes)[..n] == Initial(nodes[..n]);
      InitialTallies(nodes[..n], m);
      assert (n + 1) * (2 * m + 2) == n * (2 * m + 2) + (2 * m + 2);
    }
  }

  lemma InitialisedOk(nm: Namer, key: Key, p: PrePullImage, nodes: seq<string>)
    requires PpiOk(nm, key, p) && Early(p.phase) && p.finalizer && (p.names != [] ==> nodes == p.names)
    ensures PpiOk(nm, key, Initialised(p, nodes))
  {
    var q := Initialised(p, nodes);
    InitialTallies(nodes, Attempts(p));
    if nodes != [] {
      assert !Terminal(q.nodeStatus[0].status);
      assert p.moves + Tally(p.nodeStatus, Rank(Attempts(p))) <= 0;
    }
  }

  // ---------------------------------------------------------------------------------------------
  // The limiter stays valid
  // ---------------------------------------------------------------------------------------------

  lemma {:induction false} ReleaseAllValid(l: Limiter, es: seq<NodeStatus>)
    requires l.Valid()
    ensures ReleaseAll(l, es).Valid() && ReleaseAll(l, es).Fresh() == l.Fresh()
  {
    if es != [] {
      ReleaseAllValid(l, es[..|es| - 1]);
      ReleaseHolds(ReleaseAll(l, es[..|es| - 1]), es[|es| - 1].node, Whole);
    }
  }

  lemma VerdictKeepsValid(l: Limiter, v: Verdict, node: string)
    requires l.Valid() && (v.Started? ==> l.Grants(node))
    ensures LimiterAfter(l, v, node).Valid() && LimiterAfter(l, v, node).Fresh() == l.Fresh()
  {
    AcquireHolds(l, node, Whole);
    ReleaseHolds(l, node, Whole);
  }

  lemma HandleKeepsValid(nm: Namer, key: Key, p: PrePullImage, s: State, i: nat, w: Weather)
    requires i < |s.entries| && s.limiter.Valid()
    ensures var l := Handle(nm, key, p, s, i, w).limiter; l.Valid() && l.Fresh() == s.limiter.Fresh()
  {
    var e := s.entries[i];
    VerdictKeepsValid(s.limiter, Judge(p, s.limiter, DriftedAll(s.store, w.drift), e, w), e.node);
  }

  lemma {:induction false} PassKeepsValid(nm: Namer, key: Key, p: PrePullImage, s0: State, weather: seq<Weather>, n: nat)
    requires n <= |s0.entries| && s0.limiter.Valid()
    ensures var l := After(nm, key, p, s0, weather, n).limiter; l.Valid() && l.Fresh() == s0.limiter.Fresh()
    decreases n
  {
    hide Handle;
    if n > 0 {
      PassKeepsValid(nm, key, p, s0, weather, n - 1);
      HandleKeepsValid(nm, key, p, After(nm, key, p, s0, weather, n - 1), n - 1, At(weather, n - 1));
    }
  }

  // ---------------------------------------------------------------------------------------------
  // One step
  // ---------------------------------------------------------------------------------------------

  function PhaseRank(p: Phase): nat {
    match p
    case Unset => 0
    case PhasePending => 0
    case InProgress => 1
    case _ => 2
  }

  /** How one recorded PrePullImage may differ from the next record of the same object. */
  predicate Forward(nm: Namer, key: Key, p: PrePullImage, q: PrePullImage) {
    && q.image == p.image && q.names == p.names && q.maxAttempts == p.maxAttempts
    && (p.finalizer ==> q.finalizer) && (p.deleting ==> q.deleting)
    && PhaseRank(p.phase) <= PhaseRank(q.phase)
    && (PhaseRank(p.phase) == 2 ==> q == p.(deleting := q.deleting))
    && (PhaseRank(p.phase) == 1 ==> Moved(nm, key, p.nodeStatus, q.nodeStatus, |p.nodeStatus|, p.maxAttempts))
    && (PhaseRank(p.phase) == 0 ==> forall i :: 0 <= i < |q.nodeStatus| ==> q.nodeStatus[i].status.Pending?)
  }

  /** What a reconcile keeps, and how it may change the PrePullImage with the given key. */
  predicate Advances(nm: Namer, w: World, v: World, key: Key) {
    && OkAt(nm, v, key)
    && v.limiter.Fresh() == w.limiter.Fresh()
    && v.ppis.Keys <= w.ppis.Keys
    && (forall k :: k in w.ppis && k != key ==> k in v.ppis && v.ppis[k] == w.ppis[k])
    && (key in v.ppis ==> Forward(nm, key, w.ppis[key], v.ppis[key]))
  }

  lemma ForwardToSelf(nm: Namer, key: Key, p: PrePullImage)
    requires PpiOk(nm, key, p)
    ensures Forward(nm, key, p, p)
    ensures p.finalizer ==> var q := p.(deleting := true); PpiOk(nm, key, q) && Forward(nm, key, p, q)
    ensures var q := p.(finalizer := true); PpiOk(nm, key, q) && Forward(nm, key, p, q)
  {
  }

  lemma WritingAdvances(nm: Namer, w: World, v: World, key: Key, q: PrePullImage)
    requires OkAt(nm, w, key) && key in w.ppis && v.limiter.Valid() && v.limiter.Fresh() == w.limiter.Fresh()
    requires PpiOk(nm, key, q) && Forward(nm, key, w.ppis[key], q)
    requires v.ppis == w.ppis || v.ppis == w.ppis[key := q] || v.ppis == w.ppis - {key}
    ensures Advances(nm, w, v, key)
  {
    ForwardToSelf(nm, key, w.ppis[key]);
  }

  lemma InProgressAdvances(nm: Namer, w: World, key: Key, env: Env)
    requires OkAt(nm, w, key) && key in w.ppis && w.ppis[key].phase.InProgress?
    ensures Advances(nm, w, HandleInProgress(nm, w, key, env).world, key)
  {
    var p, s := w.ppis[key], PassOver(nm, w, key, env);
    var q := Concluded(p, s, env.now);
    PassKeepsValid(nm, key, p, Begin(w.limiter, w.store, w.metrics, p.nodeStatus), env.weather, |p.nodeStatus|);
    PassConcludes(nm, w, key, env);
    WritingAdvances(nm, w, HandleInProgress(nm, w, key, env).world, key, q);
  }

  lemma PendingAdvances(nm: Namer, w: World, key: Key, env: Env)
    requires OkAt(nm, w, key) && key in w.ppis && Early(w.ppis[key].phase) && w.ppis[key].finalizer
    ensures Advances(nm, w, HandlePending(w, key, env).world, key)
  {
    var p := w.ppis[key];
    match Targets(p, env)
    case None => ForwardToSelf(nm, key, p);
    case Some(nodes) =>
      InitialisedOk(nm, key, p, nodes);
      WritingAdvances(nm, w, HandlePending(w, key, env).world, key, Initialised(p, nodes));
  }

  lemma ReconcileAdvances(nm: Namer, w: World, key: Key, env: Env)
    requires OkAt(nm, w, key)
    ensures Advances(nm, w, Reconcile(nm, w, key, env).world, key)
  {
    if key in w.ppis {
      var p := w.ppis[key];
      ForwardToSelf(nm, key, p);
      if p.deleting {
        ReleaseAllValid(w.limiter, p.nodeStatus);
        WritingAdvances(nm, w, HandleDeletion(w, key, env).world, key, p);
      } else if p.finalizer {
        if p.phase.InProgress? {
          InProgressAdvances(nm, w, key, env);
        } else if Early(p.phase) {
          PendingAdvances(nm, w, key, env);
        } else {
          WritingAdvances(nm, w, HandleCompleted(w, key, env).world, key, p.(deleting := true));
        }
      } else {
        WritingAdvances(nm, w, Reconcile(nm, w, key, env).world, key, p.(finalizer := true));
      }
    }
  }

  /** A reconcile whose write fails leaves the records alone. */
  lemma FailedWriteKeeps(nm: Namer, w: World, key: Key, env: Env)
    requires OkAt(nm, w, key) && env.writeFails
    ensures var v := Reconcile(nm, w, key, env).world;
            && v.ppis == w.ppis && v.limiter.Fresh() == w.limiter.Fresh()
            && v.past.restarts == w.past.restarts && v.past.crashed == w.past.crashed && v.past.left == w.past.left
            && w.past.lostStops <= v.past.lostStops
  {
    ReconcileAdvances(nm, w, key, env);
    hide Tally;
    hide ReleaseAll;
    hide PullingNodes;
    hide FullPass;
  }

  /** Phases only move forward, terminal records do not change, and entries only make the listed moves;
      whatever the step, and for every PrePullImage that is there before and after it. */
  lemma StepForward(nm: Namer, w: World, step: Step)
    requires AllOk(nm, w)
    ensures var v := Apply(nm, w, step);
            && AllOk(nm, v)
            && v.limiter.Fresh() == w.limiter.Fresh()
            && (forall k :: k in w.ppis && k in v.ppis ==> Forward(nm, k, w.ppis[k], v.ppis[k]))
  {
    forall k | k in w.ppis ensures Forward(nm, k, w.ppis[k], w.ppis[k]) {
      ForwardToSelf(nm, k, w.ppis[k]);
    }
    match step
    case Submit(k, image, names, max) => assert k !in w.ppis ==> PpiOk(nm, k, Submitted(image, names, max));
    case RequestDelete(k) =>
      if k in w.ppis {
        ForwardToSelf(nm, k, w.ppis[k]);
      }
      hide PpiOk;
      hide Forward;
    case Visit(k, env) =>
      ReconcileAdvances(nm, w, k, env);
      hide Reconcile;
      hide PpiOk;
      hide Forward;
    case Crash(k, env) => FailedWriteKeeps(nm, w, k, env.(writeFails := true));
    case _ =>
  }

  /** Every reachable state keeps the books of every PrePullImage, and the limits never change. */
  lemma {:induction false} RunsKeepAllOk(nm: Namer, maxPulls: int, maxPerNode: int, steps: seq<Step>)
    ensures var w := Run(nm, Start(maxPulls, maxPerNode), steps);
            AllOk(nm, w) && w.limiter.Fresh() == NewLimiter(maxPulls, maxPerNode)
  {
    if steps != [] {
      RunsKeepAllOk(nm, maxPulls, maxPerNode, steps[..|steps| - 1]);
      StepForward(nm, Run(nm, Start(maxPulls, maxPerNode), steps[..|steps| - 1]), steps[|steps| - 1]);
    }
  }

  /** What a reader of any PrePullImage finds, in every reachable state: an entry for each listed node; a
      summary that adds up; a phase that is terminal exactly when every entry is, and Completed exactly when
      every entry is; and an attempt count per entry, one more than the retries for a pull that failed for
      good after using up all of them. */
  lemma EveryRecord(nm: Namer, maxPulls: int, maxPerNode: int, steps: seq<Step>, key: Key)
    requires key in Run(nm, Start(maxPulls, maxPerNode), steps).ppis
    ensures var p := Run(nm, Start(maxPulls, maxPerNode), steps).ppis[key];
            var es, sum := p.nodeStatus, p.summary;
            && (p.names != [] && !Early(p.phase) ==> Serves(es, p.names))
            && sum.pending + sum.pulling + sum.completed + sum.failed == sum.total == |es|
            && (Early(p.phase) ==> es == [])
            && (!Early(p.phase) ==>
                  && (PhaseRank(p.phase) == 2 <==> forall i :: 0 <= i < |es| ==> Terminal(es[i].status))
                  && (p.phase.PhaseCompleted? <==> forall i :: 0 <= i < |es| ==> es[i].status.Completed?))
            && (forall i :: 0 <= i < |es| ==>
                  && 0 <= es[i].retryCount <= Attempts(p)
                  && es[i].starts == es[i].retryCount + (if es[i].status.Pending? then 0 else 1)
                  && (es[i].status.Failed? ==> es[i].starts == Attempts(p) + 1))
  {
    hide Run;
    RunsKeepAllOk(nm, maxPulls, maxPerNode, steps);
    var p := Run(nm, Start(maxPulls, maxPerNode), steps).ppis[key];
    assert PpiOk(nm, key, p);
    RecountAddsUp(p.nodeStatus);
    forall i | 0 <= i < |p.nodeStatus| ensures EntryOk(nm, key, Attempts(p), p.nodeStatus[i]) {
    }
  }
}
