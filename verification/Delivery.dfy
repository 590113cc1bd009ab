/** What a user gets from submitting and withdrawing a PrePullImage, told from its specification and the node list. */
module Delivery {
  import opened RateLimiting
  import opened Naming
  import opened Cluster
  import opened Pass
  import opened System
  import opened Lifecycle
  import opened Ledger
  import opened Jobs
  import opened Soundness
  import opened Progress

  // ---------------------------------------------------------------------------------------------
  // The target nodes
  // ---------------------------------------------------------------------------------------------

  /** The nodes a specification asks for: those it names, or every node listed if it names none. */
  function Wanted(names: seq<string>, listed: seq<string>): seq<string> {
    if |names| == 0 then listed else names
  }

  /** The reconcile that takes up a PrePullImage gives it one Pending entry for every node it asks for, in order. */
  lemma TargetsAreServed(nm: Namer, w: World, key: Key, env: Env)
    requires AllOk(nm, w) && key in w.ppis && Early(w.ppis[key].phase)
    requires var v := Reconcile(nm, w, key, env).world; key in v.ppis && !Early(v.ppis[key].phase)
    ensures w.ppis[key].names == [] ==> env.listed.Some?
    ensures var p, q := w.ppis[key], Reconcile(nm, w, key, env).world.ppis[key];
            && Serves(q.nodeStatus, Wanted(p.names, if env.listed.Some? then env.listed.value else []))
            && (forall i :: 0 <= i < |q.nodeStatus| ==> q.nodeStatus[i].status.Pending?)
            && (q.phase.PhaseCompleted? <==> q.nodeStatus == [])
            && Reconcile(nm, w, key, env).outcome == (if q.nodeStatus == [] then Stop else Requeue)
  {
    assert PpiOk(nm, key, w.ppis[key]);
  }

  /** Before that an object gets its finalizer, and nothing else happens. So from submission on, two reconciles whose
      calls succeed are enough to take it up. */
  lemma TakenUpInTwoReconciles(nm: Namer, w: World, key: Key, image: string, names: seq<string>, maxAttempts: int, e1: Env, e2: Env)
    requires AllOk(nm, w) && key !in w.ppis
    requires !e1.getFails && !e1.writeFails && !e2.getFails && !e2.writeFails && (names == [] ==> e2.listed.Some?)
    ensures var submitted := Apply(nm, w, Submit(key, image, names, maxAttempts));
            var first := Reconcile(nm, submitted, key, e1);
            var second := Reconcile(nm, first.world, key, e2);
            && key in submitted.ppis && submitted.ppis[key].names == names
            && submitted.ppis[key].image == image && submitted.ppis[key].maxAttempts == maxAttempts
            && first == Reply(submitted.(ppis := submitted.ppis[key := submitted.ppis[key].(finalizer := true)]), Requeue)
            && key in second.world.ppis && !Early(second.world.ppis[key].phase)
  {
  }

  /** The object is there all the time. */
  ghost predicate Stays(nm: Namer, w: World, steps: seq<Step>, key: Key) {
    forall n :: 0 <= n <= |steps| ==> key in Run(nm, w, steps[..n]).ppis
  }

  lemma ServesStill(nm: Namer, key: Key, p: PrePullImage, q: PrePullImage, nodes: seq<string>)
    requires PhaseRank(p.phase) != 0 && Serves(p.nodeStatus, nodes) && Forward(nm, key, p, q)
    ensures PhaseRank(q.phase) != 0 && Serves(q.nodeStatus, nodes)
  {
    if PhaseRank(p.phase) == 1 {
      forall i | 0 <= i < |q.nodeStatus| ensures q.nodeStatus[i].node == nodes[i] {
        assert Move(p.nodeStatus[i], q.nodeStatus[i], p.maxAttempts);
      }
    }
  }

  /** As long as the object is there its entries are for the same nodes. */
  lemma {:induction false} ServedForEver(nm: Namer, w: World, steps: seq<Step>, key: Key, nodes: seq<string>)
    requires AllOk(nm, w) && Stays(nm, w, steps, key)
    requires key in w.ppis && !Early(w.ppis[key].phase) && Serves(w.ppis[key].nodeStatus, nodes)
    ensures var v := Run(nm, w, steps);
            AllOk(nm, v) && key in v.ppis && !Early(v.ppis[key].phase) && Serves(v.ppis[key].nodeStatus, nodes)
  {
    hide AllOk;
    assert steps[..|steps|] == steps;
    if steps != [] {
      var before, step := steps[..|steps| - 1], steps[|steps| - 1];
      assert forall n :: 0 <= n <= |before| ==> before[..n] == steps[..n];
      ServedForEver(nm, w, before, key, nodes);
      var u := Run(nm, w, before);
      StepForward(nm, u, step);
      hide Apply;
      ServesStill(nm, key, u.ppis[key], Run(nm, w, steps).ppis[key], nodes);
    }
  }

  // ---------------------------------------------------------------------------------------------
  // Delivered
  // ---------------------------------------------------------------------------------------------

  /** node is one of the nodes that the object asks for when env takes it up. */
  predicate AsksFor(p: PrePullImage, env: Env, node: string) {
    node in p.names || (p.names == [] && env.listed.Some? && node in env.listed.value)
  }

  /** In w the reconcile takes up the object, which asks for the node and is there ever after. */
  ghost predicate TakesUp(nm: Namer, w: World, key: Key, env: Env, node: string, after: seq<Step>) {
    var v := Reconcile(nm, w, key, env).world;
    && key in w.ppis && Early(w.ppis[key].phase) && AsksFor(w.ppis[key], env, node)
    && key in v.ppis && !Early(v.ppis[key].phase) && Stays(nm, v, after, key)
  }

  lemma CompletedAt(nm: Namer, w: World, key: Key, env: Env, after: seq<Step>, node: string) returns (i: nat)
    requires AllOk(nm, w) && TakesUp(nm, w, key, env, node, after)
    requires var u := Run(nm, Reconcile(nm, w, key, env).world, after); key in u.ppis && u.ppis[key].phase.PhaseCompleted?
    ensures var es := Run(nm, Reconcile(nm, w, key, env).world, after).ppis[key].nodeStatus;
            i < |es| && es[i].node == node && es[i].status.Completed?
  {
    var v := Reconcile(nm, w, key, env).world;
    TargetsAreServed(nm, w, key, env);
    VisitForward(nm, w, key, env);
    hide Reconcile;
    hide Run;
    var wanted := Wanted(w.ppis[key].names, if env.listed.Some? then env.listed.value else []);
    ServedForEver(nm, v, after, key, wanted);
    var p := Run(nm, v, after).ppis[key];
    assert PpiOk(nm, key, p);
    i :| 0 <= i < |wanted| && wanted[i] == node;
    assert Terminal(p.nodeStatus[i].status);
  }

  /** The promise to the user, for every run: from the reconcile that takes up a PrePullImage on, whenever its phase is
      Completed its image has been pulled on every node that its specification names, or, if it names none, on every
      node that was listed then. The conditions are those of OperatorIsSound: one namespace, short names, a hash that
      tells the nodes apart, and cleanup that does not fail. */
  lemma EveryTargetPulled(h: Digest, maxPulls: int, maxPerNode: int, steps: seq<Step>, t: nat, key: Key, env: Env,
                          namespace: string, nodes: set<string>, node: string)
    requires forall j :: 0 <= j < |steps| ==> Tame(steps[j], namespace, nodes)
    requires forall j :: 0 <= j < |steps| ==> CleansUp(steps[j])
    requires TellsApart(h, nodes)
    requires t < |steps| && steps[t] == Visit(key, env)
    requires TakesUp(JobNamer(h), Run(JobNamer(h), Start(maxPulls, maxPerNode), steps[..t]), key, env, node, steps[t + 1..])
    requires var u := Run(JobNamer(h), Start(maxPulls, maxPerNode), steps); key in u.ppis && u.ppis[key].phase.PhaseCompleted?
    ensures var u := Run(JobNamer(h), Start(maxPulls, maxPerNode), steps); (u.ppis[key].image, node) in u.store.pulled
  {
    hide *;
    var i := CompletedAfter(JobNamer(h), maxPulls, maxPerNode, steps, t, key, env, node);
    OperatorIsSound(h, maxPulls, maxPerNode, steps, namespace, nodes, key, i);
  }

  lemma CompletedAfter(nm: Namer, maxPulls: int, maxPerNode: int, steps: seq<Step>, t: nat, key: Key, env: Env, node: string)
    returns (i: nat)
    requires t < |steps| && steps[t] == Visit(key, env)
    requires TakesUp(nm, Run(nm, Start(maxPulls, maxPerNode), steps[..t]), key, env, node, steps[t + 1..])
    requires var u := Run(nm, Start(maxPulls, maxPerNode), steps); key in u.ppis && u.ppis[key].phase.PhaseCompleted?
    ensures var es := Run(nm, Start(maxPulls, maxPerNode), steps).ppis[key].nodeStatus;
            i < |es| && es[i].node == node && es[i].status.Completed?
  {
    hide Reconcile;
    hide Stays;
    hide AllOk;
    RunsKeepAllOk(nm, maxPulls, maxPerNode, steps[..t]);
    RunTakingUp(nm, Start(maxPulls, maxPerNode), steps, t, key, env);
    i := CompletedAt(nm, Run(nm, Start(maxPulls, maxPerNode), steps[..t]), key, env, steps[t + 1..], node);
  }

  lemma RunTakingUp(nm: Namer, w: World, steps: seq<Step>, t: nat, key: Key, env: Env)
    requires t < |steps| && steps[t] == Visit(key, env)
    ensures Run(nm, w, steps) == Run(nm, Reconcile(nm, Run(nm, w, steps[..t]), key, env).world, steps[t + 1..])
  {
    RunInParts(nm, w, steps[..t + 1], steps[t + 1..]);
    assert steps[..t + 1] + steps[t + 1..] == steps;
    assert steps[..t + 1][..t] == steps[..t];
  }

  // ---------------------------------------------------------------------------------------------
  // Withdrawn
  // ---------------------------------------------------------------------------------------------

  /** A job carries the name of a PrePullImage as its label; the label does not say which namespace. */
  predicate Carries(j: Job, name: string) {
    j.owner.name == name
  }

  /** The reconcile of a withdrawn object gives back the units of its Pulling entries, as far as they are held, and
      removes every job that carries its name, but for those a failing cleanup leaves; no other job is changed. The
      object is gone then, unless the last write fails, in which case all records are as before. */
  lemma WithdrawalCompletes(nm: Namer, w: World, key: Key, env: Env, slot: Slot)
    requires AllOk(nm, w) && key in w.ppis && w.ppis[key].deleting && !env.getFails
    ensures var r, es := Reconcile(nm, w, key, env), w.ppis[key].nodeStatus;
            var v := r.world;
            && (if env.writeFails then r.outcome.Error? && v.ppis == w.ppis else r.outcome.Stop? && v.ppis == w.ppis - {key})
            && (forall n :: n in v.store.jobs <==> n in w.store.jobs && (Carries(w.store.jobs[n], key.name) ==> n in env.kept))
            && (forall n :: n in v.store.jobs && !Carries(w.store.jobs[n], key.name) ==> v.store.jobs[n] == w.store.jobs[n])
            && (var left := w.limiter.Held(slot) - Tally(es, Using(slot)); left <= v.limiter.Held(slot) <= Positive(left))
            && v.metrics.active == w.metrics.active - Tally(es, InStatus(Pulling))
  {
    assert PpiOk(nm, key, w.ppis[key]);
    FinalizerBalances(w.limiter, w.ppis[key].nodeStatus, slot);
    hide ReleaseAll;
    hide Tally;
    hide PullingNodes;
  }

  /** It spares the jobs of all other objects exactly if no job of another object carries its name: a namesake in
      another namespace loses its jobs, running ones included. */
  lemma WithdrawalSparesOthersExactlyWhen(nm: Namer, w: World, key: Key, env: Env)
    requires AllOk(nm, w) && key in w.ppis && w.ppis[key].deleting && !env.getFails && !env.writeFails && env.kept == {}
    ensures var v := Reconcile(nm, w, key, env).world;
            (forall n :: n in w.store.jobs && w.store.jobs[n].owner != key ==> n in v.store.jobs && v.store.jobs[n] == w.store.jobs[n])
            <==> (forall n :: n in w.store.jobs && w.store.jobs[n].owner != key ==> w.store.jobs[n].owner.name != key.name)
  {
    WithdrawalCompletes(nm, w, key, env, Whole);
    hide Reconcile;
  }

  // ---------------------------------------------------------------------------------------------
  // Errors
  // ---------------------------------------------------------------------------------------------

  /** The object needs the node list: it is being taken up and names no node. */
  predicate NeedsNodes(p: PrePullImage) {
    p.finalizer && !p.deleting && Early(p.phase) && p.names == []
  }

  /** Nothing is written: the object is finished, not withdrawn, and has not expired. */
  predicate AtRest(p: PrePullImage, now: int) {
    p.finalizer && !p.deleting && PhaseRank(p.phase) == 2 && !Expired(p, now)
  }

  /** Exactly when a reconcile returns an error: the object cannot be read, the nodes it needs cannot be listed, or
      the write it makes fails. Then no record has changed. For an object that is not there nothing is left to do. */
  lemma ErrsExactlyWhen(nm: Namer, w: World, key: Key, env: Env)
    requires AllOk(nm, w)
    ensures var r := Reconcile(nm, w, key, env);
            && (r.outcome.Error? <==>
                  || env.getFails
                  || (key in w.ppis && NeedsNodes(w.ppis[key]) && env.listed.None?)
                  || (key in w.ppis && !AtRest(w.ppis[key], env.now) && env.writeFails))
            && (r.outcome.Error? ==> r.world.ppis == w.ppis)
            && (env.getFails ==> r.world == w)
            && (!env.getFails && key !in w.ppis ==> r == Reply(w, Stop))
  {
    if key in w.ppis {
      assert PpiOk(nm, key, w.ppis[key]);
    }
    hide FullPass;
    hide ReleaseAll;
    hide Tally;
    hide PullingNodes;
  }
}
