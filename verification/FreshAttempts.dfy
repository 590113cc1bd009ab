/** Every attempt is a new job: a retry does not run into the remains of the attempt before. */
module FreshAttempts {
  import opened Cluster
  import opened Pass
  import opened System
  import opened Lifecycle
  import opened Jobs
  import opened Ties

  /** No two entries anywhere share a job name. */
  predicate Separate(nm: Namer, ppis: map<Key, PrePullImage>) {
    forall k1, k2, i1, i2 ::
      k1 in ppis && k2 in ppis
      && 0 <= i1 < |ppis[k1].nodeStatus| && 0 <= i2 < |ppis[k2].nodeStatus|
      && nm(k1.name, ppis[k1].nodeStatus[i1].node) == nm(k2.name, ppis[k2].nodeStatus[i2].node)
      ==> k1 == k2 && i1 == i2
  }

  /** The entry's last start found no job in its way, or one that nobody answered for: its record had been lost,
      its deletion had failed, or a failed cleanup had left it behind. */
  predicate StartedFresh(e: NodeStatus) {
    e.found.Some? ==> !e.found.value.tie.Bound?
  }

  predicate AllStartedFresh(ppis: map<Key, PrePullImage>) {
    forall k, i :: k in ppis && 0 <= i < |ppis[k].nodeStatus| ==> StartedFresh(ppis[k].nodeStatus[i])
  }

  // ---------------------------------------------------------------------------------------------
  // One pass
  // ---------------------------------------------------------------------------------------------

  /** During a pass over key, whose targets have not changed. */
  predicate PassFresh(nm: Namer, ppis: map<Key, PrePullImage>, key: Key, s: State) {
    && key in ppis && SameNodes(s.entries, ppis[key].nodeStatus)
    && StoreOk(nm, With(ppis, key, s.entries), s.store)
    && (forall i :: 0 <= i < |s.entries| ==> StartedFresh(s.entries[i]))
  }

  /** A job under the name of an entry is that entry's own, unless its PrePullImage is gone. */
  lemma JobUnderNameIsOwn(nm: Namer, ppis: map<Key, PrePullImage>, key: Key, i: nat, name: string, j: Job)
    requires Separate(nm, ppis) && JobOk(nm, ppis, name, j) && key in ppis && i < |ppis[key].nodeStatus|
    requires name == nm(key.name, ppis[key].nodeStatus[i].node)
    ensures !j.tie.Orphaned? ==> j.owner == key && j.index == i
    ensures j.tie.Bound? ==> !ppis[key].nodeStatus[i].status.Pending?
  {
    if !j.tie.Orphaned? {
      assert nm(j.owner.name, ppis[j.owner].nodeStatus[j.index].node) == name;
    }
  }

  lemma SeparateWith(nm: Namer, ppis: map<Key, PrePullImage>, key: Key, es: seq<NodeStatus>)
    requires Separate(nm, ppis) && key in ppis && SameNodes(es, ppis[key].nodeStatus)
    ensures Separate(nm, With(ppis, key, es))
  {
  }

  lemma HandleKeepsFresh(nm: Namer, ppis: map<Key, PrePullImage>, key: Key, s: State, i: nat, w: Weather)
    requires Separate(nm, ppis) && PassFresh(nm, ppis, key, s) && i < |s.entries|
    ensures PassFresh(nm, ppis, key, Handle(nm, key, ppis[key], s, i, w))
  {
    var drifted, view := DriftedAll(s.store, w.drift), With(ppis, key, s.entries);
    HandleMoves(nm, key, ppis[key], s, i, w);
    HandleKeepsStoreOk(nm, ppis, key, ppis[key], s, i, w);
    DriftIsDrift(s.store, w.drift);
    hide DriftedAll;
    DriftKeepsStoreOk(nm, view, s.store, drifted);
    SeparateWith(nm, ppis, key, s.entries);
    var name := nm(key.name, s.entries[i].node);
    if name in drifted.jobs {
      JobUnderNameIsOwn(nm, view, key, i, name, drifted.jobs[name]);
    }
    hide StoreOk;
    hide Separate;
  }

  lemma {:induction false} PassKeepsFresh(nm: Namer, ppis: map<Key, PrePullImage>, key: Key, s0: State,
                                          weather: seq<Weather>, n: nat)
    requires n <= |s0.entries| && Separate(nm, ppis) && PassFresh(nm, ppis, key, s0)
    ensures PassFresh(nm, ppis, key, After(nm, key, ppis[key], s0, weather, n))
    decreases n
  {
    hide Handle;
    hide Separate;
    if n > 0 {
      PassKeepsFresh(nm, ppis, key, s0, weather, n - 1);
      HandleKeepsFresh(nm, ppis, key, After(nm, key, ppis[key], s0, weather, n - 1), n - 1, At(weather, n - 1));
    }
  }

  // ---------------------------------------------------------------------------------------------
  // Runs
  // ---------------------------------------------------------------------------------------------

  lemma ReconcileFresh(nm: Namer, w: World, key: Key, env: Env)
    requires AllOk(nm, w) && JobsOk(nm, w) && Separate(nm, w.ppis) && AllStartedFresh(w.ppis)
    ensures AllStartedFresh(Reconcile(nm, w, key, env).world.ppis)
  {
    hide Separate;
    hide After;
    hide Tally;
    if key in w.ppis && !env.getFails {
      var p := w.ppis[key];
      if p.deleting {
      } else if p.finalizer && p.phase.InProgress? {
        assert With(w.ppis, key, p.nodeStatus) == w.ppis;
        PassKeepsFresh(nm, w.ppis, key, Begin(w.limiter, w.store, w.metrics, p.nodeStatus), env.weather, |p.nodeStatus|);
      } else {
        QuietWrites(nm, w, key, env);
        hide Reconcile;
      }
    }
  }

  lemma StepFresh(nm: Namer, w: World, step: Step)
    requires AllOk(nm, w) && JobsOk(nm, w) && Separate(nm, w.ppis) && AllStartedFresh(w.ppis)
    ensures AllStartedFresh(Apply(nm, w, step).ppis)
  {
    hide Separate;
    hide JobsOk;
    hide Reconcile;
    match step
    case Visit(k, env) => ReconcileFresh(nm, w, k, env);
    case Crash(k, env) => FailedWriteKeeps(nm, w, k, env.(writeFails := true));
    case _ =>
  }

  /** Job names tell entries apart in every state the run goes through. */
  ghost predicate AlwaysSeparate(nm: Namer, w: World, steps: seq<Step>) {
    Separate(nm, Run(nm, w, steps).ppis) && (steps != [] ==> AlwaysSeparate(nm, w, steps[..|steps| - 1]))
  }

  lemma {:induction false} RunsStartFresh(nm: Namer, maxPulls: int, maxPerNode: int, steps: seq<Step>)
    requires AlwaysSeparate(nm, Start(maxPulls, maxPerNode), steps)
    ensures AllStartedFresh(Run(nm, Start(maxPulls, maxPerNode), steps).ppis)
  {
    if steps != [] {
      var before := steps[..|steps| - 1];
      RunsStartFresh(nm, maxPulls, maxPerNode, before);
      RunsKeepAllOk(nm, maxPulls, maxPerNode, before);
      RunsKeepJobs(nm, maxPulls, maxPerNode, before);
      assert Separate(nm, Run(nm, Start(maxPulls, maxPerNode), before).ppis);
      StepFresh(nm, Run(nm, Start(maxPulls, maxPerNode), before), steps[|steps| - 1]);
    }
  }

  /** In every run in which job names tell entries apart, and for every entry in every reachable state: its last
      start, first attempt or retry, was not on the job of another attempt, unless nobody answered for that
      one; and while it is Pulling, a bound job under its name is one it made itself. */
  lemma EveryStartIsFresh(nm: Namer, maxPulls: int, maxPerNode: int, steps: seq<Step>, key: Key, i: nat)
    requires AlwaysSeparate(nm, Start(maxPulls, maxPerNode), steps)
    requires var w := Run(nm, Start(maxPulls, maxPerNode), steps); key in w.ppis && i < |w.ppis[key].nodeStatus|
    ensures var w := Run(nm, Start(maxPulls, maxPerNode), steps);
            var e := w.ppis[key].nodeStatus[i];
            && StartedFresh(e)
            && (e.status.Pulling? && e.jobName in w.store.jobs && w.store.jobs[e.jobName].tie.Bound? ==>
                  w.store.jobs[e.jobName].owner == key && w.store.jobs[e.jobName].index == i)
  {
    hide Run;
    var w := Run(nm, Start(maxPulls, maxPerNode), steps);
    RunsStartFresh(nm, maxPulls, maxPerNode, steps);
    RunsKeepAllOk(nm, maxPulls, maxPerNode, steps);
    RunsKeepJobs(nm, maxPulls, maxPerNode, steps);
    assert Separate(nm, w.ppis);
    var e := w.ppis[key].nodeStatus[i];
    assert PpiOk(nm, key, w.ppis[key]);
    assert EntryOk(nm, key, Attempts(w.ppis[key]), e);
    if e.status.Pulling? && e.jobName in w.store.jobs {
      JobUnderNameIsOwn(nm, w.ppis, key, i, e.jobName, w.store.jobs[e.jobName]);
    }
  }

  // ---------------------------------------------------------------------------------------------
  // When nothing leaves a job behind
  // ---------------------------------------------------------------------------------------------

  /** If moreover no write is lost, no creation reports an error after it worked, and no deletion of a job fails,
      every attempt ever started was on a job made for it. */
  lemma EveryAttemptHasItsOwnJob(nm: Namer, maxPulls: int, maxPerNode: int, steps: seq<Step>, key: Key, i: nat)
    requires AlwaysSeparate(nm, Start(maxPulls, maxPerNode), steps)
    requires forall j :: 0 <= j < |steps| ==> StepKeeps(steps[j], {Bound})
    requires var w := Run(nm, Start(maxPulls, maxPerNode), steps); key in w.ppis && i < |w.ppis[key].nodeStatus|
    ensures Run(nm, Start(maxPulls, maxPerNode), steps).ppis[key].nodeStatus[i].found == None
  {
    hide Run;
    EveryStartIsFresh(nm, maxPulls, maxPerNode, steps, key, i);
    RunsKeepTies(nm, maxPulls, maxPerNode, steps, {Bound});
    assert FoundIn(Run(nm, Start(maxPulls, maxPerNode), steps).ppis[key].nodeStatus[i], {Bound});
  }
}
