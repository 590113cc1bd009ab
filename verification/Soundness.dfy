/** "Completed" means the image was pulled on that node, exactly as far as job names tell pulls apart. */
module Soundness {
  import opened RateLimiting
  import opened Naming
  import opened Cluster
  import opened Pass
  import opened System
  import opened Lifecycle
  import opened Ledger
  import opened Jobs
  import opened Ties

  /** A reported success is in the record of pulls. */
  predicate StoreGenuine(store: JobStore) {
    forall n :: n in store.jobs && store.jobs[n].succeeded > 0 ==> (store.jobs[n].image, store.jobs[n].node) in store.pulled
  }

  /** The entry was started on the remains of a deleted PrePullImage: a job for another image or node that a
      failed cleanup had left behind. */
  predicate Misled(e: NodeStatus, image: string) {
    e.found.Some? && e.found.value.tie.Orphaned? && (e.found.value.image, e.found.value.node) != (image, e.node)
  }

  /** Unless it was misled at its last start, a Completed entry's image has been pulled on the entry's own node;
      and as long as it is Pulling, the job it watches is one for that image and node. */
  predicate EntryGenuine(nm: Namer, key: Key, image: string, store: JobStore, e: NodeStatus) {
    && (e.status.Pulling? ==> e.jobName == nm(key.name, e.node))
    && (e.status.Completed? && !Misled(e, image) ==> (image, e.node) in store.pulled)
    && (e.status.Pulling? && !Misled(e, image) && e.jobName in store.jobs ==>
          store.jobs[e.jobName].image == image && store.jobs[e.jobName].node == e.node)
  }

  predicate EntriesGenuine(nm: Namer, ppis: map<Key, PrePullImage>, store: JobStore) {
    forall k, i :: k in ppis && 0 <= i < |ppis[k].nodeStatus|
      ==> EntryGenuine(nm, k, ppis[k].image, store, ppis[k].nodeStatus[i])
  }

  /** Two pulls wanted by live PrePullImages share a job name only if they are the same pull. */
  predicate NoClash(nm: Namer, ppis: map<Key, PrePullImage>) {
    forall k1, k2, i1, i2 ::
      k1 in ppis && k2 in ppis
      && 0 <= i1 < |ppis[k1].nodeStatus| && 0 <= i2 < |ppis[k2].nodeStatus|
      && nm(k1.name, ppis[k1].nodeStatus[i1].node) == nm(k2.name, ppis[k2].nodeStatus[i2].node)
      ==> ppis[k1].image == ppis[k2].image && ppis[k1].nodeStatus[i1].node == ppis[k2].nodeStatus[i2].node
  }

  // ---------------------------------------------------------------------------------------------
  // One pass
  // ---------------------------------------------------------------------------------------------

  /** From s to t no job changes its target, and a new one is called name and pulls image on node. */
  predicate Alters(s: JobStore, t: JobStore, name: string, image: string, node: string) {
    && s.pulled <= t.pulled
    && forall n :: n in t.jobs ==>
         || (n in s.jobs && t.jobs[n].image == s.jobs[n].image && t.jobs[n].node == s.jobs[n].node)
         || (n == name && t.jobs[n].image == image && t.jobs[n].node == node)
  }

  lemma {:induction false} DriftGenuine(s: JobStore, ds: seq<Drift>)
    requires StoreGenuine(s)
    ensures StoreGenuine(DriftedAll(s, ds))
    decreases ds
  {
    if ds != [] {
      DriftGenuine(Drifted(s, ds[0]), ds[1..]);
    }
  }

  lemma HandleAlters(nm: Namer, key: Key, p: PrePullImage, s: State, i: nat, w: Weather)
    requires i < |s.entries| && StoreGenuine(s.store)
    ensures var t, node := Handle(nm, key, p, s, i, w), s.entries[i].node;
            && StoreGenuine(t.store) && Alters(s.store, t.store, nm(key.name, node), p.image, node)
  {
    DriftIsDrift(s.store, w.drift);
    DriftGenuine(s.store, w.drift);
    hide DriftedAll;
  }

  /** Entries that are not handled stay genuine, because a new job under their name would be for the same pull. */
  lemma BystanderGenuine(nm: Namer, k: Key, image: string, e: NodeStatus, s: JobStore, t: JobStore,
                         name: string, image2: string, node2: string)
    requires EntryGenuine(nm, k, image, s, e) && Alters(s, t, name, image2, node2)
    requires nm(k.name, e.node) == name ==> image == image2 && e.node == node2
    ensures EntryGenuine(nm, k, image, t, e)
  {
  }

  /** The step that could go wrong: starting on whatever job is found under the entry's job name. If names do
      not clash, a job that its PrePullImage has not left behind is for this very pull. */
  lemma AdoptedIsOwn(nm: Namer, ppis: map<Key, PrePullImage>, key: Key, i: nat, name: string, j: Job)
    requires NoClash(nm, ppis) && key in ppis && i < |ppis[key].nodeStatus|
    requires name == nm(key.name, ppis[key].nodeStatus[i].node) && JobOk(nm, ppis, name, j)
    ensures j.tie.Orphaned? || (j.image == ppis[key].image && j.node == ppis[key].nodeStatus[i].node)
  {
    if !j.tie.Orphaned? {
      assert nm(j.owner.name, ppis[j.owner].nodeStatus[j.index].node) == nm(key.name, ppis[key].nodeStatus[i].node);
    }
  }

  /** During a pass over key: the entries as recorded, and those of the pass. */
  predicate PassGenuine(nm: Namer, ppis: map<Key, PrePullImage>, key: Key, s: State) {
    && key in ppis && SameNodes(s.entries, ppis[key].nodeStatus)
    && StoreOk(nm, With(ppis, key, s.entries), s.store) && StoreGenuine(s.store)
    && EntriesGenuine(nm, ppis, s.store)
    && (forall i :: 0 <= i < |s.entries| ==> EntryGenuine(nm, key, ppis[key].image, s.store, s.entries[i]))
  }

  lemma NoClashWith(nm: Namer, ppis: map<Key, PrePullImage>, key: Key, es: seq<NodeStatus>)
    requires NoClash(nm, ppis) && key in ppis && SameNodes(es, ppis[key].nodeStatus)
    ensures NoClash(nm, With(ppis, key, es))
  {
  }

  lemma DriftedEntry(nm: Namer, key: Key, image: string, s: JobStore, t: JobStore, e: NodeStatus)
    requires EntryGenuine(nm, key, image, s, e) && OnlyDrifts(s, t)
    ensures EntryGenuine(nm, key, image, t, e)
  {
  }

  lemma HandledIsGenuine(nm: Namer, ppis: map<Key, PrePullImage>, key: Key, s: State, i: nat, w: Weather)
    requires NoClash(nm, ppis) && PassGenuine(nm, ppis, key, s) && i < |s.entries|
    ensures var t := Handle(nm, key, ppis[key], s, i, w);
            EntryGenuine(nm, key, ppis[key].image, t.store, t.entries[i])
  {
    var e, name := s.entries[i], nm(key.name, s.entries[i].node);
    var drifted, view := DriftedAll(s.store, w.drift), With(ppis, key, s.entries);
    DriftIsDrift(s.store, w.drift);
    DriftGenuine(s.store, w.drift);
    hide DriftedAll;
    DriftKeepsStoreOk(nm, view, s.store, drifted);
    DriftedEntry(nm, key, ppis[key].image, s.store, drifted, e);
    NoClashWith(nm, ppis, key, s.entries);
    if name in drifted.jobs {
      AdoptedIsOwn(nm, view, key, i, name, drifted.jobs[name]);
    }
    hide NoClash;
    hide StoreOk;
    hide EntriesGenuine;
    VerdictIsGenuine(nm, key, ppis[key], s.limiter, drifted, e, i, w);
  }

  lemma VerdictIsGenuine(nm: Namer, key: Key, p: PrePullImage, l: Limiter, store: JobStore, e: NodeStatus, i: nat, w: Weather)
    requires StoreGenuine(store) && EntryGenuine(nm, key, p.image, store, e)
    requires var name := nm(key.name, e.node);
      name in store.jobs ==> var j := store.jobs[name]; j.tie.Orphaned? || (j.image == p.image && j.node == e.node)
    ensures var v, name := Judge(p, l, store, e, w), nm(key.name, e.node);
            EntryGenuine(nm, key, p.image, StoreAfter(nm, key, p, l, store, e, i, v, w), EntryAfter(e, v, name, store.Found(name)))
  {
  }

  lemma HandleKeepsGenuine(nm: Namer, ppis: map<Key, PrePullImage>, key: Key, s: State, i: nat, w: Weather)
    requires NoClash(nm, ppis) && PassGenuine(nm, ppis, key, s) && i < |s.entries|
    ensures PassGenuine(nm, ppis, key, Handle(nm, key, ppis[key], s, i, w))
  {
    var t, e, p := Handle(nm, key, ppis[key], s, i, w), s.entries[i], ppis[key];
    var name := nm(key.name, e.node);
    HandleAlters(nm, key, p, s, i, w);
    HandleMoves(nm, key, p, s, i, w);
    HandleKeepsStoreOk(nm, ppis, key, ppis[key], s, i, w);
    HandledIsGenuine(nm, ppis, key, s, i, w);
    hide Handle;
    hide StoreOk;
    assert e.node == p.nodeStatus[i].node;
    forall k, j | k in ppis && 0 <= j < |ppis[k].nodeStatus|
      ensures EntryGenuine(nm, k, ppis[k].image, t.store, ppis[k].nodeStatus[j])
    {
      BystanderGenuine(nm, k, ppis[k].image, ppis[k].nodeStatus[j], s.store, t.store, name, p.image, e.node);
    }
    forall j | 0 <= j < |t.entries| ensures EntryGenuine(nm, key, p.image, t.store, t.entries[j]) {
      if j != i {
        assert s.entries[j].node == p.nodeStatus[j].node;
        BystanderGenuine(nm, key, p.image, s.entries[j], s.store, t.store, name, p.image, e.node);
      }
    }
  }

  lemma {:induction false} PassKeepsGenuine(nm: Namer, ppis: map<Key, PrePullImage>, key: Key, s0: State,
                                            weather: seq<Weather>, n: nat)
    requires n <= |s0.entries| && NoClash(nm, ppis) && PassGenuine(nm, ppis, key, s0)
    ensures PassGenuine(nm, ppis, key, After(nm, key, ppis[key], s0, weather, n))
    decreases n
  {
    hide Handle;
    hide NoClash;
    if n > 0 {
      PassKeepsGenuine(nm, ppis, key, s0, weather, n - 1);
      HandleKeepsGenuine(nm, ppis, key, After(nm, key, ppis[key], s0, weather, n - 1), n - 1, At(weather, n - 1));
    }
  }

  // ---------------------------------------------------------------------------------------------
  // Runs
  // ---------------------------------------------------------------------------------------------

  predicate Genuine(nm: Namer, w: World) {
    StoreGenuine(w.store) && EntriesGenuine(nm, w.ppis, w.store)
  }

  /** The same jobs as far as targets and results go. */
  predicate SameTargets(s: JobStore, t: JobStore) {
    && s.pulled == t.pulled
    && forall n :: n in t.jobs ==>
         n in s.jobs && t.jobs[n].image == s.jobs[n].image && t.jobs[n].node == s.jobs[n].node
         && t.jobs[n].succeeded == s.jobs[n].succeeded
  }

  lemma InProgressGenuine(nm: Namer, w: World, key: Key, env: Env)
    requires key in w.ppis && NoClash(nm, w.ppis) && JobsOk(nm, w) && Genuine(nm, w)
    ensures Genuine(nm, HandleInProgress(nm, w, key, env).world)
  {
    var p, s := w.ppis[key], PassOver(nm, w, key, env);
    var s0 := Begin(w.limiter, w.store, w.metrics, p.nodeStatus);
    assert With(w.ppis, key, p.nodeStatus) == w.ppis;
    PassKeepsGenuine(nm, w.ppis, key, s0, env.weather, |p.nodeStatus|);
    var v := HandleInProgress(nm, w, key, env).world;
    assert SameTargets(s.store, v.store);
    hide HandleInProgress;
    hide NoClash;
    hide PassOver;
    forall k, i | k in v.ppis && 0 <= i < |v.ppis[k].nodeStatus|
      ensures EntryGenuine(nm, k, v.ppis[k].image, v.store, v.ppis[k].nodeStatus[i])
    {
      if v.ppis == w.ppis || k != key {
        assert EntryGenuine(nm, k, w.ppis[k].image, s.store, w.ppis[k].nodeStatus[i]);
      } else {
        assert EntryGenuine(nm, key, p.image, s.store, s.entries[i]);
      }
    }
  }

  /** Steps that leave the entries alone, except to add new ones, and let jobs only vanish. */
  lemma RewriteGenuine(nm: Namer, w: World, v: World)
    requires Genuine(nm, w) && SameTargets(w.store, v.store)
    requires forall k :: k in v.ppis && k in w.ppis && w.ppis[k].nodeStatus != [] ==> v.ppis[k].nodeStatus == w.ppis[k].nodeStatus
    requires forall k :: k in v.ppis && k in w.ppis ==> v.ppis[k].image == w.ppis[k].image
    requires forall k, i ::
      k in v.ppis && (k !in w.ppis || w.ppis[k].nodeStatus == []) && 0 <= i < |v.ppis[k].nodeStatus|
      ==> v.ppis[k].nodeStatus[i].status.Pending?
    ensures Genuine(nm, v)
  {
    forall k, i | k in v.ppis && 0 <= i < |v.ppis[k].nodeStatus|
      ensures EntryGenuine(nm, k, v.ppis[k].image, v.store, v.ppis[k].nodeStatus[i])
    {
      if k in w.ppis && w.ppis[k].nodeStatus != [] {
        assert EntryGenuine(nm, k, w.ppis[k].image, w.store, w.ppis[k].nodeStatus[i]);
      }
    }
  }

  lemma DeletionGenuine(nm: Namer, w: World, key: Key, env: Env)
    requires key in w.ppis && Genuine(nm, w)
    ensures Genuine(nm, HandleDeletion(w, key, env).world)
  {
    hide Genuine;
    hide Tally;
    hide ReleaseAll;
    hide PullingNodes;
    RewriteGenuine(nm, w, HandleDeletion(w, key, env).world);
  }

  lemma ReconcileGenuine(nm: Namer, w: World, key: Key, env: Env)
    requires OkAt(nm, w, key) && NoClash(nm, w.ppis) && JobsOk(nm, w) && Genuine(nm, w)
    ensures Genuine(nm, Reconcile(nm, w, key, env).world)
  {
    hide Genuine;
    hide NoClash;
    hide JobsOk;
    if key in w.ppis && !env.getFails {
      var p := w.ppis[key];
      if p.deleting {
        DeletionGenuine(nm, w, key, env);
      } else if p.finalizer && p.phase.InProgress? {
        InProgressGenuine(nm, w, key, env);
      } else {
        QuietWrites(nm, w, key, env);
        hide Reconcile;
        RewriteGenuine(nm, w, Reconcile(nm, w, key, env).world);
      }
    }
  }

  lemma OutsideGenuine(nm: Namer, w: World, d: Drift)
    requires Genuine(nm, w)
    ensures Genuine(nm, Apply(nm, w, Outside(d)))
  {
    DriftGenuine(w.store, [d]);
    DriftedIsDrift(w.store, d);
    assert DriftedAll(w.store, [d]) == DriftedAll(Drifted(w.store, d), []) == Drifted(w.store, d);
    forall k, i | k in w.ppis && 0 <= i < |w.ppis[k].nodeStatus|
      ensures EntryGenuine(nm, k, w.ppis[k].image, Drifted(w.store, d), w.ppis[k].nodeStatus[i])
    {
      DriftedEntry(nm, k, w.ppis[k].image, w.store, Drifted(w.store, d), w.ppis[k].nodeStatus[i]);
    }
  }

  lemma CrashGenuine(nm: Namer, w: World, key: Key, env: Env)
    requires OkAt(nm, w, key) && NoClash(nm, w.ppis) && JobsOk(nm, w) && Genuine(nm, w)
    ensures Genuine(nm, Apply(nm, w, Crash(key, env)))
  {
    ReconcileGenuine(nm, w, key, env.(writeFails := true));
    FailedWriteKeeps(nm, w, key, env.(writeFails := true));
    hide Reconcile;
  }

  lemma StepGenuine(nm: Namer, w: World, step: Step)
    requires StepOk(nm, w, step) && NoClash(nm, w.ppis) && JobsOk(nm, w) && Genuine(nm, w)
    ensures Genuine(nm, Apply(nm, w, step))
  {
    hide Reconcile;
    match step
    case Visit(k, env) => ReconcileGenuine(nm, w, k, env);
    case Outside(d) => OutsideGenuine(nm, w, d);
    case Crash(k, env) => CrashGenuine(nm, w, k, env);
    case _ => RewriteGenuine(nm, w, Apply(nm, w, step));
  }

  /** No clash in any state the run goes through. */
  ghost predicate NeverClashes(nm: Namer, w: World, steps: seq<Step>) {
    NoClash(nm, Run(nm, w, steps).ppis) && (steps != [] ==> NeverClashes(nm, w, steps[..|steps| - 1]))
  }

  lemma {:induction false} RunsKeepGenuine(nm: Namer, maxPulls: int, maxPerNode: int, steps: seq<Step>)
    requires NeverClashes(nm, Start(maxPulls, maxPerNode), steps)
    ensures Genuine(nm, Run(nm, Start(maxPulls, maxPerNode), steps))
  {
    if steps != [] {
      var before := steps[..|steps| - 1];
      RunsKeepGenuine(nm, maxPulls, maxPerNode, before);
      RunsKeepAllOk(nm, maxPulls, maxPerNode, before);
      RunsKeepJobs(nm, maxPulls, maxPerNode, before);
      assert NoClash(nm, Run(nm, Start(maxPulls, maxPerNode), before).ppis);
      AllOkSteps(nm, Run(nm, Start(maxPulls, maxPerNode), before), steps[|steps| - 1]);
      StepGenuine(nm, Run(nm, Start(maxPulls, maxPerNode), before), steps[|steps| - 1]);
    }
  }

  /** Soundness of Completed, over every run with retries, adoption, job expiry, deletion and re-creation,
      lost writes, crashes and restarts: in a run without name clashes, every Completed entry's image was
      pulled on its own node, unless the entry's last start found the job of another pull that a failed
      cleanup had left behind. */
  lemma CompletedMeansPulled(nm: Namer, maxPulls: int, maxPerNode: int, steps: seq<Step>, key: Key, i: nat)
    requires NeverClashes(nm, Start(maxPulls, maxPerNode), steps)
    requires var w := Run(nm, Start(maxPulls, maxPerNode), steps); key in w.ppis && i < |w.ppis[key].nodeStatus|
    requires Run(nm, Start(maxPulls, maxPerNode), steps).ppis[key].nodeStatus[i].status.Completed?
    ensures var w := Run(nm, Start(maxPulls, maxPerNode), steps);
            var p := w.ppis[key];
            (p.image, p.nodeStatus[i].node) in w.store.pulled || Misled(p.nodeStatus[i], p.image)
  {
    hide Run;
    RunsKeepGenuine(nm, maxPulls, maxPerNode, steps);
    var w := Run(nm, Start(maxPulls, maxPerNode), steps);
    assert EntryGenuine(nm, key, w.ppis[key].image, w.store, w.ppis[key].nodeStatus[i]);
  }

  // ---------------------------------------------------------------------------------------------
  // When cleanup never fails
  // ---------------------------------------------------------------------------------------------

  /** Cleanup of a deleted PrePullImage's jobs never fails in this step. */
  predicate CleansUp(step: Step) {
    match step
    case Visit(_, env) => env.kept == {}
    case Crash(_, env) => env.kept == {}
    case _ => true
  }

  const WITHOUT_ORPHANS := {Bound, Loose, Spent}

  lemma CleanRunsFindNoOrphans(nm: Namer, maxPulls: int, maxPerNode: int, steps: seq<Step>)
    requires forall i :: 0 <= i < |steps| ==> CleansUp(steps[i])
    ensures AllFoundIn(Run(nm, Start(maxPulls, maxPerNode), steps).ppis, WITHOUT_ORPHANS)
  {
    hide Run;
    forall i | 0 <= i < |steps| ensures StepKeeps(steps[i], WITHOUT_ORPHANS) {
      assert CleansUp(steps[i]);
    }
    RunsKeepTies(nm, maxPulls, maxPerNode, steps, WITHOUT_ORPHANS);
  }

  /** If in addition cleanup never fails, Completed means pulled, without exception. */
  lemma CompletedMeansPulledIfCleanedUp(nm: Namer, maxPulls: int, maxPerNode: int, steps: seq<Step>, key: Key, i: nat)
    requires NeverClashes(nm, Start(maxPulls, maxPerNode), steps)
    requires forall j :: 0 <= j < |steps| ==> CleansUp(steps[j])
    requires var w := Run(nm, Start(maxPulls, maxPerNode), steps); key in w.ppis && i < |w.ppis[key].nodeStatus|
    requires Run(nm, Start(maxPulls, maxPerNode), steps).ppis[key].nodeStatus[i].status.Completed?
    ensures var w := Run(nm, Start(maxPulls, maxPerNode), steps);
            (w.ppis[key].image, w.ppis[key].nodeStatus[i].node) in w.store.pulled
  {
    hide Run;
    CompletedMeansPulled(nm, maxPulls, maxPerNode, steps, key, i);
    CleanRunsFindNoOrphans(nm, maxPulls, maxPerNode, steps);
    assert FoundIn(Run(nm, Start(maxPulls, maxPerNode), steps).ppis[key].nodeStatus[i], WITHOUT_ORPHANS);
  }

  // ---------------------------------------------------------------------------------------------
  // When names do not clash
  // ---------------------------------------------------------------------------------------------

  /** The operator's own naming. */
  function JobNamer(h: Digest): Namer {
    (ppi: string, node: string) => JobName(h, ppi, node)
  }

  /** PrePullImages of one namespace with names of at most 43 characters never clash, as long as the hash
      tells their target nodes apart. */
  lemma OneNamespaceNeverClashes(h: Digest, ppis: map<Key, PrePullImage>, namespace: string)
    requires forall k :: k in ppis ==> k.namespace == namespace && |k.name| <= 43
    requires forall k1, k2, i1, i2 ::
      k1 in ppis && k2 in ppis
      && 0 <= i1 < |ppis[k1].nodeStatus| && 0 <= i2 < |ppis[k2].nodeStatus|
      && h(ppis[k1].nodeStatus[i1].node) == h(ppis[k2].nodeStatus[i2].node)
      ==> ppis[k1].nodeStatus[i1].node == ppis[k2].nodeStatus[i2].node
    ensures NoClash(JobNamer(h), ppis)
  {
    forall k1, k2, i1, i2 | k1 in ppis && k2 in ppis
      && 0 <= i1 < |ppis[k1].nodeStatus| && 0 <= i2 < |ppis[k2].nodeStatus|
      && JobNamer(h)(k1.name, ppis[k1].nodeStatus[i1].node) == JobNamer(h)(k2.name, ppis[k2].nodeStatus[i2].node)
      ensures ppis[k1].image == ppis[k2].image && ppis[k1].nodeStatus[i1].node == ppis[k2].nodeStatus[i2].node
    {
      ShortNamesCollideOnlyWhenEqual(h, k1.name, ppis[k1].nodeStatus[i1].node, k2.name, ppis[k2].nodeStatus[i2].node);
    }
  }

  /** What the operator's inputs must look like: one namespace, PrePullImage names of at most 43 characters,
      and target nodes, listed or found, from a given set. */
  predicate Tame(step: Step, namespace: string, nodes: set<string>) {
    match step
    case Submit(k, _, names, _) => k.namespace == namespace && |k.name| <= 43 && forall n :: n in names ==> n in nodes
    case Visit(_, env) => env.listed.Some? ==> forall n :: n in env.listed.value ==> n in nodes
    case Crash(_, env) => env.listed.Some? ==> forall n :: n in env.listed.value ==> n in nodes
    case _ => true
  }

  predicate TamePpi(k: Key, p: PrePullImage, namespace: string, nodes: set<string>) {
    && k.namespace == namespace && |k.name| <= 43
    && (forall n :: n in p.names ==> n in nodes)
    && (forall i :: 0 <= i < |p.nodeStatus| ==> p.nodeStatus[i].node in nodes)
  }

  predicate TameWorld(w: World, namespace: string, nodes: set<string>) {
    forall k :: k in w.ppis ==> TamePpi(k, w.ppis[k], namespace, nodes)
  }

  lemma VisitStaysTame(nm: Namer, w: World, key: Key, env: Env, namespace: string, nodes: set<string>)
    requires AllOk(nm, w) && TameWorld(w, namespace, nodes)
    requires env.listed.Some? ==> forall n :: n in env.listed.value ==> n in nodes
    ensures TameWorld(Reconcile(nm, w, key, env).world, namespace, nodes)
  {
    var v := Reconcile(nm, w, key, env).world;
    ReconcileAdvances(nm, w, key, env);
    if key in v.ppis {
      EarlyTargets(nm, w, key, env);
      hide Reconcile;
      TameForward(nm, key, w.ppis[key], v.ppis[key], env, namespace, nodes);
    }
  }

  lemma TameForward(nm: Namer, key: Key, p: PrePullImage, q: PrePullImage, env: Env, namespace: string, nodes: set<string>)
    requires TamePpi(key, p, namespace, nodes) && Forward(nm, key, p, q)
    requires env.listed.Some? ==> forall n :: n in env.listed.value ==> n in nodes
    requires Early(p.phase) && q.nodeStatus != [] ==> Targets(p, env).Some? && Serves(q.nodeStatus, Targets(p, env).value)
    ensures TamePpi(key, q, namespace, nodes)
  {
    forall i | 0 <= i < |q.nodeStatus| ensures q.nodeStatus[i].node in nodes {
      if PhaseRank(p.phase) == 1 {
        assert Move(p.nodeStatus[i], q.nodeStatus[i], p.maxAttempts);
      }
    }
  }

  lemma EarlyTargets(nm: Namer, w: World, key: Key, env: Env)
    requires AllOk(nm, w) && key in w.ppis && key in Reconcile(nm, w, key, env).world.ppis
    ensures var p, q := w.ppis[key], Reconcile(nm, w, key, env).world.ppis[key];
            Early(p.phase) && q.nodeStatus != [] ==>
              Targets(p, env).Some? && Serves(q.nodeStatus, Targets(p, env).value)
  {
    assert PpiOk(nm, key, w.ppis[key]);
  }

  lemma StepStaysTame(nm: Namer, w: World, step: Step, namespace: string, nodes: set<string>)
    requires AllOk(nm, w) && TameWorld(w, namespace, nodes) && Tame(step, namespace, nodes)
    ensures TameWorld(Apply(nm, w, step), namespace, nodes)
  {
    match step
    case Visit(k, env) => VisitStaysTame(nm, w, k, env, namespace, nodes);
    case Crash(k, env) =>
    case _ =>
  }

  /** The hash tells the nodes apart. */
  ghost predicate TellsApart(h: Digest, nodes: set<string>) {
    forall m, n :: m in nodes && n in nodes && h(m) == h(n) ==> m == n
  }

  lemma TameNeverClashes(h: Digest, w: World, namespace: string, nodes: set<string>)
    requires TameWorld(w, namespace, nodes)
    requires TellsApart(h, nodes)
    ensures NoClash(JobNamer(h), w.ppis)
  {
    assert forall k :: k in w.ppis ==> TamePpi(k, w.ppis[k], namespace, nodes);
    OneNamespaceNeverClashes(h, w.ppis, namespace);
  }

  lemma {:induction false} TameRunsNeverClash(h: Digest, maxPulls: int, maxPerNode: int, steps: seq<Step>,
                                              namespace: string, nodes: set<string>)
    requires forall i :: 0 <= i < |steps| ==> Tame(steps[i], namespace, nodes)
    requires TellsApart(h, nodes)
    ensures var w := Run(JobNamer(h), Start(maxPulls, maxPerNode), steps);
            TameWorld(w, namespace, nodes) && NeverClashes(JobNamer(h), Start(maxPulls, maxPerNode), steps)
  {
    var nm := JobNamer(h);
    if steps != [] {
      var before := steps[..|steps| - 1];
      TameRunsNeverClash(h, maxPulls, maxPerNode, before, namespace, nodes);
      RunsKeepAllOk(nm, maxPulls, maxPerNode, before);
      StepStaysTame(nm, Run(nm, Start(maxPulls, maxPerNode), before), steps[|steps| - 1], namespace, nodes);
    }
    TameNeverClashes(h, Run(nm, Start(maxPulls, maxPerNode), steps), namespace, nodes);
  }

  /** Soundness of Completed with the operator's own names, from its inputs alone: if all PrePullImages are in
      one namespace, have names of at most 43 characters and target nodes that the hash tells apart, and the
      cleanup of deleted ones does not fail, then in every reachable state each Completed entry's image was
      pulled on its own node. */
  lemma OperatorIsSound(h: Digest, maxPulls: int, maxPerNode: int, steps: seq<Step>,
                        namespace: string, nodes: set<string>, key: Key, i: nat)
    requires forall j :: 0 <= j < |steps| ==> Tame(steps[j], namespace, nodes)
    requires forall j :: 0 <= j < |steps| ==> CleansUp(steps[j])
    requires TellsApart(h, nodes)
    requires var w := Run(JobNamer(h), Start(maxPulls, maxPerNode), steps); key in w.ppis && i < |w.ppis[key].nodeStatus|
    requires Run(JobNamer(h), Start(maxPulls, maxPerNode), steps).ppis[key].nodeStatus[i].status.Completed?
    ensures var w := Run(JobNamer(h), Start(maxPulls, maxPerNode), steps);
            (w.ppis[key].image, w.ppis[key].nodeStatus[i].node) in w.store.pulled
  {
    hide Run;
    hide NeverClashes;
    hide Tame;
    hide TameWorld;
    hide CleansUp;
    hide JobNamer;
    TameRunsNeverClash(h, maxPulls, maxPerNode, steps, namespace, nodes);
    CompletedMeansPulledIfCleanedUp(JobNamer(h), maxPulls, maxPerNode, steps, key, i);
  }
}
