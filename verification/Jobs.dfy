/** The pull jobs in the cluster against the entries that answer for them. */
module Jobs {
  import opened RateLimiting
  import opened Cluster
  import opened Pass
  import opened System
  import opened Lifecycle
  import opened Ledger

  // ---------------------------------------------------------------------------------------------
  // How jobs change
  // ---------------------------------------------------------------------------------------------

  /** The same job, later. */
  predicate Ages(j: Job, k: Job) {
    && k.owner == j.owner && k.image == j.image && k.node == j.node && k.index == j.index
    && j.succeeded <= k.succeeded && j.failed <= k.failed
  }

  /** Jobs left alone by the operator only age or vanish. */
  predicate OnlyDrifts(s: JobStore, t: JobStore) {
    && (forall n :: n in t.jobs ==> n in s.jobs && Ages(s.jobs[n], t.jobs[n]) && t.jobs[n].tie == s.jobs[n].tie)
    && s.pulled <= t.pulled
  }

  lemma {:induction false} DriftIsDrift(s: JobStore, ds: seq<Drift>)
    ensures OnlyDrifts(s, DriftedAll(s, ds))
    decreases ds
  {
    if ds != [] {
      DriftIsDrift(Drifted(s, ds[0]), ds[1..]);
      assert OnlyDrifts(s, Drifted(s, ds[0]));
    }
  }

  /** Every bound job that was not claimed in between was bound before, and may only have aged. */
  predicate StoreAges(s: JobStore, t: JobStore, claimed: set<string>) {
    && (forall n :: n in t.jobs && t.jobs[n].tie.Bound? && n !in claimed
          ==> n in s.jobs && s.jobs[n].tie.Bound? && Ages(s.jobs[n], t.jobs[n]))
    && s.pulled <= t.pulled
  }

  lemma HandleAges(nm: Namer, key: Key, p: PrePullImage, s: State, i: nat, w: Weather)
    requires i < |s.entries|
    ensures var t := Handle(nm, key, p, s, i, w); StoreAges(s.store, t.store, t.claimed) && s.claimed <= t.claimed
  {
    DriftIsDrift(s.store, w.drift);
  }

  lemma AgesOnwards(r: JobStore, s: JobStore, t: JobStore, f: set<string>, g: set<string>)
    requires StoreAges(r, s, f) && StoreAges(s, t, g) && f <= g
    ensures StoreAges(r, t, g)
  {
  }

  lemma {:induction false} PassAges(nm: Namer, key: Key, p: PrePullImage, s0: State, weather: seq<Weather>, n: nat)
    requires n <= |s0.entries|
    ensures var t := After(nm, key, p, s0, weather, n); StoreAges(s0.store, t.store, t.claimed)
    decreases n
  {
    hide Handle;
    if n > 0 {
      PassAges(nm, key, p, s0, weather, n - 1);
      var s, t := After(nm, key, p, s0, weather, n - 1), After(nm, key, p, s0, weather, n);
      HandleAges(nm, key, p, s, n - 1, At(weather, n - 1));
      AgesOnwards(s0.store, s.store, t.store, s.claimed, t.claimed);
    }
  }

  // ---------------------------------------------------------------------------------------------
  // Who answers for a job
  // ---------------------------------------------------------------------------------------------

  /** The job is what entry j.index of its owner asks for. */
  predicate Rooted(nm: Namer, image: string, es: seq<NodeStatus>, name: string, j: Job) {
    && j.image == image && name == nm(j.owner.name, j.node)
    && j.index < |es| && es[j.index].node == j.node
  }

  /** The entry was started on the job and knows it by its name; while the job runs, the entry is Pulling. */
  predicate Answers(e: NodeStatus, name: string, j: Job) {
    && e.jobName == name && !e.status.Pending?
    && (Unfinished(j) ==> e.status.Pulling?)
  }

  /** Unless its PrePullImage is gone, a job is rooted in the entry that made it; if it is bound, that entry answers
      for it, and if it is spent, it has ended. */
  predicate JobOk(nm: Namer, ppis: map<Key, PrePullImage>, name: string, j: Job) {
    !j.tie.Orphaned? ==>
      && j.owner in ppis
      && Rooted(nm, ppis[j.owner].image, ppis[j.owner].nodeStatus, name, j)
      && (j.tie.Bound? ==> Answers(ppis[j.owner].nodeStatus[j.index], name, j))
      && (j.tie.Spent? ==> !Unfinished(j))
  }

  predicate StoreOk(nm: Namer, ppis: map<Key, PrePullImage>, store: JobStore) {
    forall n :: n in store.jobs ==> JobOk(nm, ppis, n, store.jobs[n])
  }

  /** All PrePullImages, where es are the current entries of key. */
  function With(ppis: map<Key, PrePullImage>, key: Key, es: seq<NodeStatus>): map<Key, PrePullImage>
    requires key in ppis
  {
    ppis[key := ppis[key].(nodeStatus := es)]
  }

  lemma DriftKeepsStoreOk(nm: Namer, ppis: map<Key, PrePullImage>, s: JobStore, t: JobStore)
    requires StoreOk(nm, ppis, s) && OnlyDrifts(s, t)
    ensures StoreOk(nm, ppis, t)
  {
    forall n | n in t.jobs ensures JobOk(nm, ppis, n, t.jobs[n]) {
      assert JobOk(nm, ppis, n, s.jobs[n]);
    }
  }

  lemma HandleKeepsStoreOk(nm: Namer, ppis: map<Key, PrePullImage>, key: Key, p: PrePullImage, s: State, i: nat, w: Weather)
    requires key in ppis && p.image == ppis[key].image
    requires i < |s.entries| && StoreOk(nm, With(ppis, key, s.entries), s.store)
    ensures var t := Handle(nm, key, p, s, i, w); StoreOk(nm, With(ppis, key, t.entries), t.store)
  {
    DriftIsDrift(s.store, w.drift);
    var drifted := DriftedAll(s.store, w.drift);
    hide DriftedAll;
    DriftKeepsStoreOk(nm, With(ppis, key, s.entries), s.store, drifted);
    var t := Handle(nm, key, p, s, i, w);
    var e, v := s.entries[i], Judge(p, s.limiter, drifted, s.entries[i], w);
    forall n | n in t.store.jobs ensures JobOk(nm, With(ppis, key, t.entries), n, t.store.jobs[n]) {
      if n in drifted.jobs {
        assert JobOk(nm, With(ppis, key, s.entries), n, drifted.jobs[n]);
        VerdictKeepsJobOk(nm, ppis, key, p, s.limiter, drifted, s.entries, i, v, w, n);
      }
    }
  }

  /** What one verdict does to a job that was there. */
  lemma VerdictKeepsJobOk(nm: Namer, ppis: map<Key, PrePullImage>, key: Key, p: PrePullImage, l: Limiter, store: JobStore,
                          es: seq<NodeStatus>, i: nat, v: Verdict, w: Weather, n: string)
    requires key in ppis && p.image == ppis[key].image && i < |es|
    requires n in store.jobs && JobOk(nm, With(ppis, key, es), n, store.jobs[n])
    requires v == Judge(p, l, store, es[i], w)
    ensures var e, name := es[i], nm(key.name, es[i].node);
            var after := StoreAfter(nm, key, p, l, store, e, i, v, w);
            n in after.jobs ==> JobOk(nm, With(ppis, key, es[i := EntryAfter(e, v, name, store.Found(name))]), n, after.jobs[n])
  {
  }

  lemma {:induction false} PassKeepsStoreOk(nm: Namer, ppis: map<Key, PrePullImage>, key: Key, s0: State,
                                            weather: seq<Weather>, n: nat)
    requires key in ppis && n <= |s0.entries| && StoreOk(nm, With(ppis, key, s0.entries), s0.store)
    ensures var t := After(nm, key, ppis[key], s0, weather, n); StoreOk(nm, With(ppis, key, t.entries), t.store)
    decreases n
  {
    hide Handle;
    hide StoreOk;
    if n > 0 {
      PassKeepsStoreOk(nm, ppis, key, s0, weather, n - 1);
      HandleKeepsStoreOk(nm, ppis, key, ppis[key], After(nm, key, ppis[key], s0, weather, n - 1), n - 1, At(weather, n - 1));
    }
  }

  // ---------------------------------------------------------------------------------------------
  // Runs
  // ---------------------------------------------------------------------------------------------

  /** Every job in the store is what it should be. */
  predicate JobsOk(nm: Namer, w: World) {
    StoreOk(nm, w.ppis, w.store)
  }

  lemma InProgressJobs(nm: Namer, w: World, key: Key, env: Env)
    requires key in w.ppis && JobsOk(nm, w)
    ensures JobsOk(nm, HandleInProgress(nm, w, key, env).world)
  {
    var p, s := w.ppis[key], PassOver(nm, w, key, env);
    var s0 := Begin(w.limiter, w.store, w.metrics, p.nodeStatus);
    assert With(w.ppis, key, p.nodeStatus) == w.ppis;
    PassKeepsStoreOk(nm, w.ppis, key, s0, env.weather, |p.nodeStatus|);
    PassAges(nm, key, p, s0, env.weather, |p.nodeStatus|);
    EntriesMove(nm, key, p, s0, env.weather, |p.nodeStatus|);
    var v := HandleInProgress(nm, w, key, env).world;
    forall n | n in v.store.jobs ensures JobOk(nm, v.ppis, n, v.store.jobs[n]) {
      var j := s.store.jobs[n];
      assert JobOk(nm, With(w.ppis, key, s.entries), n, j);
      if env.writeFails && j.tie.Bound? && n !in s.claimed {
        assert JobOk(nm, w.ppis, n, w.store.jobs[n]);
      }
    }
  }

  /** Rewriting records without touching jobs or entries. */
  lemma SameEntriesJobs(nm: Namer, w: World, v: World)
    requires JobsOk(nm, w) && OnlyDrifts(w.store, v.store)
    requires forall k :: k in w.ppis && w.ppis[k].nodeStatus != [] ==>
      k in v.ppis && v.ppis[k].nodeStatus == w.ppis[k].nodeStatus && v.ppis[k].image == w.ppis[k].image
    ensures JobsOk(nm, v)
  {
    forall n | n in v.store.jobs ensures JobOk(nm, v.ppis, n, v.store.jobs[n]) {
      assert JobOk(nm, w.ppis, n, w.store.jobs[n]);
    }
  }

  lemma DeletionJobs(nm: Namer, w: World, key: Key, env: Env)
    requires key in w.ppis && JobsOk(nm, w)
    ensures JobsOk(nm, HandleDeletion(w, key, env).world)
  {
    var v := HandleDeletion(w, key, env).world;
    forall n | n in v.store.jobs ensures JobOk(nm, v.ppis, n, v.store.jobs[n]) {
      assert JobOk(nm, w.ppis, n, w.store.jobs[n]);
    }
  }

  lemma ReconcileJobs(nm: Namer, w: World, key: Key, env: Env)
    requires OkAt(nm, w, key) && JobsOk(nm, w)
    ensures JobsOk(nm, Reconcile(nm, w, key, env).world)
  {
    hide JobsOk;
    if key in w.ppis && !env.getFails {
      var p := w.ppis[key];
      if p.deleting {
        DeletionJobs(nm, w, key, env);
      } else if p.finalizer && p.phase.InProgress? {
        InProgressJobs(nm, w, key, env);
      } else {
        QuietWrites(nm, w, key, env);
        hide Reconcile;
        SameEntriesJobs(nm, w, Reconcile(nm, w, key, env).world);
      }
    }
  }

  /** A reconcile that is neither a pass nor a deletion keeps the jobs, and of the records that have entries
      it keeps the entries. */
  lemma QuietWrites(nm: Namer, w: World, key: Key, env: Env)
    requires OkAt(nm, w, key)
    requires key in w.ppis && !w.ppis[key].deleting && !(w.ppis[key].finalizer && w.ppis[key].phase.InProgress?)
    ensures var v := Reconcile(nm, w, key, env).world;
            && v.store == w.store && v.past == w.past && v.ppis.Keys == w.ppis.Keys
            && (forall k :: k in w.ppis && k != key ==> v.ppis[k] == w.ppis[k])
            && v.ppis[key].image == w.ppis[key].image
            && (w.ppis[key].nodeStatus != [] ==> v.ppis[key].nodeStatus == w.ppis[key].nodeStatus)
            && (w.ppis[key].nodeStatus == [] ==>
                  forall i :: 0 <= i < |v.ppis[key].nodeStatus| ==> New(v.ppis[key].nodeStatus[i]))
  {
    assert PpiOk(nm, key, w.ppis[key]);
  }

  /** An entry as handlePending makes it. */
  predicate New(e: NodeStatus) {
    e.status.Pending? && e.found.None?
  }

  lemma DriftedIsDrift(s: JobStore, d: Drift)
    ensures OnlyDrifts(s, Drifted(s, d))
  {
  }

  lemma StepJobs(nm: Namer, w: World, step: Step)
    requires StepOk(nm, w, step) && JobsOk(nm, w)
    ensures JobsOk(nm, Apply(nm, w, step))
  {
    match step
    case RequestDelete(k) =>
      SameEntriesJobs(nm, w, Apply(nm, w, step));
    case Visit(k, env) => ReconcileJobs(nm, w, k, env);
    case Outside(d) =>
      DriftedIsDrift(w.store, d);
      SameEntriesJobs(nm, w, Apply(nm, w, step));
    case Crash(k, env) => CrashJobs(nm, w, k, env);
    case _ => SameEntriesJobs(nm, w, Apply(nm, w, step));
  }

  lemma CrashJobs(nm: Namer, w: World, key: Key, env: Env)
    requires OkAt(nm, w, key) && JobsOk(nm, w)
    ensures JobsOk(nm, Apply(nm, w, Crash(key, env)))
  {
    ReconcileJobs(nm, w, key, env.(writeFails := true));
    FailedWriteKeeps(nm, w, key, env.(writeFails := true));
  }

  /** In every reachable state, every bound job has the entry that made it answer for it. */
  lemma {:induction false} RunsKeepJobs(nm: Namer, maxPulls: int, maxPerNode: int, steps: seq<Step>)
    ensures JobsOk(nm, Run(nm, Start(maxPulls, maxPerNode), steps))
  {
    if steps != [] {
      var before := steps[..|steps| - 1];
      RunsKeepJobs(nm, maxPulls, maxPerNode, before);
      RunsKeepAllOk(nm, maxPulls, maxPerNode, before);
      AllOkSteps(nm, Run(nm, Start(maxPulls, maxPerNode), before), steps[|steps| - 1]);
      StepJobs(nm, Run(nm, Start(maxPulls, maxPerNode), before), steps[|steps| - 1]);
    }
  }
}
