/** The end-to-end limit: how many pull jobs can be unfinished at a time. */
module JobLimit {
  import opened RateLimiting
  import opened Cluster
  import opened Pass
  import opened System
  import opened Lifecycle
  import opened Ledger
  import opened Jobs
  import opened Ties

  // ---------------------------------------------------------------------------------------------
  // Counting jobs by the entries that back them
  // ---------------------------------------------------------------------------------------------

  /** The job's own entry is Pulling under the job's name, on the job's node. */
  predicate BackedBy(j: Job, name: string, es: seq<NodeStatus>) {
    && j.index < |es|
    && es[j.index].status.Pulling? && es[j.index].jobName == name && es[j.index].node == j.node
  }

  /** Jobs of one PrePullImage, each backed by one of its first m entries, are at most as many as the
      Pulling entries among those: an entry has one job name, so it backs one job. */
  lemma {:induction false} JobsOfOne(names: set<string>, jobs: map<string, Job>, es: seq<NodeStatus>, m: nat, slot: Slot)
    requires m <= |es|
    requires forall n :: n in names ==> n in jobs && BackedBy(jobs[n], n, es) && jobs[n].index < m && Covers(slot, jobs[n].node)
    ensures |names| <= Tally(es[..m], Using(slot))
  {
    if m == 0 {
      assert forall n :: n !in names;
    } else {
      var name := es[m - 1].jobName;
      assert es[..m][..m - 1] == es[..m - 1];
      if name in names && jobs[name].index == m - 1 {
        JobsOfOne(names - {name}, jobs, es, m - 1, slot);
      } else {
        JobsOfOne(names, jobs, es, m - 1, slot);
        TallyBounds(es[..m], Using(slot));
      }
    }
  }

  lemma SizeInParts(all: set<string>, part: set<string>)
    requires part <= all
    ensures |all| == |part| + |all - part|
  {
    assert all == part + (all - part);
  }

  predicate BackedByOwner(j: Job, name: string, ppis: map<Key, PrePullImage>) {
    j.owner in ppis && BackedBy(j, name, ppis[j.owner].nodeStatus)
  }

  lemma JobsOfKey(names: set<string>, jobs: map<string, Job>, ppis: map<Key, PrePullImage>, key: Key, slot: Slot)
    requires key in ppis
    requires forall n :: n in names ==>
      n in jobs && jobs[n].owner == key && BackedByOwner(jobs[n], n, ppis) && Covers(slot, jobs[n].node)
    ensures |names| <= Tally(ppis[key].nodeStatus, Using(slot))
  {
    var es := ppis[key].nodeStatus;
    assert es[..|es|] == es;
    JobsOfOne(names, jobs, es, |es|, slot);
  }

  lemma {:induction false} JobsOfAll(names: set<string>, jobs: map<string, Job>, ppis: map<Key, PrePullImage>, slot: Slot)
    requires forall n :: n in names ==> n in jobs && BackedByOwner(jobs[n], n, ppis) && Covers(slot, jobs[n].node)
    ensures |names| <= Everywhere(ppis, Using(slot))
    decreases |ppis|
  {
    hide Tally;
    hide BackedBy;
    UsingEverywhere(ppis, slot);
    if n0 :| n0 in names {
      var k := jobs[n0].owner;
      var mine := set n | n in names && jobs[n].owner == k;
      JobsOfKey(mine, jobs, ppis, k, slot);
      assert (ppis - {k}).Keys == ppis.Keys - {k};
      JobsOfAll(names - mine, jobs, ppis - {k}, slot);
      EverywhereDrop(ppis, k, Using(slot));
      hide Everywhere;
      SizeInParts(names, mine);
    }
  }

  /** Names of the unfinished pull jobs that take the slot. */
  function UnfinishedOn(w: World, slot: Slot): set<string> {
    set n | n in w.store.jobs && Unfinished(w.store.jobs[n]) && Covers(slot, w.store.jobs[n].node)
  }

  /** Jobs whose entry does not know of them. */
  function LooseOn(store: JobStore, slot: Slot): set<string> {
    set n | n in store.jobs && store.jobs[n].tie.Loose? && Covers(slot, store.jobs[n].node)
  }

  function OrphansOn(store: JobStore, slot: Slot): set<string> {
    set n | n in store.jobs && store.jobs[n].tie.Orphaned? && Unfinished(store.jobs[n]) && Covers(slot, store.jobs[n].node)
  }

  /** An unfinished job is bound to a Pulling entry, loose, or orphaned; a spent job has ended. */
  lemma JobsInThreeParts(nm: Namer, w: World, slot: Slot)
    requires JobsOk(nm, w)
    ensures |UnfinishedOn(w, slot)| <= Pulls(w, slot) + |LooseOn(w.store, slot)| + |OrphansOn(w.store, slot)|
  {
    var all, loose, orphans := UnfinishedOn(w, slot), LooseOn(w.store, slot), OrphansOn(w.store, slot);
    var backed := all - loose - orphans;
    forall n | n in backed ensures BackedByOwner(w.store.jobs[n], n, w.ppis) {
      assert JobOk(nm, w.ppis, n, w.store.jobs[n]);
    }
    JobsOfAll(backed, w.store.jobs, w.ppis, slot);
    SizeInParts(all, backed);
    SubsetSize(all - backed, loose + orphans);
  }

  lemma {:induction false} SubsetSize<T>(a: set<T>, b: set<T>)
    requires a <= b
    ensures |a| <= |b|
  {
    if x :| x in a {
      SubsetSize(a - {x}, b - {x});
    }
  }

  // ---------------------------------------------------------------------------------------------
  // One pass
  // ---------------------------------------------------------------------------------------------

  /** Jobs of key that a pass has bound to its entries, but nobody has recorded yet. */
  function ClaimedOn(store: JobStore, claimed: set<string>, key: Key, slot: Slot): set<string> {
    set n | n in claimed && n in store.jobs && store.jobs[n].tie.Bound? && store.jobs[n].owner == key
            && Covers(slot, store.jobs[n].node)
  }

  /** At most one name is new in a set. */
  lemma OneNewName(a: set<string>, b: set<string>, name: string, isNew: bool)
    requires a <= b + if isNew then {name} else {}
    ensures |a| <= |b| + if isNew then 1 else 0
  {
    SubsetSize(a, b + if isNew then {name} else {});
  }

  lemma StoreAfterLoosens(nm: Namer, key: Key, p: PrePullImage, l: Limiter, store: JobStore, e: NodeStatus, i: nat,
                          w: Weather, slot: Slot)
    ensures var after := StoreAfter(nm, key, p, l, store, e, i, Judge(p, l, store, e, w), w);
            LooseOn(after, slot)
            <= LooseOn(store, slot)
             + if MakesPhantom(nm, key, l, store, e, w) && Covers(slot, e.node) then {nm(key.name, e.node)} else {}
  {
  }

  /** Handling an entry makes a job loose only by a creation that reports an error. */
  lemma HandleLoosens(nm: Namer, key: Key, p: PrePullImage, s: State, i: nat, w: Weather, slot: Slot)
    requires i < |s.entries|
    ensures var t := Handle(nm, key, p, s, i, w);
            |LooseOn(t.store, slot)| - |LooseOn(s.store, slot)| <= Share(t.phantoms, slot) - Share(s.phantoms, slot)
  {
    DriftIsDrift(s.store, w.drift);
    var t, e, drifted := Handle(nm, key, p, s, i, w), s.entries[i], DriftedAll(s.store, w.drift);
    var isNew := MakesPhantom(nm, key, s.limiter, drifted, e, w) && Covers(slot, e.node);
    assert LooseOn(drifted, slot) <= LooseOn(s.store, slot);
    StoreAfterLoosens(nm, key, p, s.limiter, drifted, e, i, w, slot);
    hide DriftedAll;
    hide StoreAfter;
    hide LooseOn;
    OneNewName(LooseOn(t.store, slot), LooseOn(s.store, slot), nm(key.name, e.node), isNew);
  }

  lemma StoreAfterClaims(nm: Namer, key: Key, p: PrePullImage, l: Limiter, store: JobStore, e: NodeStatus, i: nat,
                         w: Weather, claimed: set<string>, slot: Slot)
    requires store.LooseFrom(nm(key.name, e.node), key, i) ==> store.jobs[nm(key.name, e.node)].node == e.node
    ensures var v := Judge(p, l, store, e, w);
            ClaimedOn(StoreAfter(nm, key, p, l, store, e, i, v, w), claimed + Claims(nm, key, store, e, i, v), key, slot)
            <= ClaimedOn(store, claimed, key, slot) + if v.Started? && Covers(slot, e.node) then {nm(key.name, e.node)} else {}
  {
  }

  lemma LooseOnOwnNode(nm: Namer, ppis: map<Key, PrePullImage>, key: Key, es: seq<NodeStatus>, i: nat,
                       store: JobStore, name: string)
    requires key in ppis && i < |es| && StoreOk(nm, With(ppis, key, es), store)
    ensures store.LooseFrom(name, key, i) ==> store.jobs[name].node == es[i].node
  {
    assert name in store.jobs ==> JobOk(nm, With(ppis, key, es), name, store.jobs[name]);
  }

  /** It claims a job only by a start, on the entry's own node. */
  lemma HandleClaims(nm: Namer, ppis: map<Key, PrePullImage>, key: Key, p: PrePullImage, s: State, i: nat, w: Weather, slot: Slot)
    requires key in ppis && i < |s.entries| && StoreOk(nm, With(ppis, key, s.entries), s.store)
    ensures var t := Handle(nm, key, p, s, i, w);
            |ClaimedOn(t.store, t.claimed, key, slot)| - |ClaimedOn(s.store, s.claimed, key, slot)|
            <= Share(t.starts, slot) - Share(s.starts, slot)
  {
    DriftIsDrift(s.store, w.drift);
    var t, e, drifted := Handle(nm, key, p, s, i, w), s.entries[i], DriftedAll(s.store, w.drift);
    var name, v := nm(key.name, e.node), Judge(p, s.limiter, drifted, e, w);
    hide DriftedAll;
    LooseOnOwnNode(nm, ppis, key, s.entries, i, s.store, name);
    hide StoreOk;
    assert ClaimedOn(drifted, s.claimed, key, slot) <= ClaimedOn(s.store, s.claimed, key, slot);
    StoreAfterClaims(nm, key, p, s.limiter, drifted, e, i, w, s.claimed, slot);
    hide StoreAfter;
    hide ClaimedOn;
    hide Claims;
    OneNewName(ClaimedOn(t.store, t.claimed, key, slot), ClaimedOn(s.store, s.claimed, key, slot), name,
               v.Started? && Covers(slot, e.node));
  }

  lemma {:induction false} PassLoosensAndClaims(nm: Namer, ppis: map<Key, PrePullImage>, key: Key, s0: State,
                                                weather: seq<Weather>, n: nat, slot: Slot)
    requires key in ppis && n <= |s0.entries| && StoreOk(nm, With(ppis, key, s0.entries), s0.store)
    ensures var t := After(nm, key, ppis[key], s0, weather, n);
            && |LooseOn(t.store, slot)| - |LooseOn(s0.store, slot)| <= Share(t.phantoms, slot) - Share(s0.phantoms, slot)
            && |ClaimedOn(t.store, t.claimed, key, slot)| - |ClaimedOn(s0.store, s0.claimed, key, slot)|
               <= Share(t.starts, slot) - Share(s0.starts, slot)
    decreases n
  {
    hide Handle;
    hide StoreOk;
    hide LooseOn;
    hide ClaimedOn;
    if n > 0 {
      PassLoosensAndClaims(nm, ppis, key, s0, weather, n - 1, slot);
      PassKeepsStoreOk(nm, ppis, key, s0, weather, n - 1);
      var s := After(nm, key, ppis[key], s0, weather, n - 1);
      HandleLoosens(nm, key, ppis[key], s, n - 1, At(weather, n - 1), slot);
      HandleClaims(nm, ppis, key, ppis[key], s, n - 1, At(weather, n - 1), slot);
    }
  }

  /** When the record of the pass is lost, exactly the claimed jobs become loose. */
  lemma LosingLoosens(store: JobStore, claimed: set<string>, key: Key, slot: Slot)
    ensures |LooseOn(store.Loosen(claimed, key), slot)| <= |LooseOn(store, slot)| + |ClaimedOn(store, claimed, key, slot)|
  {
    assert LooseOn(store.Loosen(claimed, key), slot) == LooseOn(store, slot) + ClaimedOn(store, claimed, key, slot);
  }

  // ---------------------------------------------------------------------------------------------
  // Runs
  // ---------------------------------------------------------------------------------------------

  /** What was lost on a slot: stops, to failed writes and to crashes, and creations that reported an error. */
  function LostOn(past: History, slot: Slot): nat {
    Share(past.lostStops, slot) + Share(past.crashed, slot) + Share(past.phantoms, slot)
  }

  /** Pulling entries and loose jobs together stay within what is held: a lost start leaves its slot taken, and that
      pays for its job. */
  ghost predicate Paid(w: World, slot: Slot) {
    Pulls(w, slot) + |LooseOn(w.store, slot)|
    <= w.limiter.Held(slot) + w.past.restarts * w.limiter.Limit(slot) + LostOn(w.past, slot)
  }

  /** Every orphan that still runs was left behind by a failed cleanup. */
  predicate OrphansLeft(w: World) {
    forall n :: n in w.store.jobs && w.store.jobs[n].tie.Orphaned? && Unfinished(w.store.jobs[n]) ==>
      (n, w.store.jobs[n].node) in w.past.left
  }

  lemma FewerLoose(s: JobStore, t: JobStore, slot: Slot)
    requires forall n :: n in t.jobs && t.jobs[n].tie.Loose? ==>
      n in s.jobs && s.jobs[n].tie.Loose? && t.jobs[n].node == s.jobs[n].node
    ensures |LooseOn(t, slot)| <= |LooseOn(s, slot)|
  {
    SubsetSize(LooseOn(t, slot), LooseOn(s, slot));
  }

  /** What a pass does to one slot, in numbers. */
  lemma PassPays(nm: Namer, w: World, key: Key, env: Env, slot: Slot)
    requires key in w.ppis && w.limiter.Valid() && JobsOk(nm, w)
    ensures var s, p := PassOver(nm, w, key, env), w.ppis[key];
            && s.limiter.Valid() && s.limiter.Fresh() == w.limiter.Fresh()
            && Tally(s.entries, Using(slot)) - Tally(p.nodeStatus, Using(slot)) == Share(s.starts, slot) - Share(s.stops, slot)
            && Tally(s.entries, Using(slot)) - Tally(p.nodeStatus, Using(slot)) <= s.limiter.Held(slot) - w.limiter.Held(slot)
            && |LooseOn(s.store, slot)| - |LooseOn(w.store, slot)| <= Share(s.phantoms, slot)
            && |ClaimedOn(s.store, s.claimed, key, slot)| <= Share(s.starts, slot)
  {
    var p := w.ppis[key];
    var s0 := Begin(w.limiter, w.store, w.metrics, p.nodeStatus);
    assert With(w.ppis, key, p.nodeStatus) == w.ppis;
    PassLoosensAndClaims(nm, w.ppis, key, s0, env.weather, |p.nodeStatus|, slot);
    PassBalances(nm, key, p, s0, env.weather, |p.nodeStatus|, slot);
    PassKeepsValid(nm, key, p, s0, env.weather, |p.nodeStatus|);
    assert ClaimedOn(s0.store, s0.claimed, key, slot) == {};
    assert Share(s0.starts, slot) == Share(s0.stops, slot) == Share(s0.phantoms, slot) == 0;
    hide After;
    hide LooseOn;
    hide StoreOk;
    hide Tally;
  }

  lemma InProgressPaid(nm: Namer, w: World, key: Key, env: Env, slot: Slot)
    requires key in w.ppis && w.limiter.Valid() && JobsOk(nm, w) && Paid(w, slot)
    ensures Paid(HandleInProgress(nm, w, key, env).world, slot)
  {
    var p, s := w.ppis[key], PassOver(nm, w, key, env);
    PassPays(nm, w, key, env, slot);
    EverywherePut(w.ppis, key, Concluded(p, s, env.now), Using(slot));
    LosingLoosens(s.store, s.claimed, key, slot);
    LostAdds(w.past, p, s, slot);
    hide PassOver;
    hide Everywhere;
    hide LooseOn;
    hide ClaimedOn;
    hide JobsOk;
    hide Tally;
    hide Lost;
    hide Noted;
    hide LostOn;
    assert s.limiter.Limit(slot) == w.limiter.Limit(slot);
  }

  lemma LostAdds(past: History, p: PrePullImage, s: State, slot: Slot)
    ensures LostOn(Noted(past, s), slot) == LostOn(past, slot) + Share(s.phantoms, slot)
    ensures LostOn(Lost(past, p, s), slot) == LostOn(past, slot) + Share(s.phantoms, slot) + Share(s.stops, slot)
    ensures Noted(past, s).restarts == Lost(past, p, s).restarts == past.restarts
  {
  }

  lemma DeletionPaid(w: World, key: Key, env: Env, slot: Slot)
    requires key in w.ppis && w.limiter.Valid() && Paid(w, slot)
    ensures Paid(HandleDeletion(w, key, env).world, slot)
  {
    var p, v := w.ppis[key], HandleDeletion(w, key, env).world;
    if p.finalizer {
      FinalizerBalances(w.limiter, p.nodeStatus, slot);
      ReleaseAllValid(w.limiter, p.nodeStatus);
      PullingNodesShare(p.nodeStatus, slot);
      EverywhereDrop(w.ppis, key, Using(slot));
      FewerLoose(w.store, v.store, slot);
      hide Everywhere;
      hide LooseOn;
      hide ReleaseAll;
      hide PullingNodes;
      hide Tally;
      hide StillRunning;
      assert v.limiter.Limit(slot) == w.limiter.Limit(slot);
    }
  }

  lemma ReconcilePaid(nm: Namer, w: World, key: Key, env: Env, slot: Slot)
    requires OkAt(nm, w, key) && JobsOk(nm, w) && Paid(w, slot)
    ensures Paid(Reconcile(nm, w, key, env).world, slot)
  {
    hide JobsOk;
    hide Paid;
    if key in w.ppis && !env.getFails {
      var p := w.ppis[key];
      if p.deleting {
        DeletionPaid(w, key, env, slot);
      } else if p.finalizer && p.phase.InProgress? {
        InProgressPaid(nm, w, key, env, slot);
      } else {
        QuietPaid(nm, w, key, env, slot);
      }
    }
  }

  lemma QuietPaid(nm: Namer, w: World, key: Key, env: Env, slot: Slot)
    requires OkAt(nm, w, key) && Paid(w, slot)
    requires key in w.ppis && !w.ppis[key].deleting && !(w.ppis[key].finalizer && w.ppis[key].phase.InProgress?)
    ensures Paid(Reconcile(nm, w, key, env).world, slot)
  {
    QuietWeights(nm, w, key, env, Using(slot));
    QuietWrites(nm, w, key, env);
    hide Reconcile;
    hide Everywhere;
    hide LooseOn;
  }

  /** The process ends in state w, or in the middle of a reconcile. */
  lemma EndPaid(w: World, slot: Slot)
    requires w.limiter.Valid() && Paid(w, slot)
    ensures Paid(Restarted(w), slot)
  {
    HeldWithinLimit(w.limiter, slot);
    hide Everywhere;
    hide LooseOn;
    assert (w.past.restarts + 1) * w.limiter.Limit(slot) == w.past.restarts * w.limiter.Limit(slot) + w.limiter.Limit(slot);
  }

  lemma CrashPaid(nm: Namer, w: World, key: Key, env: Env, slot: Slot)
    requires OkAt(nm, w, key) && JobsOk(nm, w) && Paid(w, slot)
    ensures Paid(Apply(nm, w, Crash(key, env)), slot)
  {
    var lossy := env.(writeFails := true);
    var v := Reconcile(nm, w, key, lossy).world;
    ReconcilePaid(nm, w, key, lossy, slot);
    FailedWriteKeeps(nm, w, key, lossy);
    ReconcileAdvances(nm, w, key, lossy);
    hide Reconcile;
    var died := Died(w.past, v.past);
    assert v.past.lostStops == w.past.lostStops + (v.past.lostStops - w.past.lostStops);
    assert LostOn(died, slot) == LostOn(v.past, slot);
    EndPaid(v.(past := died), slot);
  }

  lemma StepPaid(nm: Namer, w: World, step: Step, slot: Slot)
    requires StepOk(nm, w, step) && JobsOk(nm, w) && Paid(w, slot)
    ensures Paid(Apply(nm, w, step), slot)
  {
    hide Reconcile;
    hide JobsOk;
    match step
    case Submit(k, image, names, max) => EverywherePut(w.ppis, k, Submitted(image, names, max), Using(slot));
    case RequestDelete(k) => DeleteTakesNothing(w.ppis, k, Using(slot));
    case Visit(k, env) => ReconcilePaid(nm, w, k, env, slot);
    case Outside(d) =>
      DriftedIsDrift(w.store, d);
      FewerLoose(w.store, Drifted(w.store, d), slot);
    case Restart => EndPaid(w, slot);
    case Crash(k, env) => CrashPaid(nm, w, k, env, slot);
  }

  lemma {:induction false} RunsPaid(nm: Namer, maxPulls: int, maxPerNode: int, steps: seq<Step>, slot: Slot)
    ensures Paid(Run(nm, Start(maxPulls, maxPerNode), steps), slot)
  {
    if steps != [] {
      var before := steps[..|steps| - 1];
      RunsPaid(nm, maxPulls, maxPerNode, before, slot);
      RunsKeepAllOk(nm, maxPulls, maxPerNode, before);
      RunsKeepJobs(nm, maxPulls, maxPerNode, before);
      AllOkSteps(nm, Run(nm, Start(maxPulls, maxPerNode), before), steps[|steps| - 1]);
      hide Paid;
      StepPaid(nm, Run(nm, Start(maxPulls, maxPerNode), before), steps[|steps| - 1], slot);
    } else {
      assert LooseOn(Start(maxPulls, maxPerNode).store, slot) == {};
    }
  }

  /** A reconcile orphans no job but those of an object whose cleanup failed. */
  lemma {:induction false} PassOrphansNone(nm: Namer, key: Key, p: PrePullImage, s0: State, weather: seq<Weather>, n: nat)
    requires n <= |s0.entries|
    ensures OrphansBefore(s0.store, After(nm, key, p, s0, weather, n).store)
    decreases n
  {
    hide Handle;
    if n > 0 {
      PassOrphansNone(nm, key, p, s0, weather, n - 1);
      HandleOrphansNone(nm, key, p, After(nm, key, p, s0, weather, n - 1), n - 1, At(weather, n - 1));
    }
  }

  predicate OrphansBefore(s: JobStore, t: JobStore) {
    forall n :: n in t.jobs && t.jobs[n].tie.Orphaned? && Unfinished(t.jobs[n]) ==>
      n in s.jobs && s.jobs[n].tie.Orphaned? && Unfinished(s.jobs[n]) && s.jobs[n].node == t.jobs[n].node
  }

  lemma HandleOrphansNone(nm: Namer, key: Key, p: PrePullImage, s: State, i: nat, w: Weather)
    requires i < |s.entries|
    ensures OrphansBefore(s.store, Handle(nm, key, p, s, i, w).store)
  {
    DriftIsDrift(s.store, w.drift);
    hide DriftedAll;
  }

  lemma ReconcileOrphans(nm: Namer, w: World, key: Key, env: Env)
    requires OrphansLeft(w)
    ensures OrphansLeft(Reconcile(nm, w, key, env).world)
  {
    hide After;
    hide Tally;
    hide ReleaseAll;
    hide PullingNodes;
    if key in w.ppis {
      var p := w.ppis[key];
      PassOrphansNone(nm, key, p, Begin(w.limiter, w.store, w.metrics, p.nodeStatus), env.weather, |p.nodeStatus|);
    }
  }

  lemma StepLeavesOrphans(nm: Namer, w: World, step: Step)
    requires OrphansLeft(w)
    ensures OrphansLeft(Apply(nm, w, step))
  {
    hide Reconcile;
    match step
    case Visit(k, env) => ReconcileOrphans(nm, w, k, env);
    case Crash(k, env) => ReconcileOrphans(nm, w, k, env.(writeFails := true));
    case Outside(d) => DriftedIsDrift(w.store, d);
    case _ =>
  }

  lemma {:induction false} RunsLeaveOrphans(nm: Namer, maxPulls: int, maxPerNode: int, steps: seq<Step>)
    ensures OrphansLeft(Run(nm, Start(maxPulls, maxPerNode), steps))
  {
    if steps != [] {
      RunsLeaveOrphans(nm, maxPulls, maxPerNode, steps[..|steps| - 1]);
      StepLeavesOrphans(nm, Run(nm, Start(maxPulls, maxPerNode), steps[..|steps| - 1]), steps[|steps| - 1]);
    }
  }

  // ---------------------------------------------------------------------------------------------
  // The limit
  // ---------------------------------------------------------------------------------------------

  /** Jobs that failed cleanups have left running on the slot. */
  function LeftOn(past: History, slot: Slot): set<(string, string)> {
    set x | x in past.left && Covers(slot, x.1)
  }

  lemma OrphansCounted(w: World, slot: Slot)
    requires OrphansLeft(w)
    ensures |OrphansOn(w.store, slot)| <= |LeftOn(w.past, slot)|
  {
    var orphans := OrphansOn(w.store, slot);
    var pairs := set n | n in orphans :: (n, w.store.jobs[n].node);
    PairsSize(orphans, w.store.jobs);
    SubsetSize(pairs, LeftOn(w.past, slot));
  }

  lemma {:induction false} PairsSize(names: set<string>, jobs: map<string, Job>)
    requires names <= jobs.Keys
    ensures |set n | n in names :: (n, jobs[n].node)| == |names|
  {
    var pairs := set n | n in names :: (n, jobs[n].node);
    if x :| x in names {
      PairsSize(names - {x}, jobs);
      assert pairs == (set n | n in names - {x} :: (n, jobs[n].node)) + {(x, jobs[x].node)};
    } else {
      assert pairs == {};
    }
  }

  lemma LimitFromParts(nm: Namer, w: World, slot: Slot)
    requires JobsOk(nm, w) && Paid(w, slot) && OrphansLeft(w) && w.limiter.Valid()
    ensures |UnfinishedOn(w, slot)|
         <= (w.past.restarts + 1) * w.limiter.Limit(slot) + LostOn(w.past, slot) + |LeftOn(w.past, slot)|
  {
    JobsInThreeParts(nm, w, slot);
    OrphansCounted(w, slot);
    HeldWithinLimit(w.limiter, slot);
    hide Everywhere;
    hide UnfinishedOn;
    hide LooseOn;
    hide OrphansOn;
    hide LeftOn;
    hide LostOn;
    assert (w.past.restarts + 1) * w.limiter.Limit(slot) == w.past.restarts * w.limiter.Limit(slot) + w.limiter.Limit(slot);
  }

  /** The end-to-end limit, for every run: on every node and in the cluster, the unfinished pull jobs are at most
      k + 1 limits' worth after k restarts, plus one for each stop on the slot whose record was lost, for each
      creation on it that reported an error after it worked, and for each job that a failed cleanup left running
      on it. Lost starts, retries whose failed job could not be deleted, adoption, job expiry and failing reads
      cost nothing. */
  lemma UnfinishedJobsWithinLimit(nm: Namer, maxPulls: int, maxPerNode: int, steps: seq<Step>, slot: Slot)
    ensures var w, limit := Run(nm, Start(maxPulls, maxPerNode), steps), NewLimiter(maxPulls, maxPerNode).Limit(slot);
            |UnfinishedOn(w, slot)| <= (w.past.restarts + 1) * limit + LostOn(w.past, slot) + |LeftOn(w.past, slot)|
  {
    hide Run;
    RunsKeepAllOk(nm, maxPulls, maxPerNode, steps);
    RunsKeepJobs(nm, maxPulls, maxPerNode, steps);
    RunsPaid(nm, maxPulls, maxPerNode, steps, slot);
    RunsLeaveOrphans(nm, maxPulls, maxPerNode, steps);
    var w := Run(nm, Start(maxPulls, maxPerNode), steps);
    LimitFromParts(nm, w, slot);
    assert w.limiter.Limit(slot) == NewLimiter(maxPulls, maxPerNode).Limit(slot);
  }

  // ---------------------------------------------------------------------------------------------
  // In terms of what may fail
  // ---------------------------------------------------------------------------------------------

  /** Cleanup is complete, no creation reports an error after it worked, and the process does not die in the middle
      of a reconcile. Writes, reads, other creations and deletions of failed jobs may fail. */
  predicate Contained(step: Step) {
    match step
    case Visit(_, env) => env.kept == {} && forall i :: 0 <= i < |env.weather| ==> TidyWeather(env.weather[i])
    case Crash(_, _) => false
    case _ => true
  }

  lemma HandleContained(nm: Namer, key: Key, p: PrePullImage, s: State, i: nat, w: Weather)
    requires i < |s.entries| && TidyWeather(w)
    ensures Handle(nm, key, p, s, i, w).phantoms == s.phantoms
  {
  }

  lemma {:induction false} ContainedPass(nm: Namer, key: Key, p: PrePullImage, s0: State, weather: seq<Weather>, n: nat)
    requires n <= |s0.entries|
    requires forall i :: 0 <= i < |weather| ==> TidyWeather(weather[i])
    ensures After(nm, key, p, s0, weather, n).phantoms == s0.phantoms
    decreases n
  {
    hide Handle;
    if n > 0 {
      ContainedPass(nm, key, p, s0, weather, n - 1);
      HandleContained(nm, key, p, After(nm, key, p, s0, weather, n - 1), n - 1, At(weather, n - 1));
    }
  }

  lemma ContainedVisit(nm: Namer, w: World, key: Key, env: Env)
    requires Contained(Visit(key, env))
    ensures var v := Reconcile(nm, w, key, env).world;
            && v.past.crashed == w.past.crashed && v.past.phantoms == w.past.phantoms && v.past.left == w.past.left
            && (!env.writeFails ==> v.past.lostStops == w.past.lostStops)
  {
    hide After;
    hide Tally;
    hide ReleaseAll;
    hide PullingNodes;
    if key in w.ppis {
      var p := w.ppis[key];
      ContainedPass(nm, key, p, Begin(w.limiter, w.store, w.metrics, p.nodeStatus), env.weather, |p.nodeStatus|);
    }
  }

  lemma {:induction false} ContainedRuns(nm: Namer, w: World, steps: seq<Step>)
    requires forall i :: 0 <= i < |steps| ==> Contained(steps[i])
    ensures var v := Run(nm, w, steps);
            && v.past.crashed == w.past.crashed && v.past.phantoms == w.past.phantoms && v.past.left == w.past.left
            && ((forall i :: 0 <= i < |steps| ==> Tidy(steps[i])) ==> v.past.lostStops == w.past.lostStops)
  {
    hide Reconcile;
    if steps != [] {
      ContainedRuns(nm, w, steps[..|steps| - 1]);
      match steps[|steps| - 1]
      case Visit(k, env) => ContainedVisit(nm, Run(nm, w, steps[..|steps| - 1]), k, env);
      case _ =>
    }
  }

  /** On such runs only restarts and lost stops add to the limit: a lost start is paid for by the slot it leaks. */
  lemma ContainedRunsWithinLimit(nm: Namer, maxPulls: int, maxPerNode: int, steps: seq<Step>, slot: Slot)
    requires forall i :: 0 <= i < |steps| ==> Contained(steps[i])
    ensures var w, limit := Run(nm, Start(maxPulls, maxPerNode), steps), NewLimiter(maxPulls, maxPerNode).Limit(slot);
            |UnfinishedOn(w, slot)| <= (w.past.restarts + 1) * limit + Share(w.past.lostStops, slot)
  {
    hide Run;
    hide Contained;
    UnfinishedJobsWithinLimit(nm, maxPulls, maxPerNode, steps, slot);
    ContainedRuns(nm, Start(maxPulls, maxPerNode), steps);
    assert LeftOn(Start(maxPulls, maxPerNode).past, slot) == {};
    hide UnfinishedOn;
  }

  /** And if no write fails either, the unfinished jobs are at most the Pulling entries, and these at most k + 1
      limits' worth after k restarts. Failed deletions of failed jobs do no harm. */
  lemma TidyRunsWithinLimit(nm: Namer, maxPulls: int, maxPerNode: int, steps: seq<Step>, slot: Slot)
    requires forall i :: 0 <= i < |steps| ==> Tidy(steps[i])
    ensures var w, limit := Run(nm, Start(maxPulls, maxPerNode), steps), NewLimiter(maxPulls, maxPerNode).Limit(slot);
            |UnfinishedOn(w, slot)| <= Pulls(w, slot) <= (w.past.restarts + 1) * limit
  {
    hide Run;
    var w := Run(nm, Start(maxPulls, maxPerNode), steps);
    forall i | 0 <= i < |steps| ensures Contained(steps[i]) && StepKeeps(steps[i], {Bound, Spent}) {
      TidyIsContained(steps[i]);
    }
    ContainedRuns(nm, Start(maxPulls, maxPerNode), steps);
    RunsKeepTies(nm, maxPulls, maxPerNode, steps, {Bound, Spent});
    RunsKeepJobs(nm, maxPulls, maxPerNode, steps);
    JobsInThreeParts(nm, w, slot);
    assert LooseOn(w.store, slot) == OrphansOn(w.store, slot) == {};
    RestartBound(nm, maxPulls, maxPerNode, steps, slot);
  }

  /** As the user sees it: on runs where in addition nothing restarts, there are never more unfinished jobs than the
      operator was told to allow, in the cluster and on every node; ten and two if it was told nothing useful. */
  lemma AllowedPulls(nm: Namer, maxPulls: int, maxPerNode: int, steps: seq<Step>, node: string)
    requires forall i :: 0 <= i < |steps| ==> Tidy(steps[i]) && !steps[i].Restart?
    ensures var w := Run(nm, Start(maxPulls, maxPerNode), steps);
            && |UnfinishedOn(w, Whole)| <= (if maxPulls < 1 then 10 else maxPulls)
            && |UnfinishedOn(w, OnNode(node))| <= (if maxPerNode < 1 then 2 else maxPerNode)
  {
    hide Run;
    hide UnfinishedOn;
    hide Pulls;
    hide Tidy;
    TidyRunsWithinLimit(nm, maxPulls, maxPerNode, steps, Whole);
    TidyRunsWithinLimit(nm, maxPulls, maxPerNode, steps, OnNode(node));
    NoRestarts(nm, Start(maxPulls, maxPerNode), steps);
  }

  lemma {:induction false} NoRestarts(nm: Namer, w: World, steps: seq<Step>)
    requires forall i :: 0 <= i < |steps| ==> Tidy(steps[i]) && !steps[i].Restart?
    ensures Run(nm, w, steps).past.restarts == w.past.restarts
  {
    if steps != [] {
      NoRestarts(nm, w, steps[..|steps| - 1]);
      hide FullPass;
      hide ReleaseAll;
      hide Tally;
      hide PullingNodes;
    }
  }

  lemma TidyIsContained(step: Step)
    requires Tidy(step)
    ensures Contained(step) && StepKeeps(step, {Bound, Spent})
  {
    if step.Visit? {
      forall i | 0 <= i < |step.env.weather| ensures WeatherKeeps(step.env.weather[i], {Bound, Spent}) {
        assert TidyWeather(step.env.weather[i]);
      }
    }
  }
}
