/** Soundness of Completed when passes interleave: for the entries of every worker's copy, and for the recorded ones. */
module InterleavedSoundness {
  import opened RateLimiting
  import opened Cluster
  import opened Pass
  import opened System
  import opened Jobs
  import opened Ties
  import opened Soundness
  import opened Interleaving
  import opened InterleavedJobs

  /** The entries of the record as read, while a pass over it is under way. */
  predicate RecordGenuine(nm: Namer, key: Key, f: Flight, store: JobStore) {
    forall i :: 0 <= i < |f.p.nodeStatus| ==> EntryGenuine(nm, key, f.p.image, store, f.p.nodeStatus[i])
  }

  predicate FloorGenuine(nm: Namer, b: Floor) {
    && Genuine(nm, b.world)
    && forall k :: k in b.flights ==> RecordGenuine(nm, k, b.flights[k], b.world.store)
  }

  /** The record and the worker's copy have the same image and nodes. */
  lemma FlightTargets(nm: Namer, b: Floor, key: Key)
    requires FloorOk(nm, b) && key in b.flights && key in b.world.ppis
    ensures var f, p := b.flights[key], b.world.ppis[key];
            && p.nodeStatus == f.s.entries && p.image == f.p.image && p.maxAttempts == f.p.maxAttempts
            && SameNodes(f.p.nodeStatus, p.nodeStatus)
  {
    assert RecordOk(nm, key, b.flights, b.world.ppis[key]);
    FlightKeepsNodes(nm, key, b.flights[key], b.world.ppis[key]);
  }

  lemma SameTurn(nm: Namer, key: Key, p: PrePullImage, q: PrePullImage, s: State, i: nat, w: Weather)
    requires i < |s.entries| && p.image == q.image && p.maxAttempts == q.maxAttempts
    ensures Handle(nm, key, p, s, i, w) == Handle(nm, key, q, s, i, w)
  {
    hide DriftedAll;
    hide LimiterAfter;
    hide MetricsAfter;
    hide EntryAfter;
    hide Claims;
    hide MakesPhantom;
    hide StatusOf;
    hide Stops;
  }

  // ---------------------------------------------------------------------------------------------
  // A turn
  // ---------------------------------------------------------------------------------------------

  /** The pass over one object, in the world of all copies. */
  lemma FloorIsPass(nm: Namer, b: Floor, key: Key)
    requires FloorOk(nm, b) && FloorJobs(nm, b) && Genuine(nm, b.world) && key in b.flights && key in b.world.ppis
    ensures PassGenuine(nm, b.world.ppis, key, Now(b.world, b.flights[key]))
    ensures b.world.ppis[key].image == b.flights[key].p.image && b.world.ppis[key].maxAttempts == b.flights[key].p.maxAttempts
  {
    FlightTargets(nm, b, key);
    assert With(b.world.ppis, key, b.flights[key].s.entries) == b.world.ppis;
    hide FloorOk;
    hide StoreOk;
    hide StoreGenuine;
    hide EntryGenuine;
    hide Recalled;
  }

  lemma TurnInPass(nm: Namer, b: Floor, key: Key, weather: Weather)
    requires FloorOk(nm, b) && FloorJobs(nm, b) && Genuine(nm, b.world) && NoClash(nm, b.world.ppis) && CanTurn(b, key)
    ensures PassGenuine(nm, b.world.ppis, key, AfterTurn(nm, b, key, weather))
  {
    FloorIsPass(nm, b, key);
    hide FloorOk;
    hide FloorJobs;
    hide Genuine;
    hide NoClash;
    hide PassGenuine;
    hide Handle;
    var f, ppis := b.flights[key], b.world.ppis;
    HandleKeepsGenuine(nm, ppis, key, Now(b.world, f), f.next, weather);
    SameTurn(nm, key, ppis[key], f.p, Now(b.world, f), f.next, weather);
  }

  lemma TurnIsGenuine(nm: Namer, b: Floor, key: Key, weather: Weather)
    requires FloorOk(nm, b) && FloorJobs(nm, b) && FloorGenuine(nm, b) && NoClash(nm, b.world.ppis) && CanTurn(b, key)
    ensures Genuine(nm, Turned(nm, b, key, weather).world)
  {
    TurnInPass(nm, b, key, weather);
    hide FloorOk;
    hide FloorJobs;
    hide FloorGenuine;
    hide NoClash;
    hide AfterTurn;
    hide StoreOk;
    hide SameNodes;
    var ppis, c, t := b.world.ppis, Turned(nm, b, key, weather), AfterTurn(nm, b, key, weather);
    forall k, i | k in c.world.ppis && 0 <= i < |c.world.ppis[k].nodeStatus|
      ensures EntryGenuine(nm, k, c.world.ppis[k].image, t.store, c.world.ppis[k].nodeStatus[i])
    {
      if k != key {
        assert EntryGenuine(nm, k, ppis[k].image, t.store, ppis[k].nodeStatus[i]);
      } else {
        assert EntryGenuine(nm, key, ppis[key].image, t.store, t.entries[i]);
      }
    }
    hide EntryGenuine;
  }

  lemma TurnKeepsRecord(nm: Namer, b: Floor, key: Key, weather: Weather, k: Key)
    requires FloorOk(nm, b) && FloorGenuine(nm, b) && NoClash(nm, b.world.ppis) && CanTurn(b, key) && k in b.flights
    ensures RecordGenuine(nm, k, b.flights[k], Turned(nm, b, key, weather).world.store)
  {
    var f, g, ppis := b.flights[key], b.flights[k], b.world.ppis;
    var s, e := Now(b.world, f), f.s.entries[f.next];
    FlightTargets(nm, b, key);
    FlightTargets(nm, b, k);
    hide FloorOk;
    HandleAlters(nm, key, f.p, s, f.next, weather);
    hide Handle;
    forall i | 0 <= i < |g.p.nodeStatus|
      ensures EntryGenuine(nm, k, g.p.image, AfterTurn(nm, b, key, weather).store, g.p.nodeStatus[i])
    {
      assert EntryGenuine(nm, k, g.p.image, s.store, g.p.nodeStatus[i]);
      assert g.p.nodeStatus[i].node == ppis[k].nodeStatus[i].node && e.node == ppis[key].nodeStatus[f.next].node;
      BystanderGenuine(nm, k, g.p.image, g.p.nodeStatus[i], s.store, AfterTurn(nm, b, key, weather).store,
                       nm(key.name, e.node), f.p.image, e.node);
    }
  }

  // ---------------------------------------------------------------------------------------------
  // The other steps
  // ---------------------------------------------------------------------------------------------

  /** New jobs are for the entries of one object, old ones keep their targets. */
  predicate AltersFor(nm: Namer, key: Key, p: PrePullImage, s: JobStore, t: JobStore) {
    && s.pulled <= t.pulled
    && forall n :: n in t.jobs ==>
         || (n in s.jobs && t.jobs[n].image == s.jobs[n].image && t.jobs[n].node == s.jobs[n].node)
         || (exists i :: 0 <= i < |p.nodeStatus| && n == nm(key.name, p.nodeStatus[i].node)
                         && t.jobs[n].image == p.image && t.jobs[n].node == p.nodeStatus[i].node)
  }

  lemma AltersOnwards(nm: Namer, key: Key, p: PrePullImage, i: nat, r: JobStore, s: JobStore, t: JobStore)
    requires i < |p.nodeStatus| && AltersFor(nm, key, p, r, s)
    requires Alters(s, t, nm(key.name, p.nodeStatus[i].node), p.image, p.nodeStatus[i].node)
    ensures AltersFor(nm, key, p, r, t)
  {
  }

  lemma {:induction false} PassAlters(nm: Namer, key: Key, p: PrePullImage, s0: State, weather: seq<Weather>, n: nat)
    requires n <= |s0.entries| && s0.entries == p.nodeStatus && StoreGenuine(s0.store)
    ensures var t := After(nm, key, p, s0, weather, n); StoreGenuine(t.store) && AltersFor(nm, key, p, s0.store, t.store)
    decreases n
  {
    hide Handle;
    if n > 0 {
      PassAlters(nm, key, p, s0, weather, n - 1);
      EntriesMove(nm, key, p, s0, weather, n - 1);
      var s := After(nm, key, p, s0, weather, n - 1);
      HandleAlters(nm, key, p, s, n - 1, At(weather, n - 1));
      AltersOnwards(nm, key, p, n - 1, s0.store, s.store, After(nm, key, p, s0, weather, n).store);
    }
  }

  lemma VisitAlters(nm: Namer, w: World, key: Key, env: Env)
    requires key in w.ppis && StoreGenuine(w.store)
    ensures AltersFor(nm, key, w.ppis[key], w.store, Reconcile(nm, w, key, env).world.store)
  {
    hide After;
    hide Tally;
    hide ReleaseAll;
    hide PullingNodes;
    var p := w.ppis[key];
    PassAlters(nm, key, p, Begin(w.limiter, w.store, w.metrics, p.nodeStatus), env.weather, |p.nodeStatus|);
    hide StoreGenuine;
    hide FullPass;
  }

  lemma AlteredStaysGenuine(nm: Namer, key: Key, p: PrePullImage, k: Key, image: string, e: NodeStatus, s: JobStore, t: JobStore)
    requires EntryGenuine(nm, k, image, s, e) && AltersFor(nm, key, p, s, t)
    requires forall i :: 0 <= i < |p.nodeStatus| && nm(key.name, p.nodeStatus[i].node) == nm(k.name, e.node) ==>
      p.image == image && p.nodeStatus[i].node == e.node
    ensures EntryGenuine(nm, k, image, t, e)
  {
  }

  lemma VisitKeepsRecord(nm: Namer, b: Floor, key: Key, env: Env, k: Key)
    requires FloorOk(nm, b) && FloorGenuine(nm, b) && NoClash(nm, b.world.ppis) && k in b.flights && key in b.world.ppis
    ensures RecordGenuine(nm, k, b.flights[k], Reconcile(nm, b.world, key, env).world.store)
  {
    var g, w := b.flights[k], b.world;
    FlightTargets(nm, b, k);
    VisitAlters(nm, w, key, env);
    hide FloorOk;
    hide AltersFor;
    hide Reconcile;
    assert RecordGenuine(nm, k, g, w.store);
    hide FloorGenuine;
    forall i | 0 <= i < |g.p.nodeStatus|
      ensures EntryGenuine(nm, k, g.p.image, Reconcile(nm, w, key, env).world.store, g.p.nodeStatus[i])
    {
      assert g.p.nodeStatus[i].node == w.ppis[k].nodeStatus[i].node;
      hide EntryGenuine;
      AlteredStaysGenuine(nm, key, w.ppis[key], k, g.p.image, g.p.nodeStatus[i], w.store, Reconcile(nm, w, key, env).world.store);
    }
  }

  lemma DriftedRecord(nm: Namer, k: Key, g: Flight, s: JobStore, d: Drift)
    requires RecordGenuine(nm, k, g, s)
    ensures RecordGenuine(nm, k, g, Drifted(s, d))
  {
    DriftedIsDrift(s, d);
    forall i | 0 <= i < |g.p.nodeStatus| ensures EntryGenuine(nm, k, g.p.image, Drifted(s, d), g.p.nodeStatus[i]) {
      DriftedEntry(nm, k, g.p.image, s, Drifted(s, d), g.p.nodeStatus[i]);
    }
  }

  /** Any other step leaves the records of passes under way genuine. */
  lemma StepKeepsRecord(nm: Namer, b: Floor, step: Step, k: Key)
    requires FloorOk(nm, b) && FloorGenuine(nm, b) && NoClash(nm, b.world.ppis) && Allowed(b, step) && k in b.flights
    ensures RecordGenuine(nm, k, b.flights[k], Apply(nm, b.world, step).store)
  {
    assert RecordGenuine(nm, k, b.flights[k], b.world.store);
    hide FloorOk;
    hide FloorGenuine;
    hide NoClash;
    hide Reconcile;
    hide RecordGenuine;
    match step
    case Visit(key, env) =>
      if key in b.world.ppis {
        VisitKeepsRecord(nm, b, key, env, k);
      } else {
        NothingToVisit(nm, b.world, key, env);
      }
    case Outside(d) => DriftedRecord(nm, k, b.flights[k], b.world.store, d);
    case _ =>
  }

  lemma NothingToVisit(nm: Namer, w: World, key: Key, env: Env)
    requires key !in w.ppis
    ensures Reconcile(nm, w, key, env).world == w
  {
  }

  // ---------------------------------------------------------------------------------------------
  // Runs
  // ---------------------------------------------------------------------------------------------

  lemma TakeIsGenuine(nm: Namer, b: Floor, key: Key)
    requires FloorGenuine(nm, b) && CanTake(b, key)
    ensures FloorGenuine(nm, Taken(b, key))
  {
    assert RecordGenuine(nm, key, Taken(b, key).flights[key], b.world.store) by {
      forall i | 0 <= i < |b.world.ppis[key].nodeStatus|
        ensures EntryGenuine(nm, key, b.world.ppis[key].image, b.world.store, b.world.ppis[key].nodeStatus[i])
      {
      }
    }
    hide Genuine;
    hide RecordGenuine;
  }

  lemma TurnKeepsGenuine(nm: Namer, b: Floor, key: Key, weather: Weather)
    requires FloorOk(nm, b) && FloorJobs(nm, b) && FloorGenuine(nm, b) && NoClash(nm, b.world.ppis) && CanTurn(b, key)
    ensures FloorGenuine(nm, Turned(nm, b, key, weather))
  {
    hide FloorOk;
    hide FloorJobs;
    hide NoClash;
    hide AfterTurn;
    TurnIsGenuine(nm, b, key, weather);
    var c := Turned(nm, b, key, weather);
    forall k | k in c.flights ensures RecordGenuine(nm, k, c.flights[k], c.world.store) {
      TurnKeepsRecord(nm, b, key, weather, k);
    }
    hide Genuine;
  }

  lemma FinishIsGenuine(nm: Namer, b: Floor, key: Key, now: int)
    requires FloorOk(nm, b) && FloorGenuine(nm, b) && CanFinish(b, key)
    ensures FloorGenuine(nm, Finished(b, key, now))
  {
    FinishKeepsEntries(nm, b, key, now);
    hide FloorOk;
    hide Concluded;
    var c := Finished(b, key, now);
    forall k, i | k in c.world.ppis && 0 <= i < |c.world.ppis[k].nodeStatus|
      ensures EntryGenuine(nm, k, c.world.ppis[k].image, c.world.store, c.world.ppis[k].nodeStatus[i])
    {
      assert EntryGenuine(nm, k, b.world.ppis[k].image, b.world.store, b.world.ppis[k].nodeStatus[i]);
    }
    hide EntryGenuine;
  }

  lemma LoosenedEntry(nm: Namer, key: Key, image: string, s: JobStore, claimed: set<string>, owner: Key, e: NodeStatus)
    requires EntryGenuine(nm, key, image, s, e)
    ensures EntryGenuine(nm, key, image, s.Loosen(claimed, owner), e)
  {
  }

  lemma AbortedCopiesGenuine(nm: Namer, b: Floor, key: Key)
    requires FloorOk(nm, b) && FloorGenuine(nm, b) && CanAbort(b, key)
    ensures EntriesGenuine(nm, Aborted(b, key).world.ppis, Aborted(b, key).world.store)
  {
    var f, c, w := b.flights[key], Aborted(b, key), b.world;
    FlightTargets(nm, b, key);
    hide FloorOk;
    hide JobStore.Loosen;
    assert RecordGenuine(nm, key, f, w.store);
    forall k, i | k in c.world.ppis && 0 <= i < |c.world.ppis[k].nodeStatus|
      ensures EntryGenuine(nm, k, c.world.ppis[k].image, c.world.store, c.world.ppis[k].nodeStatus[i])
    {
      if k != key {
        assert EntryGenuine(nm, k, w.ppis[k].image, w.store, w.ppis[k].nodeStatus[i]);
      }
      hide EntryGenuine;
      LoosenedEntry(nm, k, c.world.ppis[k].image, w.store, f.s.claimed, key, c.world.ppis[k].nodeStatus[i]);
    }
  }

  lemma LoosenedRecord(nm: Namer, k: Key, g: Flight, s: JobStore, claimed: set<string>, owner: Key)
    requires RecordGenuine(nm, k, g, s)
    ensures RecordGenuine(nm, k, g, s.Loosen(claimed, owner))
  {
    forall i | 0 <= i < |g.p.nodeStatus| ensures EntryGenuine(nm, k, g.p.image, s.Loosen(claimed, owner), g.p.nodeStatus[i]) {
      LoosenedEntry(nm, k, g.p.image, s, claimed, owner, g.p.nodeStatus[i]);
    }
  }

  lemma AbortIsGenuine(nm: Namer, b: Floor, key: Key)
    requires FloorOk(nm, b) && FloorGenuine(nm, b) && CanAbort(b, key)
    ensures FloorGenuine(nm, Aborted(b, key))
  {
    AbortedCopiesGenuine(nm, b, key);
    hide FloorOk;
    hide EntriesGenuine;
    hide RecordGenuine;
    var c := Aborted(b, key);
    forall k | k in c.flights ensures RecordGenuine(nm, k, c.flights[k], c.world.store) {
      LoosenedRecord(nm, k, b.flights[k], b.world.store, b.flights[key].s.claimed, key);
    }
  }

  lemma StepKeepsFloorGenuine(nm: Namer, b: Floor, step: Step)
    requires FloorOk(nm, b) && FloorJobs(nm, b) && FloorGenuine(nm, b) && NoClash(nm, b.world.ppis) && Allowed(b, step)
    ensures FloorGenuine(nm, Stepped(nm, b, step))
  {
    FloorOkSteps(nm, b, step);
    StepGenuine(nm, b.world, step);
    hide FloorOk;
    hide FloorJobs;
    hide NoClash;
    hide Apply;
    hide Genuine;
    forall k | k in b.flights ensures RecordGenuine(nm, k, b.flights[k], Apply(nm, b.world, step).store) {
      StepKeepsRecord(nm, b, step, k);
    }
  }

  lemma PerformKeepsGenuine(nm: Namer, b: Floor, act: Act)
    requires FloorOk(nm, b) && FloorJobs(nm, b) && FloorGenuine(nm, b) && NoClash(nm, b.world.ppis)
    ensures FloorGenuine(nm, Perform(nm, b, act))
  {
    hide FloorOk;
    hide FloorJobs;
    hide FloorGenuine;
    hide NoClash;
    match act
    case Take(k) =>
      if CanTake(b, k) {
        TakeIsGenuine(nm, b, k);
      }
    case Turn(k, weather) =>
      if CanTurn(b, k) {
        TurnKeepsGenuine(nm, b, k, weather);
      }
    case Finish(k, now) =>
      if CanFinish(b, k) {
        FinishIsGenuine(nm, b, k, now);
      }
    case Abort(k) =>
      if CanAbort(b, k) {
        AbortIsGenuine(nm, b, k);
      }
    case Other(step) =>
      if Allowed(b, step) {
        StepKeepsFloorGenuine(nm, b, step);
      }
  }

  /** No clash at any moment of the run. */
  ghost predicate NeverClash(nm: Namer, b: Floor, acts: seq<Act>) {
    NoClash(nm, PerformAll(nm, b, acts).world.ppis) && (acts != [] ==> NeverClash(nm, b, acts[..|acts| - 1]))
  }

  lemma {:induction false} RunsKeepGenuineInterleaved(nm: Namer, maxPulls: int, maxPerNode: int, acts: seq<Act>)
    requires NeverClash(nm, Open(maxPulls, maxPerNode), acts)
    ensures FloorGenuine(nm, PerformAll(nm, Open(maxPulls, maxPerNode), acts))
  {
    hide Perform;
    if acts != [] {
      var before := acts[..|acts| - 1];
      RunsKeepGenuineInterleaved(nm, maxPulls, maxPerNode, before);
      RunsInLedgerInterleaved(nm, maxPulls, maxPerNode, before, Whole);
      RunsKeepJobsInterleaved(nm, maxPulls, maxPerNode, before);
      assert NoClash(nm, PerformAll(nm, Open(maxPulls, maxPerNode), before).world.ppis);
      hide NoClash;
      hide FloorGenuine;
      hide FloorOk;
      hide FloorJobs;
      PerformKeepsGenuine(nm, PerformAll(nm, Open(maxPulls, maxPerNode), before), acts[|acts| - 1]);
    }
  }

  /** Soundness of Completed at every moment of every interleaving without name clashes: an entry that a worker's
      copy or a record has as Completed was pulled, unless its last start found the job of another pull that a
      failed cleanup had left behind. */
  lemma InterleavedCompletedMeansPulled(nm: Namer, maxPulls: int, maxPerNode: int, acts: seq<Act>, key: Key, i: nat)
    requires NeverClash(nm, Open(maxPulls, maxPerNode), acts)
    ensures var b := PerformAll(nm, Open(maxPulls, maxPerNode), acts);
            key in b.world.ppis && i < |b.world.ppis[key].nodeStatus| && b.world.ppis[key].nodeStatus[i].status.Completed? ==>
              var p := b.world.ppis[key];
              (p.image, p.nodeStatus[i].node) in b.world.store.pulled || Misled(p.nodeStatus[i], p.image)
    ensures var b := PerformAll(nm, Open(maxPulls, maxPerNode), acts);
            key in b.flights && i < |b.flights[key].p.nodeStatus| && b.flights[key].p.nodeStatus[i].status.Completed? ==>
              var p := b.flights[key].p;
              (p.image, p.nodeStatus[i].node) in b.world.store.pulled || Misled(p.nodeStatus[i], p.image)
  {
    hide PerformAll;
    RunsKeepGenuineInterleaved(nm, maxPulls, maxPerNode, acts);
    var b := PerformAll(nm, Open(maxPulls, maxPerNode), acts);
    if key in b.world.ppis && i < |b.world.ppis[key].nodeStatus| {
      assert EntryGenuine(nm, key, b.world.ppis[key].image, b.world.store, b.world.ppis[key].nodeStatus[i]);
    }
    if key in b.flights && i < |b.flights[key].p.nodeStatus| {
      assert RecordGenuine(nm, key, b.flights[key], b.world.store);
    }
  }

  // ---------------------------------------------------------------------------------------------
  // When cleanup never fails
  // ---------------------------------------------------------------------------------------------

  predicate FloorFinds(b: Floor, ties: set<Tie>) {
    && TiesIn(b.world.store, ties) && AllFoundIn(b.world.ppis, ties)
    && forall k, i :: k in b.flights && 0 <= i < |b.flights[k].p.nodeStatus| ==> FoundIn(b.flights[k].p.nodeStatus[i], ties)
  }

  predicate ActCleansUp(act: Act) {
    act.Other? ==> CleansUp(act.step)
  }

  lemma TurnFinds(nm: Namer, b: Floor, key: Key, weather: Weather)
    requires FloorOk(nm, b) && CanTurn(b, key) && FloorFinds(b, WITHOUT_ORPHANS)
    ensures FloorFinds(Turned(nm, b, key, weather), WITHOUT_ORPHANS)
  {
    var f, c := b.flights[key], Turned(nm, b, key, weather);
    var t := AfterTurn(nm, b, key, weather);
    FlightTargets(nm, b, key);
    hide FloorOk;
    hide FoundIn;
    hide SameNodes;
    assert FoundIn(b.world.ppis[key].nodeStatus[f.next], WITHOUT_ORPHANS);
    HandleKeepsTies(nm, key, f.p, Now(b.world, f), f.next, weather, WITHOUT_ORPHANS);
    HandleMoves(nm, key, f.p, Now(b.world, f), f.next, weather);
    hide Handle;
    hide Move;
    forall k, i | k in c.world.ppis && 0 <= i < |c.world.ppis[k].nodeStatus|
      ensures FoundIn(c.world.ppis[k].nodeStatus[i], WITHOUT_ORPHANS)
    {
      if k != key || i != f.next {
        assert c.world.ppis[k].nodeStatus[i] == b.world.ppis[k].nodeStatus[i];
      }
    }
  }

  lemma PerformFinds(nm: Namer, b: Floor, act: Act)
    requires FloorOk(nm, b) && ActCleansUp(act) && FloorFinds(b, WITHOUT_ORPHANS)
    ensures FloorFinds(Perform(nm, b, act), WITHOUT_ORPHANS)
  {
    hide FloorOk;
    match act
    case Turn(k, weather) =>
      if CanTurn(b, k) {
        hide Turned;
        TurnFinds(nm, b, k, weather);
      }
    case Finish(k, now) =>
      if CanFinish(b, k) {
        FinishKeepsEntries(nm, b, k, now);
        hide Concluded;
      }
    case Other(step) =>
      if Allowed(b, step) {
        FloorOkSteps(nm, b, step);
        StepKeepsTies(nm, b.world, step, WITHOUT_ORPHANS);
        hide Apply;
      }
    case _ =>
  }

  lemma {:induction false} RunsFind(nm: Namer, maxPulls: int, maxPerNode: int, acts: seq<Act>)
    requires forall i :: 0 <= i < |acts| ==> ActCleansUp(acts[i])
    ensures FloorFinds(PerformAll(nm, Open(maxPulls, maxPerNode), acts), WITHOUT_ORPHANS)
  {
    hide Perform;
    if acts != [] {
      var before := acts[..|acts| - 1];
      RunsFind(nm, maxPulls, maxPerNode, before);
      RunsInLedgerInterleaved(nm, maxPulls, maxPerNode, before, Whole);
      hide FloorFinds;
      hide FloorOk;
      PerformFinds(nm, PerformAll(nm, Open(maxPulls, maxPerNode), before), acts[|acts| - 1]);
    }
  }

  /** If in addition cleanup never fails, Completed means pulled, without exception. */
  lemma InterleavedSoundIfCleanedUp(nm: Namer, maxPulls: int, maxPerNode: int, acts: seq<Act>, key: Key, i: nat)
    requires NeverClash(nm, Open(maxPulls, maxPerNode), acts)
    requires forall j :: 0 <= j < |acts| ==> ActCleansUp(acts[j])
    ensures var b := PerformAll(nm, Open(maxPulls, maxPerNode), acts);
            key in b.world.ppis && i < |b.world.ppis[key].nodeStatus| && b.world.ppis[key].nodeStatus[i].status.Completed? ==>
              (b.world.ppis[key].image, b.world.ppis[key].nodeStatus[i].node) in b.world.store.pulled
  {
    hide PerformAll;
    hide NeverClash;
    InterleavedCompletedMeansPulled(nm, maxPulls, maxPerNode, acts, key, i);
    RunsFind(nm, maxPulls, maxPerNode, acts);
    var b := PerformAll(nm, Open(maxPulls, maxPerNode), acts);
    if key in b.world.ppis && i < |b.world.ppis[key].nodeStatus| {
      assert FoundIn(b.world.ppis[key].nodeStatus[i], WITHOUT_ORPHANS);
    }
  }
}
